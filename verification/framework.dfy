/**
 * What a resource operation of the Terraform plugin framework hands back:
 * the diagnostics it added, what it wrote to the state, and, because the
 * SDK client is replaced by parameters, the client calls it made in order.
 */
module Framework {
  import opened Wrappers
  import opened GoErrors

  datatype Severity = SeverityError | SeverityWarning

  /** diag.Diagnostic: a severity, a one-line summary and a detail text. */
  datatype Diagnostic = Diagnostic(severity: Severity, summary: string, detail: string)

  function ErrorDiag(summary: string, detail: string): Diagnostic
  {
    Diagnostic(SeverityError, summary, detail)
  }

  function WarningDiag(summary: string, detail: string): Diagnostic
  {
    Diagnostic(SeverityWarning, summary, detail)
  }

  /** diag.Diagnostics.HasError(). */
  predicate HasError(ds: seq<Diagnostic>)
  {
    exists i :: 0 <= i < |ds| && ds[i].severity == SeverityError
  }

  /**
   * The response's state after the operation: left as it came in, set from
   * the model, removed (resp.State.RemoveResource), or set attribute by
   * attribute (resp.State.SetAttribute during an import).
   */
  datatype Write<M> = Untouched | Saved(model: M) | Removed | Attributes(values: seq<(string, string)>)

  /**
   * One run of an operation: the client calls made, the diagnostics added,
   * the state written, and the panic that ended it, if one did.
   */
  datatype Run<C, M> = Run(calls: seq<C>, diags: seq<Diagnostic>, write: Write<M>, panic: Option<string>)

  /** The operation returns after adding one error diagnostic. */
  function Stop<C, M>(calls: seq<C>, d: Diagnostic): (r: Run<C, M>)
    ensures r.diags == [d] && r.write.Untouched? && r.panic.None?
  {
    Run(calls, [d], Untouched, None)
  }

  /** The operation returns normally after writing the state. */
  function Done<C, M>(calls: seq<C>, w: Write<M>): (r: Run<C, M>)
    ensures r.diags == [] && r.panic.None?
  {
    Run(calls, [], w, None)
  }

  /** The operation ends in a run-time panic after making these calls. */
  function Crash<C, M>(calls: seq<C>, reason: string): (r: Run<C, M>)
    ensures r.panic == Some(reason) && r.write.Untouched?
  {
    Run(calls, [], Untouched, Some(reason))
  }

  const TimeoutSummary := "Timeout while waiting"

  /**
   * The diagnostic the cluster resources add when an awaited call fails:
   * a wait timeout gets its own summary, every other error the caller's.
   */
  function AwaitFailure(err: Error, summary: string): (d: Diagnostic)
    ensures d.severity == SeverityError
    ensures d.summary == TimeoutSummary <==> Is(err, WaitTimeout) || summary == TimeoutSummary
  {
    if Is(err, WaitTimeout) then
      ErrorDiag(TimeoutSummary, "The cluster did not reach the desired state before the timeout: " + ErrorText(err))
    else ErrorDiag(summary, ErrorText(err))
  }
}
