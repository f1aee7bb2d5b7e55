/**
 * pkg/cloudsdk/apigen/helpers.go: the older status-code helpers, which take
 * exactly one expected code and no optional message.
 */
module PkgApigen {
  import opened Wrappers
  import opened GoErrors
  import Text

  datatype SpecResponse = SpecResponse(status: string, statusCode: int)

  function Mismatch(expected: int, got: int): string
  {
    "expected status code " + Text.Decimal(expected) + " but got " + Text.Decimal(got)
  }

  /**
   * ExpectStatusCodeWithMessage: nil exactly when the code is the one
   * expected; otherwise a text that stops right after "message: ".
   */
  function ExpectStatusCodeWithMessage(res: SpecResponse, statusCode: int): (r: Option<Error>)
    ensures r.None? <==> res.statusCode == statusCode
    ensures r.Some? ==> r.value.Plain?
    ensures r.Some? ==> var t := r.value.text; |t| >= 9 && t[|t| - 9..] == "message: "
    ensures r.Some? ==> r.value.text == Mismatch(statusCode, res.statusCode) + ", message: "
  {
    if res.statusCode != statusCode then Some(Plain(Mismatch(statusCode, res.statusCode) + ", message: "))
    else None
  }

  /** ExpectStatusCodeWithError: as in internal/cloudsdk, err must be non-nil on a mismatch. */
  function ExpectStatusCodeWithError(res: SpecResponse, statusCode: int, err: Option<Error>): (r: Option<Error>)
    requires res.statusCode != statusCode ==> err.Some?
    ensures r.None? <==> res.statusCode == statusCode
    ensures r.Some? ==> r.value == Wrapped(err.value, Mismatch(statusCode, res.statusCode) + ", error: " + ErrorText(err.value))
  {
    if res.statusCode != statusCode then
      Some(Wrapped(err.value, Mismatch(statusCode, res.statusCode) + ", error: " + ErrorText(err.value)))
    else None
  }

  /** Exactly one code passes: any two codes that both pass are the same code. */
  lemma SingleAcceptedCode(res: SpecResponse, a: int, b: int)
    requires ExpectStatusCodeWithMessage(res, a).None? && ExpectStatusCodeWithMessage(res, b).None?
    ensures a == b
  {
  }
}
