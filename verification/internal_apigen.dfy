/**
 * internal/cloudsdk/apigen/helpers.go: turning a generated client's
 * response into an error when its status code is not the expected one.
 */
module InternalApigen {
  import opened Wrappers
  import opened GoErrors
  import Text

  /** The two accessors a generated response offers. */
  datatype SpecResponse = SpecResponse(status: string, statusCode: int)

  /** The head of every mismatch text. */
  function Mismatch(expected: int, got: int): string
  {
    "expected status code " + Text.Decimal(expected) + " but got " + Text.Decimal(got)
  }

  /**
   * ExpectStatusCodeWithMessage: nil (None) exactly when the code matches;
   * otherwise a plain error whose text names both codes and, when at least
   * one message is given, the first message after ", message: ".
   */
  function ExpectStatusCodeWithMessage(res: SpecResponse, statusCode: int, message: seq<string>): (r: Option<Error>)
    ensures r.None? <==> res.statusCode == statusCode
    ensures r.Some? && |message| == 0 ==> r.value == Plain(Mismatch(statusCode, res.statusCode))
    ensures r.Some? && |message| > 0 ==> r.value == Plain(Mismatch(statusCode, res.statusCode) + ", message: " + message[0])
  {
    if res.statusCode != statusCode then
      var content := Mismatch(statusCode, res.statusCode);
      if |message| > 0 then Some(Plain(content + ", message: " + message[0]))
      else Some(Plain(content))
    else None
  }

  /** Messages after the first one are never looked at. */
  lemma OnlyFirstMessage(res: SpecResponse, statusCode: int, m: string, rest: seq<string>)
    ensures ExpectStatusCodeWithMessage(res, statusCode, [m] + rest) == ExpectStatusCodeWithMessage(res, statusCode, [m])
  {
  }

  /**
   * ExpectStatusCodeWithError: nil exactly when the code matches; otherwise
   * err wrapped with a context that names both codes and err's own text.
   * A nil err on a mismatch would be dereferenced, so it is ruled out.
   */
  function ExpectStatusCodeWithError(res: SpecResponse, statusCode: int, err: Option<Error>): (r: Option<Error>)
    requires res.statusCode != statusCode ==> err.Some?
    ensures r.None? <==> res.statusCode == statusCode
    ensures r.Some? ==> r.value.Wrapped? && r.value.cause == err.value
    ensures r.Some? ==> r.value.context == Mismatch(statusCode, res.statusCode) + ", error: " + ErrorText(err.value)
  {
    if res.statusCode != statusCode then
      Some(Wrapped(err.value, Mismatch(statusCode, res.statusCode) + ", error: " + ErrorText(err.value)))
    else None
  }

  /** Neither helper reads the status line, only the code. */
  lemma StatusLineIgnored(a: SpecResponse, b: SpecResponse, statusCode: int, message: seq<string>, err: Option<Error>)
    requires a.statusCode == b.statusCode
    requires a.statusCode != statusCode ==> err.Some?
    ensures ExpectStatusCodeWithMessage(a, statusCode, message) == ExpectStatusCodeWithMessage(b, statusCode, message)
    ensures ExpectStatusCodeWithError(a, statusCode, err) == ExpectStatusCodeWithError(b, statusCode, err)
  {
  }

  /** A wrapped mismatch still answers errors.Is for the sentinel it wraps. */
  lemma WithErrorKeepsSentinel(res: SpecResponse, statusCode: int, err: Error, k: Kind)
    requires res.statusCode != statusCode
    ensures Is(ExpectStatusCodeWithError(res, statusCode, Some(err)).value, k) == Is(err, k)
  {
  }
}
