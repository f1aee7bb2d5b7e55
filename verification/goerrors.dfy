/**
 * Go error values as the SDK packages build them: sentinels that callers
 * compare by identity, plain messages from errors.New and fmt.Errorf, and
 * the context wrappers of github.com/pkg/errors (Wrap, Wrapf).
 */
module GoErrors {
  /** Every sentinel error the modelled packages declare. */
  datatype Kind =
    | ClusterNotFound        // internal/cloudsdk
    | ClusterUserNotFound    // internal/cloudsdk
    | PrivateLinkNotFound    // internal/cloudsdk
    | InvalidCredential      // internal/cloudsdk
    | WaitTimeout            // internal/utils/wait
    | PkgClusterNotFound     // pkg/cloudsdk
    | PkgInvalidCredential   // pkg/cloudsdk

  datatype Error =
    | Sentinel(kind: Kind)
    | Plain(text: string)
    | Wrapped(cause: Error, context: string)

  function KindText(k: Kind): string
  {
    match k
    case ClusterNotFound => "cluster not found"
    case ClusterUserNotFound => "cluster user not found"
    case PrivateLinkNotFound => "private link not found"
    case InvalidCredential => "invalid credential"
    case WaitTimeout => "timeout while waiting"
    case PkgClusterNotFound => "cluster not found"
    case PkgInvalidCredential => "invalid credential"
  }

  /** err.Error(): each wrapper puts its context in front, separated by ": ". */
  function ErrorText(e: Error): string
  {
    match e
    case Sentinel(k) => KindText(k)
    case Plain(t) => t
    case Wrapped(c, ctx) => ctx + ": " + ErrorText(c)
  }

  /** The error at the end of a chain of wrappers. */
  function Root(e: Error): (r: Error)
    ensures !r.Wrapped?
    ensures e.Wrapped? ==> r == Root(e.cause)
    ensures !e.Wrapped? ==> r == e
  {
    if e.Wrapped? then Root(e.cause) else e
  }

  /** errors.Is against a sentinel: the wrap chain ends in that sentinel. */
  function Is(e: Error, k: Kind): (b: bool)
    ensures b <==> Root(e) == Sentinel(k)
  {
    match e
    case Sentinel(k') => k' == k
    case Plain(_) => false
    case Wrapped(c, _) => Is(c, k)
  }

  /** Wrapping keeps errors.Is, whatever context is added. */
  lemma {:induction false} WrapKeepsIs(e: Error, ctx: string, k: Kind)
    ensures Is(Wrapped(e, ctx), k) == Is(e, k)
  {
  }

  /**
   * What a Go call ends in: a value with a nil error, a non-nil error, or a
   * run-time panic (a nil pointer dereference or a write to a nil map).
   */
  datatype Outcome<+T> = Return(value: T) | Fail(err: Error) | Panic(reason: string)

  const NilDereference := "nil pointer dereference"
  const NilMapWrite := "assignment to entry in nil map"
}
