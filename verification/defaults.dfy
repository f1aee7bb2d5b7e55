/** internal/utils/defaults: fallbacks for empty strings and nil pointers. */
module Defaults {
  import opened Wrappers

  /** defaults.String: v unless it is empty, then d. */
  function String(v: string, d: string): (r: string)
    ensures |v| > 0 ==> r == v
    ensures |v| == 0 ==> r == d
    ensures |r| > 0 <==> |v| > 0 || |d| > 0
  {
    if |v| == 0 then d else v
  }

  /** Falling back a second time to the same default changes nothing. */
  lemma StringIdempotent(v: string, d: string)
    ensures String(String(v, d), d) == String(v, d)
  {
  }

  /** defaults.UnwrapOr: the pointee, or u for a nil pointer (None). */
  function UnwrapOr<T>(v: Option<T>, u: T): (r: T)
    ensures v.None? ==> r == u
    ensures v.Some? ==> r == v.value
  {
    if v.None? then u else v.value
  }
}
