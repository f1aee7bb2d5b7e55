/**
 * Terraform attribute values as the plugin framework hands them to the
 * provider: null, unknown (not yet computed), or a known value.
 */
module Tf {
  import opened Wrappers
  import Uuid

  datatype Value<T> = Null | Unknown | Known(v: T)

  /** types.String.ValueString(): the value, or "" when null or unknown. */
  function ValueString(x: Value<string>): string
  {
    if x.Known? then x.v else ""
  }

  /** types.Int64.ValueInt64(): the value, or 0 when null or unknown. */
  function ValueInt64(x: Value<int>): int
  {
    if x.Known? then x.v else 0
  }

  /** types.Bool.ValueBool(): the value, or false when null or unknown. */
  function ValueBool(x: Value<bool>): bool
  {
    if x.Known? then x.v else false
  }

  /** fmt's %q for text without quotes, backslashes or control characters. */
  function Quote(s: string): string
  {
    "\"" + s + "\""
  }

  /** types.String.String(): "<unknown>", "<null>", or the quoted value. */
  function Render(x: Value<string>): (r: string)
    ensures x.Known? ==> |r| == |x.v| + 2
  {
    match x
    case Unknown => "<unknown>"
    case Null => "<null>"
    case Known(s) => Quote(s)
  }

  /** types.Bool.String(): "<unknown>", "<null>", "true" or "false". */
  function RenderBool(x: Value<bool>): string
  {
    match x
    case Unknown => "<unknown>"
    case Null => "<null>"
    case Known(b) => if b then "true" else "false"
  }

  /**
   * Parsing the rendered text of a known UUID string succeeds, as the
   * 38-character form of uuid.Parse drops the opening quote; the renderings
   * of null and unknown never parse.
   */
  lemma ParseRendered(x: Value<string>, u: Uuid.Uuid)
    ensures x == Known(Uuid.ToString(u)) ==> Uuid.Parse(Render(x)) == Some(u)
    ensures !x.Known? ==> Uuid.Parse(Render(x)).None?
  {
    if x == Known(Uuid.ToString(u)) {
      Uuid.ParseEnclosed(u, '"', '"');
      assert Render(x) == ['"'] + Uuid.ToString(u) + ['"'];
    }
  }
}
