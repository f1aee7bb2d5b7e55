/** internal/utils: the generic conditional expression. */
module Utils {
  /** utils.IfElse: v when cond holds, d otherwise. */
  function IfElse<T>(cond: bool, v: T, d: T): (r: T)
    ensures cond ==> r == v
    ensures !cond ==> r == d
  {
    if cond then v else d
  }

  /** With both branches equal the condition does not matter. */
  lemma IfElseSame<T>(cond: bool, x: T)
    ensures IfElse(cond, x, x) == x
  {
  }

  /** Negating the condition swaps the branches. */
  lemma IfElseSwap<T>(cond: bool, v: T, d: T)
    ensures IfElse(!cond, d, v) == IfElse(cond, v, d)
  {
  }
}
