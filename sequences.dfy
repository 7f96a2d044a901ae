/** Order-preserving sub-selection, shared by the catalog filter and the selection store. */
module Sequences {

  /** `s` is obtained from `t` by deleting elements, keeping the rest in order. */
  ghost predicate IsSubsequence<T>(s: seq<T>, t: seq<T>)
    decreases |t|
  {
    if s == [] then true
    else if t == [] then false
    else (s[0] == t[0] && IsSubsequence(s[1..], t[1..])) || IsSubsequence(s, t[1..])
  }
}
