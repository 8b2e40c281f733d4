/**
 * Order-keeping selection from a sequence, as `Array.prototype.filter`
 * performs it.
 */
module Sequences {

  /**
   * `r` can be read off `s` from left to right by skipping entries: every
   * entry `r` keeps appears in `s`, in the same order.
   */
  ghost predicate IsSubsequence<T>(r: seq<T>, s: seq<T>)
    decreases |s|
  {
    if r == [] then true
    else if s == [] then false
    else (r[0] == s[0] && IsSubsequence(r[1..], s[1..])) || IsSubsequence(r, s[1..])
  }
}
