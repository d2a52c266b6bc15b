/** Small shared vocabulary: an optional value (the source's `undefined`) and
    two facts about sequences used by several modules. */
module Common {

  /** A value that may be absent, as a JavaScript property that may be `undefined`. */
  datatype Option<+T> = None | Some(value: T)

  /** `s` occurs in `t` in the same order, possibly with gaps. */
  predicate IsSubsequence<T(==)>(s: seq<T>, t: seq<T>)
    decreases |t|
  {
    if s == [] then true
    else if t == [] then false
    else if s[0] == t[0] then IsSubsequence(s[1..], t[1..])
    else IsSubsequence(s, t[1..])
  }

  /** No element of `s` occurs twice. */
  predicate NoDuplicates<T(==)>(s: seq<T>) {
    forall i, j :: 0 <= i < j < |s| ==> s[i] != s[j]
  }
}
