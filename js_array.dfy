/** The parts of JavaScript's array and value semantics that the library leans
    on: `Array.prototype.findIndex`, `Array.prototype.filter`, and the way
    `filter` reads its callback's result as a truth value. */
module JsArray {

  /** What a JavaScript callback may hand back to `filter`, reduced to the two
      cases the library produces: `undefined` and a boolean. */
  datatype JsValue = Undefined | Boolean(b: bool)

  /** JavaScript truthiness, restricted to `JsValue`: `undefined` is falsy. */
  predicate Truthy(v: JsValue) {
    v.Boolean? && v.b
  }

  /** `a` keeps some of the elements of `b`, in the order `b` has them. */
  ghost predicate IsSubsequence<T>(a: seq<T>, b: seq<T>)
    decreases |b|
  {
    if |a| == 0 then true
    else if |b| == 0 then false
    else (a[0] == b[0] && IsSubsequence(a[1..], b[1..])) || IsSubsequence(a, b[1..])
  }

  /** `s.findIndex(p)`: the position of the first element satisfying `p`, or -1. */
  function FindIndex<T>(s: seq<T>, p: T -> bool): (r: int)
    ensures -1 <= r < |s|
    ensures r >= 0 ==> p(s[r])
    ensures forall k :: 0 <= k < |s| && (r < 0 || k < r) ==> !p(s[k])
  {
    if |s| == 0 then -1
    else if p(s[0]) then 0
    else
      var r := FindIndex(s[1..], p);
      if r < 0 then -1 else r + 1
  }

  /** `s.filter(keep)`, with `keep` already read as a truth value: the elements
      of `s` that `keep` accepts, each as often as in `s`, in the order of `s`. */
  function Filter<T(!new)>(s: seq<T>, keep: T -> bool): (r: seq<T>)
    ensures forall x :: x in r <==> x in s && keep(x)
    ensures forall x :: multiset(r)[x] == if keep(x) then multiset(s)[x] else 0
    ensures IsSubsequence(r, s)
  {
    if |s| == 0 then []
    else
      var rest := Filter(s[1..], keep);
      assert s == [s[0]] + s[1..];
      if keep(s[0]) then [s[0]] + rest else rest
  }

  /** Every element of a subsequence of `b` is an element of `b`. */
  lemma {:induction false} SubsequenceElements<T>(a: seq<T>, b: seq<T>, x: T)
    requires IsSubsequence(a, b) && x in a
    ensures x in b
    decreases |b|
  {
    if a[0] == b[0] && IsSubsequence(a[1..], b[1..]) {
      if x != a[0] {
        SubsequenceElements(a[1..], b[1..], x);
      }
    } else {
      SubsequenceElements(a, b[1..], x);
    }
  }

  /** A callback that accepts nothing leaves nothing. */
  lemma {:induction false} FilterRejectingAll<T(!new)>(s: seq<T>, keep: T -> bool)
    requires forall x :: !keep(x)
    ensures Filter(s, keep) == []
  {
    if |s| > 0 {
      FilterRejectingAll(s[1..], keep);
    }
  }
}
