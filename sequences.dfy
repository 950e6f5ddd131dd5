/** JavaScript's `Array.prototype.indexOf` with strict equality. */
module Sequences {

  /** The first position of `x` in `s`, or -1 when `x` does not occur. */
  function IndexOf<T(==)>(s: seq<T>, x: T): (r: int)
    ensures -1 <= r < |s|
    ensures r == -1 <==> x !in s
    ensures 0 <= r ==> s[r] == x
  {
    if s == [] then -1
    else if s[0] == x then 0
    else
      var j := IndexOf(s[1..], x);
      if j == -1 then -1 else j + 1
  }

  /** The position found is the first one: `x` occurs nowhere before it. */
  lemma {:induction false} IndexOfIsFirst<T>(s: seq<T>, x: T)
    ensures 0 <= IndexOf(s, x) ==> x !in s[..IndexOf(s, x)]
  {
    if s != [] && s[0] != x {
      IndexOfIsFirst(s[1..], x);
      var j := IndexOf(s[1..], x);
      if 0 <= j {
        assert s[..j + 1] == [s[0]] + s[1..][..j];
      }
    }
  }

  /** No element occurs twice. */
  predicate Distinct<T(==)>(s: seq<T>)
  {
    forall i, j :: 0 <= i < j < |s| ==> s[i] != s[j]
  }

  /** Without duplicates, looking up the element at position `i` gives `i`
      back; with duplicates it gives the earliest position holding it. */
  lemma IndexOfElement<T>(s: seq<T>, i: int)
    requires 0 <= i < |s|
    ensures 0 <= IndexOf(s, s[i]) <= i
    ensures Distinct(s) ==> IndexOf(s, s[i]) == i
  {
    IndexOfIsFirst(s, s[i]);
  }
}
