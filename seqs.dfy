/** Sequence helpers shared by the pages: the `filter` and `includes` of
    JavaScript arrays, stated once with the facts the pages rely on. */
module Seqs {

  /** No value occurs twice. */
  predicate NoDup<T(==)>(s: seq<T>)
  {
    forall i, j :: 0 <= i < j < |s| ==> s[i] != s[j]
  }

  /** `xs` can be obtained from `ys` by deleting elements (order kept). */
  predicate IsSubsequence<T(==)>(xs: seq<T>, ys: seq<T>)
    decreases |ys|
  {
    xs == [] ||
    (ys != [] && (IsSubsequence(xs, ys[1..]) ||
                  (xs[0] == ys[0] && IsSubsequence(xs[1..], ys[1..]))))
  }

  /** `xs.filter(p)`: the order-preserving subsequence of the elements satisfying `p`. */
  function Filter<T(==,!new)>(xs: seq<T>, p: T -> bool): (r: seq<T>)
    ensures forall x :: x in r <==> x in xs && p(x)
    ensures forall i :: 0 <= i < |r| ==> p(r[i])
    ensures |r| <= |xs|
    ensures multiset(r) <= multiset(xs)
    ensures forall x :: multiset(r)[x] == if p(x) then multiset(xs)[x] else 0
    ensures IsSubsequence(r, xs)
    ensures (forall i :: 0 <= i < |xs| ==> p(xs[i])) ==> r == xs
  {
    if xs == [] then []
    else
      var rest := Filter(xs[1..], p);
      assert xs == [xs[0]] + xs[1..];
      if p(xs[0]) then
        assert ([xs[0]] + rest)[1..] == rest;
        [xs[0]] + rest
      else rest
  }

  /** `s.filter(x => x !== v)`: every occurrence of `v` removed. */
  function Without<T(==,!new)>(s: seq<T>, v: T): (r: seq<T>)
    ensures forall x :: x in r <==> x in s && x != v
    ensures v !in s ==> r == s
    ensures NoDup(s) ==> NoDup(r)
    ensures IsSubsequence(r, s)
  {
    if s == [] then []
    else
      var rest := Without(s[1..], v);
      assert s == [s[0]] + s[1..];
      if s[0] == v then rest
      else
        assert ([s[0]] + rest)[1..] == rest;
        assert NoDup(s) ==> s[0] !in s[1..];
        [s[0]] + rest
  }

  lemma {:induction false} WithoutAppend<T(!new)>(s: seq<T>, t: seq<T>, v: T)
    ensures Without(s + t, v) == Without(s, v) + Without(t, v)
  {
    if s == [] {
      assert s + t == t;
    } else {
      assert (s + t)[1..] == s[1..] + t;
      WithoutAppend(s[1..], t, v);
    }
  }

  /** Removing the last element of a duplicate-free sequence by value is dropping it. */
  lemma WithoutLast<T(!new)>(s: seq<T>)
    requires s != [] && NoDup(s)
    ensures Without(s, s[|s| - 1]) == s[..|s| - 1]
  {
    var v := s[|s| - 1];
    assert s == s[..|s| - 1] + [v];
    WithoutAppend(s[..|s| - 1], [v], v);
    assert v !in s[..|s| - 1];
  }

  lemma {:induction false} SubsequenceRefl<T>(s: seq<T>)
    ensures IsSubsequence(s, s)
  {
    if s != [] { SubsequenceRefl(s[1..]); }
  }
}
