/** Generic facts about sequences related element by element. */
module Seqs {
  /** Prepending a related pair to two pointwise related sequences keeps them pointwise related. */
  lemma PairsCons<A, B>(x: A, xs: seq<A>, y: B, ys: seq<B>, q: (A, B) -> bool)
    requires q(x, y) && |xs| == |ys|
    requires forall k :: 0 <= k < |xs| ==> q(xs[k], ys[k])
    ensures forall k :: 0 <= k < |[x] + xs| ==> q(([x] + xs)[k], ([y] + ys)[k])
  {
    forall k | 0 < k < |[x] + xs|
      ensures q(([x] + xs)[k], ([y] + ys)[k])
    {
      assert ([x] + xs)[k] == xs[k - 1] && ([y] + ys)[k] == ys[k - 1];
    }
  }

  /** Prepending an element that satisfies `q` to a sequence whose elements all do. */
  lemma AllCons<A>(x: A, xs: seq<A>, q: A -> bool)
    requires q(x) && forall k :: 0 <= k < |xs| ==> q(xs[k])
    ensures forall k :: 0 <= k < |[x] + xs| ==> q(([x] + xs)[k])
  {
    forall k | 0 < k < |[x] + xs|
      ensures q(([x] + xs)[k])
    {
      assert ([x] + xs)[k] == xs[k - 1];
    }
  }

  /** The elements of `s` that satisfy `p`, in order. */
  function Filter<T>(s: seq<T>, p: T -> bool): (r: seq<T>)
    ensures |r| <= |s|
  {
    if |s| == 0 then []
    else (if p(s[0]) then [s[0]] else []) + Filter(s[1..], p)
  }

  /** Everything kept comes from `s` and satisfies `p`. */
  lemma {:induction false} FilterSound<T>(s: seq<T>, p: T -> bool, x: T)
    requires x in Filter(s, p)
    ensures x in s && p(x)
  {
    var head := if p(s[0]) then [s[0]] else [];
    assert Filter(s, p) == head + Filter(s[1..], p);
    if x !in head {
      FilterSound(s[1..], p, x);
    }
  }

  /** Every element of `s` that satisfies `p` is kept. */
  lemma {:induction false} FilterComplete<T>(s: seq<T>, p: T -> bool, j: nat)
    requires j < |s| && p(s[j])
    ensures s[j] in Filter(s, p)
  {
    var head := if p(s[0]) then [s[0]] else [];
    assert Filter(s, p) == head + Filter(s[1..], p);
    if j > 0 {
      assert s[1..][j - 1] == s[j];
      FilterComplete(s[1..], p, j - 1);
    }
  }

  /** Nothing is kept when no element satisfies `p`. */
  lemma {:induction false} FilterNone<T>(s: seq<T>, p: T -> bool)
    requires forall k :: 0 <= k < |s| ==> !p(s[k])
    ensures Filter(s, p) == []
  {
    if |s| > 0 {
      assert forall k :: 0 <= k < |s| - 1 ==> s[1..][k] == s[k + 1];
      FilterNone(s[1..], p);
    }
  }

  /** Everything is kept, in order, when every element satisfies `p`. */
  lemma {:induction false} FilterAll<T>(s: seq<T>, p: T -> bool)
    requires forall k :: 0 <= k < |s| ==> p(s[k])
    ensures Filter(s, p) == s
  {
    if |s| > 0 {
      assert forall k :: 0 <= k < |s| - 1 ==> s[1..][k] == s[k + 1];
      FilterAll(s[1..], p);
      assert [s[0]] + s[1..] == s;
    }
  }
}
