/** Filtering, flattening and summing, and why none of them cares about order. */
module Sequences {

  function Collect<T, R>(s: seq<T>, f: T -> seq<R>): seq<R> {
    if s == [] then [] else Collect(s[..|s| - 1], f) + f(s[|s| - 1])
  }

  function Filter<T>(s: seq<T>, p: T -> bool): seq<T> {
    if s == [] then []
    else if p(s[|s| - 1]) then Filter(s[..|s| - 1], p) + [s[|s| - 1]]
    else Filter(s[..|s| - 1], p)
  }

  function Sum<T>(s: seq<T>, f: T -> int): int {
    if s == [] then 0 else Sum(s[..|s| - 1], f) + f(s[|s| - 1])
  }

  function Remove<T>(s: seq<T>, k: nat): seq<T>
    requires k < |s|
  {
    s[..k] + s[k + 1..]
  }

  lemma RemoveOne<T>(s: seq<T>, k: nat)
    requires k < |s|
    ensures multiset(Remove(s, k)) + multiset{s[k]} == multiset(s)
  {
    assert s == s[..k] + [s[k]] + s[k + 1..];
  }

  lemma RemoveLast<T>(s: seq<T>, k: nat)
    requires k < |s|
    ensures k == |s| - 1 ==> Remove(s, k) == s[..|s| - 1]
    ensures k < |s| - 1 ==> Remove(s, k) != [] && Remove(s, k)[..|s| - 2] == Remove(s[..|s| - 1], k) && Remove(s, k)[|s| - 2] == s[|s| - 1]
  {}

  lemma {:induction false} CollectRemove<T, R>(s: seq<T>, f: T -> seq<R>, k: nat)
    requires k < |s|
    ensures multiset(Collect(s, f)) == multiset(Collect(Remove(s, k), f)) + multiset(f(s[k]))
  {
    RemoveLast(s, k);
    if k < |s| - 1 { CollectRemove(s[..|s| - 1], f, k); }
  }

  lemma {:induction false} SumRemove<T>(s: seq<T>, f: T -> int, k: nat)
    requires k < |s|
    ensures Sum(s, f) == Sum(Remove(s, k), f) + f(s[k])
  {
    RemoveLast(s, k);
    if k < |s| - 1 { SumRemove(s[..|s| - 1], f, k); }
  }

  lemma {:induction false} FilterRemove<T>(s: seq<T>, p: T -> bool, k: nat)
    requires k < |s|
    ensures multiset(Filter(s, p)) == multiset(Filter(Remove(s, k), p)) + if p(s[k]) then multiset{s[k]} else multiset{}
  {
    RemoveLast(s, k);
    if k < |s| - 1 { FilterRemove(s[..|s| - 1], p, k); }
  }

  lemma PlaceOf<T>(s: seq<T>, t: seq<T>) returns (k: nat)
    requires t != [] && multiset(s) == multiset(t)
    ensures k < |s| && s[k] == t[|t| - 1] && multiset(Remove(s, k)) == multiset(t[..|t| - 1])
  {
    var x := t[|t| - 1];
    assert t == t[..|t| - 1] + [x];
    assert x in multiset(s);
    k :| 0 <= k < |s| && s[k] == x;
    RemoveOne(s, k);
    assert multiset(Remove(s, k)) == multiset(s) - multiset{x};
  }

  lemma {:induction false} CollectPermuted<T, R>(s: seq<T>, t: seq<T>, f: T -> seq<R>)
    requires multiset(s) == multiset(t)
    ensures multiset(Collect(s, f)) == multiset(Collect(t, f))
    decreases |t|
  {
    if t == [] {
      assert multiset(s) == multiset{} && |s| == |multiset(s)|;
    } else {
      var k := PlaceOf(s, t);
      CollectRemove(s, f, k);
      CollectPermuted(Remove(s, k), t[..|t| - 1], f);
    }
  }

  lemma {:induction false} FilterPermuted<T>(s: seq<T>, t: seq<T>, p: T -> bool)
    requires multiset(s) == multiset(t)
    ensures multiset(Filter(s, p)) == multiset(Filter(t, p))
    decreases |t|
  {
    if t == [] {
      assert multiset(s) == multiset{} && |s| == |multiset(s)|;
    } else {
      var k := PlaceOf(s, t);
      FilterRemove(s, p, k);
      FilterPermuted(Remove(s, k), t[..|t| - 1], p);
    }
  }

  lemma {:induction false} SumPermuted<T>(s: seq<T>, t: seq<T>, f: T -> int)
    requires multiset(s) == multiset(t)
    ensures Sum(s, f) == Sum(t, f) && |s| == |t|
    decreases |t|
  {
    assert |multiset(s)| == |s| && |multiset(t)| == |t|;
    if t != [] {
      var k := PlaceOf(s, t);
      SumRemove(s, f, k);
      SumPermuted(Remove(s, k), t[..|t| - 1], f);
    }
  }

  lemma {:induction false} FilterMembers<T>(s: seq<T>, p: T -> bool)
    ensures forall x :: x in Filter(s, p) <==> x in s && p(x)
  {
    if s != [] {
      FilterMembers(s[..|s| - 1], p);
      assert s == s[..|s| - 1] + [s[|s| - 1]];
    }
  }

  lemma {:induction false} CollectMembers<T, R>(s: seq<T>, f: T -> seq<R>)
    ensures forall y :: y in Collect(s, f) <==> exists i :: 0 <= i < |s| && y in f(s[i])
  {
    if s != [] {
      var last := |s| - 1;
      CollectMembers(s[..last], f);
      forall y ensures y in Collect(s, f) <==> exists i :: 0 <= i < |s| && y in f(s[i]) {
        if y in Collect(s[..last], f) {
          var i :| 0 <= i < last && y in f(s[..last][i]);
          assert y in f(s[i]);
        }
        if i :| 0 <= i < |s| && y in f(s[i]) {
          if i < last { assert y in f(s[..last][i]); }
        }
      }
    }
  }

  /** A sum splits along any predicate. */
  lemma {:induction false} SumSplit<T>(s: seq<T>, p: T -> bool, q: T -> bool, f: T -> int)
    requires forall x :: q(x) <==> !p(x)
    ensures Sum(s, f) == Sum(Filter(s, p), f) + Sum(Filter(s, q), f)
  {
    if s != [] { SumSplit(s[..|s| - 1], p, q, f); }
  }

  /** Filtering away what a second filter refuses anyway changes nothing. */
  lemma {:induction false} FilterWithin<T>(s: seq<T>, outer: T -> bool, inner: T -> bool)
    requires forall x :: inner(x) ==> outer(x)
    ensures Filter(Filter(s, outer), inner) == Filter(s, inner)
  {
    if s != [] { FilterWithin(s[..|s| - 1], outer, inner); }
  }

  lemma {:induction false} FilterTwice<T>(s: seq<T>, p: T -> bool, q: T -> bool, both: T -> bool)
    requires forall x :: both(x) <==> p(x) && q(x)
    ensures Filter(Filter(s, p), q) == Filter(s, both)
  {
    if s != [] { FilterTwice(s[..|s| - 1], p, q, both); }
  }
}
