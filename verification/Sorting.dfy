/** Stable sorting by a comparator, as `Array.prototype.sort` does it, and the
    uniqueness of sorted arrangements that order-independence results rest on. */
module Sorting {

  /** `lt` never ranks an element before itself and is transitive. */
  ghost predicate StrictOrder<T(!new)>(lt: (T, T) -> bool) {
    && (forall x :: !lt(x, x))
    && (forall x, y, z :: lt(x, y) && lt(y, z) ==> lt(x, z))
  }

  ghost predicate StrictTotalOrder<T(!new)>(lt: (T, T) -> bool) {
    && StrictOrder(lt)
    && (forall x, y :: x == y || lt(x, y) || lt(y, x))
  }

  /** Elements at different positions are always comparable. */
  ghost predicate Separated<T(!new)>(s: seq<T>, lt: (T, T) -> bool) {
    forall i, j :: 0 <= i < j < |s| ==> lt(s[i], s[j]) || lt(s[j], s[i])
  }

  ghost predicate Ascending<T(!new)>(s: seq<T>, lt: (T, T) -> bool) {
    forall i, j :: 0 <= i < j < |s| ==> lt(s[i], s[j])
  }

  ghost predicate Distinct<T>(s: seq<T>) {
    forall i, j :: 0 <= i < j < |s| ==> s[i] != s[j]
  }

  /** Each element once, in the order of first occurrence. */
  function Deduplicated<T(==, !new)>(s: seq<T>): (r: seq<T>)
    ensures forall x :: x in r <==> x in s
    ensures |r| <= |s|
  {
    if s == [] then []
    else
      var last := |s| - 1;
      if s[last] in s[..last] then Deduplicated(s[..last]) else Deduplicated(s[..last]) + [s[last]]
  }

  lemma {:induction false} DeduplicatedDistinct<T(!new)>(s: seq<T>)
    ensures Distinct(Deduplicated(s))
  {
    if s != [] { DeduplicatedDistinct(s[..|s| - 1]); }
  }

  function Insert<T>(x: T, s: seq<T>, lt: (T, T) -> bool): (r: seq<T>)
    ensures multiset(r) == multiset{x} + multiset(s)
    ensures |r| == |s| + 1
  {
    if s == [] || !lt(s[0], x) then [x] + s
    else
      assert s == [s[0]] + s[1..];
      [s[0]] + Insert(x, s[1..], lt)
  }

  /** Stable insertion sort: of two equal elements the earlier one stays first. */
  function Sort<T>(s: seq<T>, lt: (T, T) -> bool): (r: seq<T>)
    ensures multiset(r) == multiset(s)
    ensures |r| == |s|
  {
    if s == [] then []
    else
      assert s == [s[0]] + s[1..];
      Insert(s[0], Sort(s[1..], lt), lt)
  }

  lemma MemberOfMultiset<T>(s: seq<T>, x: T)
    ensures x in s <==> x in multiset(s)
  {}

  lemma SortMembers<T>(s: seq<T>, lt: (T, T) -> bool)
    ensures forall x :: x in s <==> x in Sort(s, lt)
  {
    forall x ensures x in s <==> x in Sort(s, lt) {
      MemberOfMultiset(s, x);
      MemberOfMultiset(Sort(s, lt), x);
    }
  }

  lemma {:induction false} InsertAscending<T(!new)>(x: T, s: seq<T>, lt: (T, T) -> bool)
    requires StrictOrder(lt)
    requires Ascending(s, lt)
    requires forall y :: y in s ==> lt(x, y) || lt(y, x)
    ensures Ascending(Insert(x, s, lt), lt)
  {
    if s != [] && lt(s[0], x) {
      InsertAscending(x, s[1..], lt);
      var rest := Insert(x, s[1..], lt);
      forall y | y in rest ensures lt(s[0], y) {
        assert y in multiset(rest);
        assert y == x || y in s[1..];
      }
    } else if s != [] {
      assert s[0] in s;
      forall y | y in s ensures lt(x, y) {
        assert y == s[0] || lt(s[0], y);
      }
    }
  }

  /** Sorting pairwise comparable elements puts them in strictly ascending order. */
  lemma {:induction false} SortAscending<T(!new)>(s: seq<T>, lt: (T, T) -> bool)
    requires StrictOrder(lt)
    requires Separated(s, lt)
    ensures Ascending(Sort(s, lt), lt)
  {
    if s != [] {
      SortAscending(s[1..], lt);
      forall y | y in Sort(s[1..], lt) ensures lt(s[0], y) || lt(y, s[0]) {
        SortMembers(s[1..], lt);
        assert y in s[1..];
      }
      InsertAscending(s[0], Sort(s[1..], lt), lt);
    }
  }

  /** At most one ascending arrangement of a given set of elements exists. */
  lemma {:induction false} AscendingUnique<T(!new)>(s: seq<T>, t: seq<T>, lt: (T, T) -> bool)
    requires StrictOrder(lt)
    requires Ascending(s, lt) && Ascending(t, lt)
    requires forall x :: x in s <==> x in t
    ensures s == t
  {
    assert |s| > 0 ==> s[0] in t;
    assert |t| > 0 ==> t[0] in s;
    if s != [] {
      assert s[0] == t[0];
      forall x ensures x in s[1..] <==> x in t[1..] {
        assert x in s[1..] ==> x in s && lt(s[0], x);
        assert x in t[1..] ==> x in t && lt(t[0], x);
      }
      AscendingUnique(s[1..], t[1..], lt);
    }
  }

  lemma SeparatedPermutation<T(!new)>(s: seq<T>, t: seq<T>, lt: (T, T) -> bool)
    requires multiset(s) == multiset(t)
    requires StrictOrder(lt)
    requires Separated(s, lt)
    ensures Separated(t, lt)
  {
    forall i, j | 0 <= i < j < |t| ensures lt(t[i], t[j]) || lt(t[j], t[i]) {
      MemberOfMultiset(t, t[i]);
      MemberOfMultiset(t, t[j]);
      var a :| 0 <= a < |s| && s[a] == t[i];
      var b :| 0 <= b < |s| && s[b] == t[j];
      if a == b {
        TwicePresent(t, i, j);
        OncePresent(s, a, lt);
      }
    }
  }

  lemma TwicePresent<T>(s: seq<T>, i: int, j: int)
    requires 0 <= i < j < |s| && s[i] == s[j]
    ensures multiset(s)[s[i]] >= 2
  {
    assert s == s[..j] + [s[j]] + s[j + 1..];
    assert s[i] in s[..j];
  }

  lemma OncePresent<T(!new)>(s: seq<T>, a: int, lt: (T, T) -> bool)
    requires StrictOrder(lt)
    requires Separated(s, lt)
    requires 0 <= a < |s|
    ensures multiset(s)[s[a]] == 1
  {
    assert s == s[..a] + [s[a]] + s[a + 1..];
    assert s[a] !in s[..a];
    assert s[a] !in s[a + 1..];
  }

  /** Sorting forgets the order the elements came in. */
  lemma SortPermutation<T(!new)>(s: seq<T>, t: seq<T>, lt: (T, T) -> bool)
    requires StrictOrder(lt)
    requires multiset(s) == multiset(t)
    requires Separated(s, lt)
    ensures Sort(s, lt) == Sort(t, lt)
  {
    SeparatedPermutation(s, t, lt);
    SortAscending(s, lt);
    SortAscending(t, lt);
    forall x ensures x in Sort(s, lt) <==> x in Sort(t, lt) {
      MemberOfMultiset(Sort(s, lt), x);
      MemberOfMultiset(Sort(t, lt), x);
    }
    AscendingUnique(Sort(s, lt), Sort(t, lt), lt);
  }

  /** A strict order in which being unordered is transitive, as sorting demands. */
  ghost predicate WeakOrder<T(!new)>(lt: (T, T) -> bool) {
    && StrictOrder(lt)
    && (forall x, y, z :: lt(x, z) ==> lt(x, y) || lt(y, z))
  }

  ghost predicate NonDescending<T(!new)>(s: seq<T>, lt: (T, T) -> bool) {
    forall i, j :: 0 <= i < j < |s| ==> !lt(s[j], s[i])
  }

  lemma {:induction false} InsertNonDescending<T(!new)>(x: T, s: seq<T>, lt: (T, T) -> bool)
    requires WeakOrder(lt)
    requires NonDescending(s, lt)
    ensures NonDescending(Insert(x, s, lt), lt)
  {
    if s != [] && lt(s[0], x) {
      InsertNonDescending(x, s[1..], lt);
      var rest := Insert(x, s[1..], lt);
      forall y | y in rest ensures !lt(y, s[0]) {
        assert y in multiset(rest);
        assert y == x || y in s[1..];
      }
    } else if s != [] {
      forall y | y in s ensures !lt(y, x) {
        assert y == s[0] || !lt(y, s[0]);
      }
    }
  }

  lemma {:induction false} SortNonDescending<T(!new)>(s: seq<T>, lt: (T, T) -> bool)
    requires WeakOrder(lt)
    ensures NonDescending(Sort(s, lt), lt)
  {
    if s != [] {
      SortNonDescending(s[1..], lt);
      InsertNonDescending(s[0], Sort(s[1..], lt), lt);
    }
  }
}
