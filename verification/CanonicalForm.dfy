/** What the canonical text looks like: which key comes first, how values and numbers are
    written. */
module CanonicalForm {
  import opened JsonText
  import opened Printer = CanonicalJson
  import opened Sorting

  // ----- Order of members -----

  /** The first unit in which two keys differ decides, and a key comes before its
      continuations. */
  ghost predicate Precedes(a: Text, b: Text) {
    exists k :: 0 <= k <= |a| && k <= |b| && a[..k] == b[..k]
                && (if k == |a| then k < |b| else k < |b| && a[k] < b[k])
  }

  lemma {:induction false} KeyLessIs(a: Text, b: Text)
    ensures KeyLess(a, b) <==> Precedes(a, b)
  {
    if a != [] && b != [] && a[0] == b[0] {
      KeyLessIs(a[1..], b[1..]);
      if Precedes(a[1..], b[1..]) {
        var k :| 0 <= k <= |a[1..]| && k <= |b[1..]| && a[1..][..k] == b[1..][..k]
                 && (if k == |a[1..]| then k < |b[1..]| else k < |b[1..]| && a[1..][k] < b[1..][k]);
        assert a[..k + 1] == [a[0]] + a[1..][..k] && b[..k + 1] == [b[0]] + b[1..][..k];
      }
      if Precedes(a, b) {
        var k :| 0 <= k <= |a| && k <= |b| && a[..k] == b[..k] && (if k == |a| then k < |b| else k < |b| && a[k] < b[k]);
        assert k > 0;
        assert a[1..][..k - 1] == a[..k][1..] && b[1..][..k - 1] == b[..k][1..];
      }
    } else {
      if KeyLess(a, b) { assert a[..0] == b[..0]; }
      if k :| 0 <= k <= |a| && k <= |b| && a[..k] == b[..k] && (if k == |a| then k < |b| else k < |b| && a[k] < b[k]) {
        if k > 0 { assert false; }
      }
    }
  }

  /** An object of two members is written with the preceding key first, whichever came
      first in it. */
  lemma TwoMembersWritten(a: Text, x: Json, b: Text, y: Json)
    requires Precedes(a, b) && Valid(x) && Valid(y) && a != b
    ensures Valid(Obj([Member(a, x), Member(b, y)])) && Valid(Obj([Member(b, y), Member(a, x)]))
    ensures var text := [OPEN_OBJECT] + (Quote(a) + [COLON] + CanonicalJson(x) + [COMMA] + (Quote(b) + [COLON] + CanonicalJson(y))) + [CLOSE_OBJECT];
            CanonicalJson(Obj([Member(a, x), Member(b, y)])) == text && CanonicalJson(Obj([Member(b, y), Member(a, x)])) == text
  {
    KeyLessIs(a, b);
    TwoSorted(a, b);
    FirstWritten(a, x, b, y);
    SecondWritten(a, x, b, y);
  }

  lemma FirstWritten(a: Text, x: Json, b: Text, y: Json)
    requires Valid(x) && Valid(y) && a != b && Sort([a, b], KeyLess) == [a, b]
    ensures Valid(Obj([Member(a, x), Member(b, y)]))
    ensures CanonicalJson(Obj([Member(a, x), Member(b, y)]))
         == [OPEN_OBJECT] + (Quote(a) + [COLON] + CanonicalJson(x) + [COMMA] + (Quote(b) + [COLON] + CanonicalJson(y))) + [CLOSE_OBJECT]
  {
    TwoKeys(a, x, b, y);
    WrittenInOrder([Member(a, x), Member(b, y)], a, x, b, y);
  }

  lemma SecondWritten(a: Text, x: Json, b: Text, y: Json)
    requires Valid(x) && Valid(y) && a != b && Sort([b, a], KeyLess) == [a, b]
    ensures Valid(Obj([Member(b, y), Member(a, x)]))
    ensures CanonicalJson(Obj([Member(b, y), Member(a, x)]))
         == [OPEN_OBJECT] + (Quote(a) + [COLON] + CanonicalJson(x) + [COMMA] + (Quote(b) + [COLON] + CanonicalJson(y))) + [CLOSE_OBJECT]
  {
    TwoKeys(b, y, a, x);
    WrittenInOrder([Member(b, y), Member(a, x)], a, x, b, y);
  }

  lemma TwoKeys(a: Text, x: Json, b: Text, y: Json)
    requires a != b
    ensures var members := [Member(a, x), Member(b, y)];
            Keys(members) == [a, b] && Lookup(members, a) == x && Lookup(members, b) == y
  {
    assert Keys([Member(a, x), Member(b, y)]) == [a, b];
  }

  lemma TwoSorted(a: Text, b: Text)
    requires KeyLess(a, b) && a != b
    ensures Sort([a, b], KeyLess) == [a, b] && Sort([b, a], KeyLess) == [a, b]
  {
    if KeyLess(b, a) {
      KeyLessTransitive(a, b, a);
      KeyLessIrreflexive(a);
    }
    assert [a, b][1..] == [b] && [b, a][1..] == [a] && [b][1..] == [] && [a][1..] == [];
    assert Sort([b], KeyLess) == [b] && Sort([a], KeyLess) == [a];
  }

  lemma WrittenInOrder(members: seq<Member>, a: Text, x: Json, b: Text, y: Json)
    requires Valid(Obj(members)) && Valid(x) && Valid(y) && a != b
    requires Keys(members) == [a, b] || Keys(members) == [b, a]
    requires a in Keys(members) && b in Keys(members) && Lookup(members, a) == x && Lookup(members, b) == y
    requires Sort(Keys(members), KeyLess) == [a, b]
    ensures CanonicalJson(Obj(members))
         == [OPEN_OBJECT] + (Quote(a) + [COLON] + CanonicalJson(x) + [COMMA] + (Quote(b) + [COLON] + CanonicalJson(y))) + [CLOSE_OBJECT]
  {
    assert [a, b][1..] == [b];
    assert CanonicalMembers(members, [b]) == CanonicalMember(members, b);
    assert CanonicalMembers(members, [a, b]) == CanonicalMember(members, a) + [COMMA] + CanonicalMembers(members, [b]);
  }

  // ----- Constants and lists -----

  lemma ConstantsWritten()
    ensures CanonicalJson(Null) == [110, 117, 108, 108]
    ensures CanonicalJson(Bool(true)) == [116, 114, 117, 101] && CanonicalJson(Bool(false)) == [102, 97, 108, 115, 101]
    ensures CanonicalJson(Arr([])) == [91, 93] && CanonicalJson(Arr([Null, Null])) == [91, 110, 117, 108, 108, 44, 110, 117, 108, 108, 93]
  {
    assert [Null, Null][1..] == [Null];
    assert CanonicalItems([Null]) == CanonicalJson(Null);
  }

  // ----- Numbers -----

  lemma {:induction false} TextOfZeros(n: nat)
    ensures |DigitText(Zeros(n))| == n && forall i :: 0 <= i < n ==> DigitText(Zeros(n))[i] == 0x30
  {}

  /** Up to 21 digits a whole number is written out, with more in exponent notation. */
  lemma WholeNumbersWritten(d: int)
    requires 1 <= d <= 9
    ensures NumberText(Finite(false, [d], 1)) == [0x30 + d]
    ensures NumberText(Finite(true, [d], 1)) == [0x2D, 0x30 + d]
    ensures |NumberText(Finite(false, [d], 21))| == 21 && NumberText(Finite(false, [d], 21))[0] == 0x30 + d
    ensures NumberText(Finite(false, [d], 22)) == [0x30 + d, 0x65, 0x2B, 0x32, 0x31]
  {
    assert [d] + Zeros(0) == [d];
    TextOfZeros(20);
    assert Decimal(21) == Decimal(2) + [1] && Decimal(2) == [2];
    assert DigitText([2, 1]) == [0x32, 0x31];
  }

  /** Down to a millionth a fraction is written out, below that in exponent notation. */
  lemma FractionsWritten(d: int)
    requires 1 <= d <= 9
    ensures NumberText(Finite(false, [d], 0)) == [0x30, 0x2E, 0x30 + d]
    ensures NumberText(Finite(false, [d], -5)) == [0x30, 0x2E, 0x30, 0x30, 0x30, 0x30, 0x30, 0x30 + d]
    ensures NumberText(Finite(false, [d], -6)) == [0x30 + d, 0x65, 0x2D, 0x37]
    ensures NumberText(Finite(false, [d, d], 1)) == [0x30 + d, 0x2E, 0x30 + d]
  {
    TenthWritten(d);
    MillionthWritten(d);
    assert [d, d][..1] == [d] && [d, d][1..] == [d];
    assert Decimal(7) == [7];
    assert NumberText(Finite(false, [d], -6)) == DigitText([d]) + ExponentText(-7);
    assert NumberText(Finite(false, [d, d], 1)) == PointText([d], [d]);
  }

  lemma TenthWritten(d: int)
    requires 1 <= d <= 9
    ensures NumberText(Finite(false, [d], 0)) == [0x30, 0x2E, 0x30 + d]
  {
    assert Zeros(0) + [d] == [d];
    assert NumberText(Finite(false, [d], 0)) == PointText([0], Zeros(0) + [d]);
  }

  lemma MillionthWritten(d: int)
    requires 1 <= d <= 9
    ensures NumberText(Finite(false, [d], -5)) == [0x30, 0x2E, 0x30, 0x30, 0x30, 0x30, 0x30, 0x30 + d]
  {
    assert Zeros(5) + [d] == [0, 0, 0, 0, 0, d];
    assert NumberText(Finite(false, [d], -5)) == PointText([0], [0, 0, 0, 0, 0, d]);
  }
}
