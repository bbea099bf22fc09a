/** Strings as JSON carries them, in UTF-16 code units, and the members of objects. */
module JsonFields {
  import opened Wrappers
  import opened JsonText
  import opened CanonicalJson

  // ----- Code units -----

  /** The surrogate pair of a scalar value above 0xFFFF, the value itself below. */
  function Units(c: char): Text {
    var u := c as int;
    assert u < 0x110000;
    if u < 0x10000 then [u] else [0xD800 + (u - 0x10000) / 0x400, 0xDC00 + (u - 0x10000) % 0x400]
  }

  function Joined(pieces: seq<Text>): Text { if pieces == [] then [] else pieces[0] + Joined(pieces[1..]) }

  function Pieces(s: string): (pieces: seq<Text>)
    ensures |pieces| == |s|
  {
    seq(|s|, i requires 0 <= i < |s| => Units(s[i]))
  }

  function Utf16(s: string): Text { Joined(Pieces(s)) }

  function PairedScalar(high: int, low: int): char
    requires 0xD800 <= high < 0xDC00 && 0xDC00 <= low < 0xE000
  {
    (0x10000 + (high - 0xD800) * 0x400 + (low - 0xDC00)) as char
  }

  /** Pairs become one scalar value; a surrogate without a partner is shown as U+FFFD. */
  function Scalars(t: Text): string {
    if t == [] then ""
    else if |t| > 1 && HighSurrogate(t[0]) && LowSurrogate(t[1]) then
      [PairedScalar(t[0], t[1])] + Scalars(t[2..])
    else [if HighSurrogate(t[0]) || LowSurrogate(t[0]) then '\U{FFFD}' else t[0] as char] + Scalars(t[1..])
  }

  lemma ScalarsOfUnits(c: char, rest: Text)
    ensures Scalars(Units(c) + rest) == [c] + Scalars(rest)
  {
    var t := Units(c) + rest;
    assert t[|Units(c)|..] == rest;
    if c as int >= 0x10000 {
      assert HighSurrogate(t[0]) && LowSurrogate(t[1]);
    } else {
      assert !HighSurrogate(t[0]) && !LowSurrogate(t[0]);
    }
  }

  /** Nothing is lost on the way through code units and back. */
  lemma {:induction false} Utf16RoundTrip(s: string)
    ensures Scalars(Utf16(s)) == s
  {
    if s != "" {
      assert Pieces(s)[1..] == Pieces(s[1..]);
      ScalarsOfUnits(s[0], Utf16(s[1..]));
      Utf16RoundTrip(s[1..]);
    }
  }

  /** Below 0x10000 a character is its own code unit. */
  lemma {:induction false} BasicUnits(s: string)
    requires forall i :: 0 <= i < |s| ==> s[i] as int < 0x10000
    ensures |Utf16(s)| == |s| && forall i :: 0 <= i < |s| ==> Utf16(s)[i] == s[i] as int
  {
    if s != "" {
      assert Pieces(s)[1..] == Pieces(s[1..]);
      BasicUnits(s[1..]);
    }
  }

  lemma Utf16Apart(a: string, b: string)
    ensures Utf16(a) == Utf16(b) <==> a == b
  {
    Utf16RoundTrip(a);
    Utf16RoundTrip(b);
  }

  // ----- Members -----

  function Field(body: Json, name: string): Option<Json> {
    if body.Obj? && Utf16(name) in Keys(body.members) then Some(Lookup(body.members, Utf16(name))) else None
  }

  function One(a: string, x: Json): Json { Obj([Member(Utf16(a), x)]) }

  function Two(a: string, x: Json, b: string, y: Json): Json { Obj([Member(Utf16(a), x), Member(Utf16(b), y)]) }

  lemma FieldOfOne(a: string, x: Json, name: string)
    ensures Field(One(a, x), name) == if name == a then Some(x) else None
  {
    Utf16Apart(a, name);
    assert Keys(One(a, x).members) == [Utf16(a)];
  }

  lemma FieldOfTwo(a: string, x: Json, b: string, y: Json, name: string)
    requires a != b
    ensures Field(Two(a, x, b, y), name) == if name == a then Some(x) else if name == b then Some(y) else None
  {
    Utf16Apart(a, name);
    Utf16Apart(b, name);
    Utf16Apart(a, b);
    assert Keys(Two(a, x, b, y).members) == [Utf16(a), Utf16(b)];
    assert Keys(Two(a, x, b, y).members)[1..] == [Utf16(b)];
    assert Two(a, x, b, y).members[1..] == [Member(Utf16(b), y)];
  }

  lemma TwoValid(a: string, x: Json, b: string, y: Json)
    requires a != b && Valid(x) && Valid(y)
    ensures Valid(Two(a, x, b, y))
  {
    Utf16Apart(a, b);
  }
}
