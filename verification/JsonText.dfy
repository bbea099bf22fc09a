/** The leaves of `JSON.stringify`: quoted strings over UTF-16 code units and
    finite numbers, each with a reader that undoes it. */
module JsonText {
  import opened Wrappers

  type CodeUnit = n: int | 0 <= n < 0x10000
  type Text = seq<CodeUnit>

  const QUOTE_MARK: CodeUnit := 0x22
  const BACKSLASH: CodeUnit := 0x5C
  const LOWER_U: CodeUnit := 0x75
  const LOWER_E: CodeUnit := 0x65
  const MINUS: CodeUnit := 0x2D
  const PLUS: CodeUnit := 0x2B
  const DOT: CodeUnit := 0x2E
  const DIGIT_ZERO: CodeUnit := 0x30

  // ----- Strings: section 7 of RFC 8259, QuoteJSONString of ECMA-262 -----

  predicate HighSurrogate(c: CodeUnit) { 0xD800 <= c < 0xDC00 }

  predicate LowSurrogate(c: CodeUnit) { 0xDC00 <= c < 0xE000 }

  function HexDigit(d: int): CodeUnit
    requires 0 <= d < 16
  {
    if d < 10 then 0x30 + d else 0x57 + d
  }

  function HexValue(c: CodeUnit): Option<int> {
    if 0x30 <= c < 0x3A then Some(c - 0x30)
    else if 0x61 <= c < 0x67 then Some(c - 0x57)
    else None
  }

  function EscapeUnit(c: CodeUnit): Text {
    if c == QUOTE_MARK then [BACKSLASH, QUOTE_MARK]
    else if c == BACKSLASH then [BACKSLASH, BACKSLASH]
    else if c == 0x08 then [BACKSLASH, 0x62]
    else if c == 0x0C then [BACKSLASH, 0x66]
    else if c == 0x0A then [BACKSLASH, 0x6E]
    else if c == 0x0D then [BACKSLASH, 0x72]
    else if c == 0x09 then [BACKSLASH, 0x74]
    else if c < 0x20 || HighSurrogate(c) || LowSurrogate(c) then
      [BACKSLASH, LOWER_U,
       HexDigit(c / 0x1000), HexDigit(c / 0x100 % 16), HexDigit(c / 0x10 % 16), HexDigit(c % 16)]
    else [c]
  }

  /** A surrogate pair is copied; a lone surrogate is escaped. */
  function Escaped(s: Text): Text {
    if s == [] then []
    else if |s| > 1 && HighSurrogate(s[0]) && LowSurrogate(s[1]) then s[..2] + Escaped(s[2..])
    else EscapeUnit(s[0]) + Escaped(s[1..])
  }

  function Quote(s: Text): Text {
    [QUOTE_MARK] + Escaped(s) + [QUOTE_MARK]
  }

  function ReadEscape(t: Text): Option<(CodeUnit, Text)>
    requires |t| > 0
  {
    if t[0] == LOWER_U then
      if |t| < 5 then None
      else match (HexValue(t[1]), HexValue(t[2]), HexValue(t[3]), HexValue(t[4]))
        case (Some(a), Some(b), Some(c), Some(d)) => Some((((a * 16 + b) * 16 + c) * 16 + d, t[5..]))
        case _ => None
    else if t[0] == QUOTE_MARK || t[0] == BACKSLASH then Some((t[0], t[1..]))
    else if t[0] == 0x62 then Some((0x08, t[1..]))
    else if t[0] == 0x66 then Some((0x0C, t[1..]))
    else if t[0] == 0x6E then Some((0x0A, t[1..]))
    else if t[0] == 0x72 then Some((0x0D, t[1..]))
    else if t[0] == 0x74 then Some((0x09, t[1..]))
    else None
  }

  function Prepend(c: CodeUnit, tail: Option<(Text, Text)>): Option<(Text, Text)> {
    match tail
    case Some((s, rest)) => Some(([c] + s, rest))
    case None => None
  }

  /** Reads up to the closing quotation mark; returns the string and what follows. */
  function ReadString(t: Text): Option<(Text, Text)>
    decreases |t|
  {
    if t == [] then None
    else if t[0] == QUOTE_MARK then Some(([], t[1..]))
    else if t[0] == BACKSLASH then
      if |t| == 1 then None
      else match ReadEscape(t[1..])
        case Some((c, rest)) => if |rest| < |t| then Prepend(c, ReadString(rest)) else None
        case None => None
    else Prepend(t[0], ReadString(t[1..]))
  }

  lemma HexRoundTrip(k: int)
    requires 0 <= k < 16
    ensures HexValue(HexDigit(k)) == Some(k)
  {}

  lemma HexSum(c: CodeUnit)
    ensures 0 <= c / 0x1000 < 16
    ensures ((c / 0x1000 * 16 + c / 0x100 % 16) * 16 + c / 0x10 % 16) * 16 + c % 16 == c
  {
    assert c / 0x100 == c / 0x10 / 0x10 && c / 0x1000 == c / 0x100 / 0x10;
  }

  lemma ReadHex(c: CodeUnit, rest: Text)
    requires |EscapeUnit(c)| == 6
    ensures ReadEscape(EscapeUnit(c)[1..] + rest) == Some((c, rest))
  {
    HexSum(c);
    HexRoundTrip(c / 0x1000);
    HexRoundTrip(c / 0x100 % 16);
    HexRoundTrip(c / 0x10 % 16);
    HexRoundTrip(c % 16);
    var t := EscapeUnit(c)[1..] + rest;
    assert t[5..] == rest;
    assert t[0] == LOWER_U && t[1] == HexDigit(c / 0x1000) && t[2] == HexDigit(c / 0x100 % 16);
    assert t[3] == HexDigit(c / 0x10 % 16) && t[4] == HexDigit(c % 16);
  }

  lemma ReadShort(c: CodeUnit, rest: Text)
    requires |EscapeUnit(c)| == 2
    ensures ReadEscape(EscapeUnit(c)[1..] + rest) == Some((c, rest))
  {
    assert (EscapeUnit(c)[1..] + rest)[1..] == rest;
  }

  lemma ReadThrough(c: CodeUnit, escape: Text, rest: Text)
    requires escape != [] && ReadEscape(escape + rest) == Some((c, rest))
    ensures ReadString([BACKSLASH] + (escape + rest)) == Prepend(c, ReadString(rest))
  {
    assert ([BACKSLASH] + (escape + rest))[1..] == escape + rest;
  }

  lemma ReadEscapedUnit(c: CodeUnit, rest: Text)
    ensures ReadString(EscapeUnit(c) + rest) == Prepend(c, ReadString(rest))
  {
    var e := EscapeUnit(c);
    if |e| == 1 {
      ReadPlainUnit(c, rest);
    } else {
      if |e| == 2 { ReadShort(c, rest); } else { ReadHex(c, rest); }
      assert e + rest == [BACKSLASH] + (e[1..] + rest);
      ReadThrough(c, e[1..], rest);
    }
  }

  lemma ReadPlainUnit(c: CodeUnit, rest: Text)
    requires c != QUOTE_MARK && c != BACKSLASH
    ensures ReadString([c] + rest) == Prepend(c, ReadString(rest))
  {
    assert ([c] + rest)[1..] == rest;
  }

  lemma Associative(a: Text, b: Text, c: Text)
    ensures (a + b) + c == a + (b + c)
  {}

  lemma PairFirst(pair: Text, escaped: Text, rest: Text)
    requires |pair| == 2
    ensures (pair + escaped) + rest == [pair[0]] + ([pair[1]] + (escaped + rest))
  {
    Associative(pair, escaped, rest);
    Associative([pair[0]], [pair[1]], escaped + rest);
    assert pair == [pair[0]] + [pair[1]];
  }

  lemma EscapedFirst(s: Text, rest: Text)
    requires s != []
    ensures if |s| > 1 && HighSurrogate(s[0]) && LowSurrogate(s[1])
            then Escaped(s) + rest == [s[0]] + ([s[1]] + (Escaped(s[2..]) + rest))
            else Escaped(s) + rest == EscapeUnit(s[0]) + (Escaped(s[1..]) + rest)
  {
    if |s| > 1 && HighSurrogate(s[0]) && LowSurrogate(s[1]) {
      PairFirst(s[..2], Escaped(s[2..]), rest);
    } else {
      Associative(EscapeUnit(s[0]), Escaped(s[1..]), rest);
    }
  }

  lemma ReadOne(s: Text, t: Text, rest: Text)
    requires s != [] && ReadString(t) == Some((s[1..], rest))
    ensures ReadString(EscapeUnit(s[0]) + t) == Some((s, rest))
  {
    ReadEscapedUnit(s[0], t);
    assert [s[0]] + s[1..] == s;
  }

  lemma ReadPair(s: Text, t: Text, rest: Text)
    requires |s| > 1 && HighSurrogate(s[0]) && LowSurrogate(s[1]) && ReadString(t) == Some((s[2..], rest))
    ensures ReadString([s[0]] + ([s[1]] + t)) == Some((s, rest))
  {
    ReadPlainUnit(s[0], [s[1]] + t);
    ReadPlainUnit(s[1], t);
    assert [s[0]] + ([s[1]] + s[2..]) == s;
  }

  lemma {:induction false} ReadEscaped(s: Text, rest: Text)
    ensures ReadString(Escaped(s) + ([QUOTE_MARK] + rest)) == Some((s, rest))
  {
    var tail := [QUOTE_MARK] + rest;
    if s == [] {
      assert Escaped(s) + tail == tail && tail[1..] == rest;
    } else {
      EscapedFirst(s, tail);
      if |s| > 1 && HighSurrogate(s[0]) && LowSurrogate(s[1]) {
        ReadEscaped(s[2..], rest);
        ReadPair(s, Escaped(s[2..]) + tail, rest);
      } else {
        ReadEscaped(s[1..], rest);
        ReadOne(s, Escaped(s[1..]) + tail, rest);
      }
    }
  }

  /** Reading back what was quoted restores every string, lone surrogates included. */
  lemma QuoteRoundTrip(s: Text, rest: Text)
    ensures ReadString(Escaped(s) + [QUOTE_MARK] + rest) == Some((s, rest))
  {
    ReadEscaped(s, rest);
    Associative(Escaped(s), [QUOTE_MARK], rest);
  }

  lemma QuoteTail(s: Text, r: Text)
    ensures |Quote(s) + r| > 0 && (Quote(s) + r)[1..] == Escaped(s) + [QUOTE_MARK] + r
  {}

  lemma SameTail(s: Text, t: Text, r: Text, q: Text)
    requires Quote(s) + r == Quote(t) + q
    ensures Escaped(s) + [QUOTE_MARK] + r == Escaped(t) + [QUOTE_MARK] + q
  {
    QuoteTail(s, r);
    QuoteTail(t, q);
  }

  lemma QuotePrefixFree(s: Text, t: Text, r: Text, q: Text)
    requires Quote(s) + r == Quote(t) + q
    ensures s == t && r == q
  {
    SameTail(s, t, r, q);
    QuoteRoundTrip(s, r);
    QuoteRoundTrip(t, q);
  }

  // ----- Numbers: Number::toString of ECMA-262, as JSON.stringify prints them -----

  /** A finite double by its shortest decimal expansion 0.d1...dk * 10^point.
      Both zeros print alike and are one value here. */
  datatype Number = Zero | Finite(negative: bool, digits: seq<int>, point: int) {
    predicate Valid() {
      Finite? ==>
        && digits != []
        && (forall i :: 0 <= i < |digits| ==> 0 <= digits[i] <= 9)
        && digits[0] != 0 && digits[|digits| - 1] != 0
    }
  }

  predicate AllDigits(ds: seq<int>) {
    forall i :: 0 <= i < |ds| ==> 0 <= ds[i] <= 9
  }

  function DigitText(ds: seq<int>): Text
    requires AllDigits(ds)
  {
    seq(|ds|, i requires 0 <= i < |ds| => DIGIT_ZERO + ds[i])
  }

  function Zeros(n: nat): seq<int> { seq(n, _ => 0) }

  function Decimal(n: nat): (ds: seq<int>)
    ensures ds != [] && AllDigits(ds)
  {
    if n < 10 then [n] else Decimal(n / 10) + [n % 10]
  }

  function PointText(whole: seq<int>, fraction: seq<int>): Text
    requires AllDigits(whole) && AllDigits(fraction)
  {
    DigitText(whole) + [DOT] + DigitText(fraction)
  }

  function ExponentText(e: int): Text {
    if e > 0 then [LOWER_E, PLUS] + DigitText(Decimal(e))
    else [LOWER_E, MINUS] + DigitText(Decimal(-e))
  }

  /** Fixed notation up to 21 integer digits and down to 1e-6, exponent notation outside. */
  function Magnitude(ds: seq<int>, n: int): Text
    requires ds != [] && AllDigits(ds)
  {
    var k := |ds|;
    if k <= n <= 21 then DigitText(ds + Zeros(n - k))
    else if 0 < n <= 21 then PointText(ds[..n], ds[n..])
    else if -6 < n <= 0 then PointText([0], Zeros(-n) + ds)
    else if k == 1 then DigitText(ds) + ExponentText(n - 1)
    else PointText(ds[..1], ds[1..]) + ExponentText(n - 1)
  }

  function NumberText(x: Number): Text
    requires x.Valid()
  {
    match x
    case Zero => [DIGIT_ZERO]
    case Finite(negative, digits, point) =>
      if negative then [MINUS] + Magnitude(digits, point) else Magnitude(digits, point)
  }

  // Reader

  function IndexOf(t: Text, c: CodeUnit): (i: nat)
    ensures i <= |t|
    ensures c !in t[..i]
    ensures i < |t| ==> t[i] == c
  {
    if t == [] || t[0] == c then 0
    else
      var j := IndexOf(t[1..], c);
      assert t[..j + 1] == [t[0]] + t[1..][..j];
      j + 1
  }

  function DigitsOf(t: Text): seq<int> {
    seq(|t|, i requires 0 <= i < |t| => t[i] - DIGIT_ZERO)
  }

  function LeadingZeros(ds: seq<int>): (n: nat)
    ensures n <= |ds|
  {
    if ds != [] && ds[0] == 0 then 1 + LeadingZeros(ds[1..]) else 0
  }

  function WithoutTrailingZeros(ds: seq<int>): seq<int> {
    if ds != [] && ds[|ds| - 1] == 0 then WithoutTrailingZeros(ds[..|ds| - 1]) else ds
  }

  function DecimalValue(ds: seq<int>): int {
    if ds == [] then 0 else 10 * DecimalValue(ds[..|ds| - 1]) + ds[|ds| - 1]
  }

  function ReadExponent(t: Text): int {
    if t == [] then 0
    else if t[0] == MINUS then -DecimalValue(DigitsOf(t[1..]))
    else DecimalValue(DigitsOf(t[1..]))
  }

  function ReadMantissa(t: Text): (seq<int>, int) {
    var d := IndexOf(t, DOT);
    if d == |t| then (DigitsOf(t), d) else (DigitsOf(t[..d]) + DigitsOf(t[d + 1..]), d)
  }

  function Normalized(raw: seq<int>, point: int): (seq<int>, int) {
    var lead := LeadingZeros(raw);
    (WithoutTrailingZeros(raw[lead..]), point - lead)
  }

  /** The digits and decimal point that a printed magnitude denotes. */
  function ReadMagnitude(t: Text): (seq<int>, int) {
    var e := IndexOf(t, LOWER_E);
    var (raw, point) := ReadMantissa(t[..e]);
    Normalized(raw, if e == |t| then point else point + ReadExponent(t[e + 1..]))
  }

  lemma {:induction false} IndexOfIs(t: Text, c: CodeUnit, i: nat)
    requires i <= |t|
    requires forall j :: 0 <= j < i ==> t[j] != c
    requires i < |t| ==> t[i] == c
    ensures IndexOf(t, c) == i
  {
    if i > 0 { IndexOfIs(t[1..], c, i - 1); }
  }

  lemma DigitTextFacts(ds: seq<int>)
    requires AllDigits(ds)
    ensures DigitsOf(DigitText(ds)) == ds
    ensures LOWER_E !in DigitText(ds) && DOT !in DigitText(ds)
  {}

  lemma {:induction false} LeadingZerosOf(n: nat, ds: seq<int>)
    requires ds != [] && ds[0] != 0
    ensures LeadingZeros(Zeros(n) + ds) == n
  {
    if n == 0 {
      assert Zeros(0) + ds == ds;
    } else {
      LeadingZerosOf(n - 1, ds);
      assert (Zeros(n) + ds)[1..] == Zeros(n - 1) + ds;
    }
  }

  lemma {:induction false} TrailingZerosOf(n: nat, ds: seq<int>)
    requires ds != [] && ds[|ds| - 1] != 0
    ensures WithoutTrailingZeros(ds + Zeros(n)) == ds
  {
    if n == 0 {
      assert ds + Zeros(0) == ds;
    } else {
      TrailingZerosOf(n - 1, ds);
      var s := ds + Zeros(n);
      assert s[..|s| - 1] == ds + Zeros(n - 1);
    }
  }

  lemma {:induction false} DecimalRoundTrip(n: nat)
    ensures DecimalValue(Decimal(n)) == n
  {
    if n >= 10 {
      DecimalRoundTrip(n / 10);
      var ds := Decimal(n);
      assert ds[..|ds| - 1] == Decimal(n / 10);
    } else {
      assert Decimal(n)[..0] == [];
    }
  }

  lemma ReadWhole(ds: seq<int>)
    requires AllDigits(ds)
    ensures ReadMantissa(DigitText(ds)) == (ds, |ds|)
    ensures LOWER_E !in DigitText(ds)
  {
    IndexOfIs(DigitText(ds), DOT, |ds|);
    DigitTextFacts(ds);
  }

  lemma ReadPoint(whole: seq<int>, fraction: seq<int>)
    requires AllDigits(whole) && AllDigits(fraction)
    ensures ReadMantissa(PointText(whole, fraction)) == (whole + fraction, |whole|)
    ensures LOWER_E !in PointText(whole, fraction)
  {
    var t := PointText(whole, fraction);
    IndexOfIs(t, DOT, |whole|);
    assert t[..|whole|] == DigitText(whole);
    assert t[|whole| + 1..] == DigitText(fraction);
    DigitTextFacts(whole);
    DigitTextFacts(fraction);
  }

  lemma ReadPlain(t: Text)
    requires LOWER_E !in t
    ensures ReadMagnitude(t) == Normalized(ReadMantissa(t).0, ReadMantissa(t).1)
  {
    IndexOfIs(t, LOWER_E, |t|);
    assert t[..|t|] == t;
  }

  lemma ReadExponentText(e: int)
    ensures ReadExponent(ExponentText(e)[1..]) == e
  {
    var size: nat := if e > 0 then e else -e;
    assert ExponentText(e)[1..][1..] == DigitText(Decimal(size));
    DigitTextFacts(Decimal(size));
    DecimalRoundTrip(size);
  }

  lemma ReadScaled(mantissa: Text, e: int)
    requires LOWER_E !in mantissa
    ensures ReadMagnitude(mantissa + ExponentText(e)) ==
            Normalized(ReadMantissa(mantissa).0, ReadMantissa(mantissa).1 + e)
  {
    var exponent := ExponentText(e)[1..];
    assert mantissa + ExponentText(e) == mantissa + [LOWER_E] + exponent;
    ReadAtExponent(mantissa, exponent);
    ReadExponentText(e);
  }

  lemma ReadAtExponent(mantissa: Text, exponent: Text)
    requires LOWER_E !in mantissa
    ensures ReadMagnitude(mantissa + [LOWER_E] + exponent)
         == Normalized(ReadMantissa(mantissa).0, ReadMantissa(mantissa).1 + ReadExponent(exponent))
  {
    var t := mantissa + [LOWER_E] + exponent;
    IndexOfIs(t, LOWER_E, |mantissa|);
    assert t[..|mantissa|] == mantissa;
    assert t[|mantissa| + 1..] == exponent;
  }

  lemma NormalizedPadding(n: nat, ds: seq<int>, m: nat, point: int)
    requires ds != [] && ds[0] != 0 && ds[|ds| - 1] != 0
    ensures Normalized(Zeros(n) + ds + Zeros(m), point) == (ds, point - n)
  {
    var raw := Zeros(n) + ds + Zeros(m);
    assert raw == Zeros(n) + (ds + Zeros(m));
    LeadingZerosOf(n, ds + Zeros(m));
    assert raw[n..] == ds + Zeros(m);
    TrailingZerosOf(m, ds);
  }

  lemma ReadWholeText(ds: seq<int>)
    requires AllDigits(ds)
    ensures ReadMagnitude(DigitText(ds)) == Normalized(ds, |ds|)
  {
    ReadWhole(ds);
    ReadPlain(DigitText(ds));
  }

  lemma NormalizedWhole(ds: seq<int>, n: nat)
    requires ds != [] && ds[0] != 0 && ds[|ds| - 1] != 0 && |ds| <= n
    ensures Normalized(ds + Zeros(n - |ds|), n) == (ds, n)
  {
    NormalizedPadding(0, ds, n - |ds|, n);
    assert Zeros(0) + ds == ds;
  }

  lemma WholeRoundTrip(ds: seq<int>, n: int)
    requires Finite(false, ds, n).Valid()
    requires |ds| <= n
    ensures ReadMagnitude(DigitText(ds + Zeros(n - |ds|))) == (ds, n)
  {
    ReadWholeText(ds + Zeros(n - |ds|));
    NormalizedWhole(ds, n);
  }

  lemma ReadPointText(whole: seq<int>, fraction: seq<int>)
    requires AllDigits(whole) && AllDigits(fraction)
    ensures ReadMagnitude(PointText(whole, fraction)) == Normalized(whole + fraction, |whole|)
  {
    ReadPoint(whole, fraction);
    ReadPlain(PointText(whole, fraction));
  }

  lemma NormalizedAsIs(ds: seq<int>, point: int)
    requires ds != [] && ds[0] != 0 && ds[|ds| - 1] != 0
    ensures Normalized(ds, point) == (ds, point)
  {
    NormalizedPadding(0, ds, 0, point);
    assert Zeros(0) + ds + Zeros(0) == ds;
  }

  lemma NormalizedHalves(ds: seq<int>, n: int)
    requires ds != [] && ds[0] != 0 && ds[|ds| - 1] != 0 && 0 < n < |ds|
    ensures Normalized(ds[..n] + ds[n..], |ds[..n]|) == (ds, n)
  {
    assert ds[..n] + ds[n..] == ds;
    NormalizedAsIs(ds, n);
  }

  lemma PointRoundTrip(ds: seq<int>, n: int)
    requires Finite(false, ds, n).Valid()
    requires 0 < n < |ds|
    ensures ReadMagnitude(PointText(ds[..n], ds[n..])) == (ds, n)
  {
    ReadPointText(ds[..n], ds[n..]);
    NormalizedHalves(ds, n);
  }

  lemma OneMoreZero(n: nat, ds: seq<int>)
    ensures Zeros(n + 1) + ds + Zeros(0) == [0] + (Zeros(n) + ds)
  {}

  lemma NormalizedFraction(ds: seq<int>, zeros: nat)
    requires ds != [] && ds[0] != 0 && ds[|ds| - 1] != 0
    ensures Normalized([0] + (Zeros(zeros) + ds), 1) == (ds, 0 - zeros)
  {
    NormalizedPadding(1 + zeros, ds, 0, 1);
    OneMoreZero(zeros, ds);
  }

  lemma FractionRoundTrip(ds: seq<int>, n: int)
    requires Finite(false, ds, n).Valid()
    requires n <= 0
    ensures ReadMagnitude(PointText([0], Zeros(-n) + ds)) == (ds, n)
  {
    ReadPointText([0], Zeros(-n) + ds);
    NormalizedFraction(ds, -n);
  }

  lemma ExponentPoint(ds: seq<int>, n: int)
    requires Finite(false, ds, n).Valid() && |ds| > 1
    ensures ReadMagnitude(PointText(ds[..1], ds[1..]) + ExponentText(n - 1)) == (ds, n)
  {
    ReadPoint(ds[..1], ds[1..]);
    ReadScaled(PointText(ds[..1], ds[1..]), n - 1);
    assert ds[..1] + ds[1..] == ds;
    NormalizedAsIs(ds, n);
  }

  lemma ExponentRoundTrip(ds: seq<int>, n: int)
    requires Finite(false, ds, n).Valid()
    ensures |ds| == 1 ==> ReadMagnitude(DigitText(ds) + ExponentText(n - 1)) == (ds, n)
    ensures |ds| > 1 ==> ReadMagnitude(PointText(ds[..1], ds[1..]) + ExponentText(n - 1)) == (ds, n)
  {
    if |ds| == 1 {
      NormalizedAsIs(ds, n);
      ReadWhole(ds);
      ReadScaled(DigitText(ds), n - 1);
    } else {
      ExponentPoint(ds, n);
    }
  }

  /** Reading a printed magnitude restores its digits and its decimal point. */
  lemma MagnitudeRoundTrip(ds: seq<int>, n: int)
    requires Finite(false, ds, n).Valid()
    ensures ReadMagnitude(Magnitude(ds, n)) == (ds, n)
  {
    if |ds| <= n <= 21 {
      WholeRoundTrip(ds, n);
    } else if 0 < n <= 21 {
      PointRoundTrip(ds, n);
    } else if -6 < n <= 0 {
      FractionRoundTrip(ds, n);
    } else {
      ExponentRoundTrip(ds, n);
    }
  }

  predicate NumberUnit(c: CodeUnit) {
    DIGIT_ZERO <= c < 0x3A || c == MINUS || c == PLUS || c == DOT || c == LOWER_E
  }

  predicate NumberUnits(t: Text) {
    forall i :: 0 <= i < |t| ==> NumberUnit(t[i])
  }

  lemma ExponentUnits(e: int)
    ensures NumberUnits(ExponentText(e))
  {}

  lemma PointUnits(whole: seq<int>, fraction: seq<int>)
    requires AllDigits(whole) && AllDigits(fraction)
    ensures NumberUnits(PointText(whole, fraction))
  {}

  lemma MagnitudeUnits(ds: seq<int>, n: int)
    requires ds != [] && AllDigits(ds)
    ensures NumberUnits(Magnitude(ds, n))
    ensures |Magnitude(ds, n)| > 0 && DIGIT_ZERO <= Magnitude(ds, n)[0] < 0x3A
  {
    ExponentUnits(n - 1);
    if 0 < n < |ds| && n <= 21 {
      PointUnits(ds[..n], ds[n..]);
    } else if -6 < n <= 0 {
      PointUnits([0], Zeros(-n) + ds);
    } else if |ds| > 1 {
      PointUnits(ds[..1], ds[1..]);
    }
  }

  lemma NumberTextUnits(x: Number)
    requires x.Valid()
    ensures NumberText(x) != []
    ensures NumberUnits(NumberText(x))
    ensures x == Zero || (x.negative <==> NumberText(x)[0] == MINUS)
    ensures DIGIT_ZERO <= NumberText(x)[0] < 0x3A || NumberText(x)[0] == MINUS
  {
    if x.Finite? { MagnitudeUnits(x.digits, x.point); }
  }

  /** Equal number texts denote equal numbers. */
  lemma NumberTextInjective(x: Number, y: Number)
    requires x.Valid() && y.Valid()
    requires NumberText(x) == NumberText(y)
    ensures x == y
  {
    NumberTextUnits(x);
    NumberTextUnits(y);
    ZeroTextUnique(x);
    ZeroTextUnique(y);
    if x.Finite? && y.Finite? { FiniteTextInjective(x, y); }
  }

  lemma MagnitudeInjective(ds: seq<int>, n: int, es: seq<int>, m: int)
    requires Finite(false, ds, n).Valid() && Finite(false, es, m).Valid()
    requires Magnitude(ds, n) == Magnitude(es, m)
    ensures ds == es && n == m
  {
    MagnitudeRoundTrip(ds, n);
    MagnitudeRoundTrip(es, m);
  }

  lemma FiniteTextInjective(x: Number, y: Number)
    requires x.Finite? && y.Finite? && x.Valid() && y.Valid()
    requires NumberText(x) == NumberText(y)
    ensures x == y
  {
    var a, b := Magnitude(x.digits, x.point), Magnitude(y.digits, y.point);
    MagnitudeUnits(x.digits, x.point);
    MagnitudeUnits(y.digits, y.point);
    if x.negative && y.negative {
      assert NumberText(x)[1..] == a && NumberText(y)[1..] == b;
    }
    assert x.negative == y.negative && a == b;
    MagnitudeInjective(x.digits, x.point, y.digits, y.point);
  }

  lemma ZeroTextUnique(x: Number)
    requires x.Valid()
    ensures NumberText(x) == NumberText(Zero) <==> x == Zero
  {
    if x.Finite? && !x.negative {
      MagnitudeRoundTrip(x.digits, x.point);
      assert DigitText([0]) == [DIGIT_ZERO];
      ReadWhole([0]);
      ReadPlain([DIGIT_ZERO]);
      assert ReadMagnitude([DIGIT_ZERO]).0 == [];
    }
  }

  /** How far a reader of number characters gets. */
  function NumberSpan(t: Text): nat {
    if t == [] || !NumberUnit(t[0]) then 0 else 1 + NumberSpan(t[1..])
  }

  lemma {:induction false} NumberSpanOf(a: Text, r: Text)
    requires NumberUnits(a)
    requires r != [] ==> !NumberUnit(r[0])
    ensures NumberSpan(a + r) == |a|
  {
    if a == [] {
      assert a + r == r;
    } else {
      assert (a + r)[1..] == a[1..] + r;
      NumberSpanOf(a[1..], r);
    }
  }

  /** A number text is read maximally, so what follows it is determined too. */
  lemma NumberTextPrefixFree(x: Number, y: Number, r: Text, q: Text)
    requires x.Valid() && y.Valid()
    requires NumberText(x) + r == NumberText(y) + q
    requires r != [] ==> !NumberUnit(r[0])
    requires q != [] ==> !NumberUnit(q[0])
    ensures x == y && r == q
  {
    NumberTextUnits(x);
    NumberTextUnits(y);
    var a, b := NumberText(x), NumberText(y);
    NumberSpanOf(a, r);
    NumberSpanOf(b, q);
    assert a == (a + r)[..|a|] == (b + q)[..|b|] == b;
    assert r == (a + r)[|a|..] == (b + q)[|b|..] == q;
    NumberTextInjective(x, y);
  }
}
