/** The canonical printer that decides whether two request bodies are the same request. */
module CanonicalJson {
  import opened JsonText
  import opened Sorting

  const COMMA: CodeUnit := 0x2C
  const COLON: CodeUnit := 0x3A
  const OPEN_LIST: CodeUnit := 0x5B
  const CLOSE_LIST: CodeUnit := 0x5D
  const OPEN_OBJECT: CodeUnit := 0x7B
  const CLOSE_OBJECT: CodeUnit := 0x7D
  const NULL_TEXT: Text := [0x6E, 0x75, 0x6C, 0x6C]
  const TRUE_TEXT: Text := [0x74, 0x72, 0x75, 0x65]
  const FALSE_TEXT: Text := [0x66, 0x61, 0x6C, 0x73, 0x65]

  /** What `JSON.parse` returns. Object members keep the order they arrived in. */
  datatype Json =
    | Null
    | Bool(b: bool)
    | Num(number: Number)
    | Str(text: Text)
    | Arr(items: seq<Json>)
    | Obj(members: seq<Member>)

  datatype Member = Member(key: Text, value: Json)

  function Keys(members: seq<Member>): (keys: seq<Text>)
    ensures |keys| == |members|
  {
    seq(|members|, i requires 0 <= i < |members| => members[i].key)
  }

  /** Numbers are finite and no object repeats a key. */
  predicate Valid(v: Json) {
    match v
    case Num(n) => n.Valid()
    case Arr(items) => forall i :: 0 <= i < |items| ==> Valid(items[i])
    case Obj(members) =>
      && (forall i, j :: 0 <= i < j < |members| ==> members[i].key != members[j].key)
      && (forall i :: 0 <= i < |members| ==> Valid(members[i].value))
    case _ => true
  }

  function Lookup(members: seq<Member>, key: Text): (v: Json)
    requires key in Keys(members)
    ensures exists i :: 0 <= i < |members| && members[i] == Member(key, v)
  {
    if members[0].key == key then members[0].value
    else
      assert Keys(members)[1..] == Keys(members[1..]);
      var v := Lookup(members[1..], key);
      assert exists i :: 0 <= i < |members[1..]| && members[1..][i] == Member(key, v) && members[i + 1] == Member(key, v);
      v
  }

  /** The order of `Array.prototype.sort` on keys: by UTF-16 code units
      (section 3.2.3 of RFC 8785). */
  predicate KeyLess(a: Text, b: Text) {
    b != [] && (a == [] || a[0] < b[0] || (a[0] == b[0] && KeyLess(a[1..], b[1..])))
  }

  function CanonicalJson(v: Json): Text
    requires Valid(v)
    decreases v, 1
  {
    match v
    case Null => NULL_TEXT
    case Bool(b) => if b then TRUE_TEXT else FALSE_TEXT
    case Num(n) => NumberText(n)
    case Str(s) => Quote(s)
    case Arr(items) => [OPEN_LIST] + CanonicalItems(items) + [CLOSE_LIST]
    case Obj(members) =>
      SortMembers(Keys(members), KeyLess);
      [OPEN_OBJECT] + CanonicalMembers(members, Sort(Keys(members), KeyLess)) + [CLOSE_OBJECT]
  }

  function CanonicalItems(items: seq<Json>): Text
    requires forall i :: 0 <= i < |items| ==> Valid(items[i])
    decreases items, 0
  {
    if items == [] then []
    else if |items| == 1 then CanonicalJson(items[0])
    else CanonicalJson(items[0]) + [COMMA] + CanonicalItems(items[1..])
  }

  function CanonicalMember(members: seq<Member>, key: Text): Text
    requires forall i :: 0 <= i < |members| ==> Valid(members[i].value)
    requires key in Keys(members)
    decreases members, 0, 0
  {
    Quote(key) + [COLON] + CanonicalJson(Lookup(members, key))
  }

  function CanonicalMembers(members: seq<Member>, keys: seq<Text>): Text
    requires forall i :: 0 <= i < |members| ==> Valid(members[i].value)
    requires forall k :: k in keys ==> k in Keys(members)
    decreases members, 0, 1 + |keys|
  {
    if keys == [] then []
    else if |keys| == 1 then CanonicalMember(members, keys[0])
    else CanonicalMember(members, keys[0]) + [COMMA] + CanonicalMembers(members, keys[1..])
  }

  /** Equal up to the order of object members. */
  ghost predicate Equivalent(a: Json, b: Json)
    decreases a
  {
    match (a, b)
    case (Arr(x), Arr(y)) =>
      |x| == |y| && forall i :: 0 <= i < |x| ==> Equivalent(x[i], y[i])
    case (Obj(x), Obj(y)) =>
      && (forall k :: k in Keys(x) <==> k in Keys(y))
      && (forall k :: k in Keys(x) ==> Equivalent(Lookup(x, k), Lookup(y, k)))
    case _ => a == b
  }

  // ----- Key order -----

  lemma {:induction false} KeyLessIrreflexive(a: Text)
    ensures !KeyLess(a, a)
  {
    if a != [] { KeyLessIrreflexive(a[1..]); }
  }

  lemma {:induction false} KeyLessTransitive(a: Text, b: Text, c: Text)
    requires KeyLess(a, b) && KeyLess(b, c)
    ensures KeyLess(a, c)
  {
    if a != [] && a[0] == b[0] == c[0] { KeyLessTransitive(a[1..], b[1..], c[1..]); }
  }

  lemma {:induction false} KeyLessTotal(a: Text, b: Text)
    ensures a == b || KeyLess(a, b) || KeyLess(b, a)
  {
    if a != [] && b != [] && a[0] == b[0] {
      KeyLessTotal(a[1..], b[1..]);
      assert a == [a[0]] + a[1..] && b == [b[0]] + b[1..];
    }
  }

  lemma KeyOrder()
    ensures StrictTotalOrder(KeyLess)
  {
    forall a ensures !KeyLess(a, a) { KeyLessIrreflexive(a); }
    forall a, b, c | KeyLess(a, b) && KeyLess(b, c) ensures KeyLess(a, c) { KeyLessTransitive(a, b, c); }
    forall a, b ensures a == b || KeyLess(a, b) || KeyLess(b, a) { KeyLessTotal(a, b); }
  }

  lemma SortedKeys(members: seq<Member>)
    requires Valid(Obj(members))
    ensures Ascending(Sort(Keys(members), KeyLess), KeyLess)
    ensures forall k :: k in Sort(Keys(members), KeyLess) <==> k in Keys(members)
  {
    KeyOrder();
    SortAscending(Keys(members), KeyLess);
    SortMembers(Keys(members), KeyLess);
  }

  // ----- The printer is injective up to member order -----

  /** A value is followed by nothing, a separator or a closing bracket. */
  predicate Ends(r: Text) {
    r != [] ==> r[0] == COMMA || r[0] == CLOSE_LIST || r[0] == CLOSE_OBJECT
  }

  datatype Kind = NullKind | TrueKind | FalseKind | NumberKind | StringKind | ListKind | ObjectKind

  function KindOf(v: Json): Kind {
    match v
    case Null => NullKind
    case Bool(b) => if b then TrueKind else FalseKind
    case Num(_) => NumberKind
    case Str(_) => StringKind
    case Arr(_) => ListKind
    case Obj(_) => ObjectKind
  }

  function KindOfUnit(c: CodeUnit): Kind {
    if c == 0x6E then NullKind
    else if c == 0x74 then TrueKind
    else if c == 0x66 then FalseKind
    else if c == QUOTE_MARK then StringKind
    else if c == OPEN_LIST then ListKind
    else if c == OPEN_OBJECT then ObjectKind
    else NumberKind
  }

  lemma FirstUnit(v: Json)
    requires Valid(v)
    ensures CanonicalJson(v) != []
    ensures KindOfUnit(CanonicalJson(v)[0]) == KindOf(v)
    ensures CanonicalJson(v)[0] != CLOSE_LIST
  {
    if v.Num? { NumberTextUnits(v.number); }
  }

  lemma SameKind(a: Json, b: Json, r: Text, q: Text)
    requires Valid(a) && Valid(b)
    requires CanonicalJson(a) + r == CanonicalJson(b) + q
    ensures KindOf(a) == KindOf(b)
  {
    FirstUnit(a);
    FirstUnit(b);
    assert CanonicalJson(a)[0] == (CanonicalJson(a) + r)[0] == (CanonicalJson(b) + q)[0];
  }

  lemma CancelFront(c: CodeUnit, a: Text, b: Text)
    requires [c] + a == [c] + b
    ensures a == b
  {
    assert a == ([c] + a)[1..] == ([c] + b)[1..] == b;
  }

  /** Peels the brackets of a list or an object off both sides. */
  lemma Unwrap(open: CodeUnit, a: Text, b: Text, close: CodeUnit, r: Text, q: Text)
    requires [open] + a + [close] + r == [open] + b + [close] + q
    ensures a + ([close] + r) == b + ([close] + q)
  {
    assert [open] + a + [close] + r == [open] + (a + ([close] + r));
    assert [open] + b + [close] + q == [open] + (b + ([close] + q));
    CancelFront(open, a + ([close] + r), b + ([close] + q));
  }

  /** Texts of valid values are prefix-free once what follows is a separator:
      equal texts come from values equal up to member order. */
  lemma {:induction false} PrintsApart(a: Json, b: Json, r: Text, q: Text)
    requires Valid(a) && Valid(b)
    requires CanonicalJson(a) + r == CanonicalJson(b) + q
    requires Ends(r) && Ends(q)
    ensures Equivalent(a, b) && r == q
    decreases a, 1
  {
    SameKind(a, b, r, q);
    match a
    case Num(n) => NumberTextPrefixFree(n, b.number, r, q);
    case Str(s) => QuotePrefixFree(s, b.text, r, q);
    case Arr(items) =>
      Unwrap(OPEN_LIST, CanonicalItems(items), CanonicalItems(b.items), CLOSE_LIST, r, q);
      ItemsPrintApart(items, b.items, r, q);
    case Obj(members) =>
      SortedKeys(members);
      SortedKeys(b.members);
      var ks, ls := Sort(Keys(members), KeyLess), Sort(Keys(b.members), KeyLess);
      Unwrap(OPEN_OBJECT, CanonicalMembers(members, ks), CanonicalMembers(b.members, ls), CLOSE_OBJECT, r, q);
      MembersPrintApart(members, b.members, ks, ls, r, q);
    case _ =>
      assert r == (CanonicalJson(a) + r)[|CanonicalJson(a)|..];
      assert q == (CanonicalJson(b) + q)[|CanonicalJson(b)|..];
  }

  lemma Regroup(a: Text, c: CodeUnit, b: Text, tail: Text)
    ensures a + [c] + b + tail == a + ([c] + (b + tail))
  {}

  /** The text after the first list element, closing bracket included. */
  function AfterFirstItem(x: seq<Json>, tail: Text): Text
    requires x != [] && forall i :: 0 <= i < |x| ==> Valid(x[i])
  {
    if |x| == 1 then [CLOSE_LIST] + tail
    else [COMMA] + (CanonicalItems(x[1..]) + ([CLOSE_LIST] + tail))
  }

  lemma ItemsStep(x: seq<Json>)
    requires x != [] && forall i :: 0 <= i < |x| ==> Valid(x[i])
    ensures |x| == 1 ==> CanonicalItems(x) == CanonicalJson(x[0])
    ensures |x| > 1 ==> CanonicalItems(x) == CanonicalJson(x[0]) + [COMMA] + CanonicalItems(x[1..])
  {}

  lemma ManyItemsSplit(x: seq<Json>, tail: Text)
    requires |x| > 1 && forall i :: 0 <= i < |x| ==> Valid(x[i])
    ensures CanonicalItems(x) + tail == CanonicalJson(x[0]) + ([COMMA] + (CanonicalItems(x[1..]) + tail))
  {
    ItemsStep(x);
    RegroupFrom(CanonicalItems(x), CanonicalJson(x[0]), CanonicalItems(x[1..]), tail);
  }

  lemma RegroupFrom(whole: Text, first: Text, rest: Text, tail: Text)
    requires whole == first + [COMMA] + rest
    ensures whole + tail == first + ([COMMA] + (rest + tail))
  {
    Regroup(first, COMMA, rest, tail);
  }

  lemma ItemsSplit(x: seq<Json>, tail: Text)
    requires x != [] && forall i :: 0 <= i < |x| ==> Valid(x[i])
    ensures CanonicalItems(x) + ([CLOSE_LIST] + tail) == CanonicalJson(x[0]) + AfterFirstItem(x, tail)
  {
    if |x| > 1 { ManyItemsSplit(x, [CLOSE_LIST] + tail); } else { ItemsStep(x); }
  }

  lemma {:induction false} ItemsPrintApart(x: seq<Json>, y: seq<Json>, r: Text, q: Text)
    requires forall i :: 0 <= i < |x| ==> Valid(x[i])
    requires forall i :: 0 <= i < |y| ==> Valid(y[i])
    requires CanonicalItems(x) + ([CLOSE_LIST] + r) == CanonicalItems(y) + ([CLOSE_LIST] + q)
    ensures |x| == |y| && (forall i :: 0 <= i < |x| ==> Equivalent(x[i], y[i]))
    ensures r == q
    decreases x, 0
  {
    EmptyListApart(x, r);
    EmptyListApart(y, q);
    if x == [] {
      assert CanonicalItems(x) + ([CLOSE_LIST] + r) == [CLOSE_LIST] + r;
      assert CanonicalItems(y) + ([CLOSE_LIST] + q) == [CLOSE_LIST] + q;
      CancelFront(CLOSE_LIST, r, q);
    } else {
      ItemsSplit(x, r);
      ItemsSplit(y, q);
      PrintsApart(x[0], y[0], AfterFirstItem(x, r), AfterFirstItem(y, q));
      assert AfterFirstItem(x, r)[0] == AfterFirstItem(y, q)[0];
      if |x| == 1 {
        CancelFront(CLOSE_LIST, r, q);
      } else {
        CancelFront(COMMA, CanonicalItems(x[1..]) + ([CLOSE_LIST] + r), CanonicalItems(y[1..]) + ([CLOSE_LIST] + q));
        ItemsPrintApart(x[1..], y[1..], r, q);
        assert forall i :: 1 <= i < |x| ==> x[i] == x[1..][i - 1] && y[i] == y[1..][i - 1];
      }
    }
  }

  lemma EmptyListApart(x: seq<Json>, r: Text)
    requires forall i :: 0 <= i < |x| ==> Valid(x[i])
    ensures x == [] <==> (CanonicalItems(x) + ([CLOSE_LIST] + r))[0] == CLOSE_LIST
  {
    if x != [] { FirstUnit(x[0]); }
  }

  /** The text after the first object member, closing bracket included. */
  function AfterFirstMember(m: seq<Member>, ks: seq<Text>, tail: Text): Text
    requires forall i :: 0 <= i < |m| ==> Valid(m[i].value)
    requires ks != [] && forall k :: k in ks ==> k in Keys(m)
  {
    if |ks| == 1 then [CLOSE_OBJECT] + tail
    else [COMMA] + (CanonicalMembers(m, ks[1..]) + ([CLOSE_OBJECT] + tail))
  }

  lemma MembersSplit(m: seq<Member>, ks: seq<Text>, tail: Text)
    requires forall i :: 0 <= i < |m| ==> Valid(m[i].value)
    requires ks != [] && forall k :: k in ks ==> k in Keys(m)
    ensures CanonicalMembers(m, ks) + ([CLOSE_OBJECT] + tail) ==
            Quote(ks[0]) + ([COLON] + (CanonicalJson(Lookup(m, ks[0])) + AfterFirstMember(m, ks, tail)))
  {
    if |ks| > 1 {
      Regroup(CanonicalMember(m, ks[0]), COMMA, CanonicalMembers(m, ks[1..]), [CLOSE_OBJECT] + tail);
    }
    Regroup(Quote(ks[0]), COLON, CanonicalJson(Lookup(m, ks[0])), AfterFirstMember(m, ks, tail));
  }

  lemma KeyedApart(k: Text, l: Text, r: Text, q: Text)
    requires Quote(k) + ([COLON] + r) == Quote(l) + ([COLON] + q)
    ensures k == l && r == q
  {
    QuotePrefixFree(k, l, [COLON] + r, [COLON] + q);
    CancelFront(COLON, r, q);
  }

  lemma EmptyObjectApart(m: seq<Member>, ks: seq<Text>, r: Text)
    requires forall i :: 0 <= i < |m| ==> Valid(m[i].value)
    requires forall k :: k in ks ==> k in Keys(m)
    ensures ks == [] <==> (CanonicalMembers(m, ks) + ([CLOSE_OBJECT] + r))[0] == CLOSE_OBJECT
  {}

  /** The first member comes off both sides. */
  lemma {:induction false} FirstMembersApart(m: seq<Member>, n: seq<Member>, ks: seq<Text>, ls: seq<Text>, r: Text, q: Text)
    requires forall i :: 0 <= i < |m| ==> Valid(m[i].value)
    requires forall i :: 0 <= i < |n| ==> Valid(n[i].value)
    requires ks != [] && forall k :: k in ks ==> k in Keys(m)
    requires ls != [] && forall k :: k in ls ==> k in Keys(n)
    requires CanonicalMembers(m, ks) + ([CLOSE_OBJECT] + r) == CanonicalMembers(n, ls) + ([CLOSE_OBJECT] + q)
    ensures ks[0] == ls[0] && Equivalent(Lookup(m, ks[0]), Lookup(n, ls[0]))
    ensures AfterFirstMember(m, ks, r) == AfterFirstMember(n, ls, q)
    decreases m, 0, 0
  {
    MembersSplit(m, ks, r);
    MembersSplit(n, ls, q);
    var xs, ys := AfterFirstMember(m, ks, r), AfterFirstMember(n, ls, q);
    var a, b := Lookup(m, ks[0]), Lookup(n, ls[0]);
    KeyedApart(ks[0], ls[0], CanonicalJson(a) + xs, CanonicalJson(b) + ys);
    PrintsApart(a, b, xs, ys);
  }

  lemma {:induction false} MembersPrintApart(m: seq<Member>, n: seq<Member>, ks: seq<Text>, ls: seq<Text>, r: Text, q: Text)
    requires forall i :: 0 <= i < |m| ==> Valid(m[i].value)
    requires forall i :: 0 <= i < |n| ==> Valid(n[i].value)
    requires forall k :: k in ks ==> k in Keys(m)
    requires forall k :: k in ls ==> k in Keys(n)
    requires CanonicalMembers(m, ks) + ([CLOSE_OBJECT] + r) == CanonicalMembers(n, ls) + ([CLOSE_OBJECT] + q)
    ensures ks == ls && r == q
    ensures forall k :: k in ks ==> Equivalent(Lookup(m, k), Lookup(n, k))
    decreases m, 0, |ks|
  {
    EmptyObjectApart(m, ks, r);
    EmptyObjectApart(n, ls, q);
    if ks == [] {
      assert CanonicalMembers(m, ks) + ([CLOSE_OBJECT] + r) == [CLOSE_OBJECT] + r;
      assert CanonicalMembers(n, ls) + ([CLOSE_OBJECT] + q) == [CLOSE_OBJECT] + q;
      CancelFront(CLOSE_OBJECT, r, q);
    } else {
      FirstMembersApart(m, n, ks, ls, r, q);
      assert AfterFirstMember(m, ks, r)[0] == AfterFirstMember(n, ls, q)[0];
      if |ks| == 1 {
        CancelFront(CLOSE_OBJECT, r, q);
      } else {
        CancelFront(COMMA, CanonicalMembers(m, ks[1..]) + ([CLOSE_OBJECT] + r), CanonicalMembers(n, ls[1..]) + ([CLOSE_OBJECT] + q));
        MembersPrintApart(m, n, ks[1..], ls[1..], r, q);
        assert ks == [ks[0]] + ks[1..] && ls == [ls[0]] + ls[1..];
      }
    }
  }

  // ----- The printer ignores member order -----

  lemma {:induction false} EquivalentPrintAlike(a: Json, b: Json)
    requires Valid(a) && Valid(b)
    requires Equivalent(a, b)
    ensures CanonicalJson(a) == CanonicalJson(b)
    decreases a, 1
  {
    match (a, b)
    case (Arr(x), Arr(y)) => ItemsPrintAlike(x, y);
    case (Obj(x), Obj(y)) =>
      SortedKeys(x);
      SortedKeys(y);
      KeyOrder();
      AscendingUnique(Sort(Keys(x), KeyLess), Sort(Keys(y), KeyLess), KeyLess);
      MembersPrintAlike(x, y, Sort(Keys(x), KeyLess));
    case _ =>
  }

  lemma {:induction false} ItemsPrintAlike(x: seq<Json>, y: seq<Json>)
    requires |x| == |y|
    requires forall i :: 0 <= i < |x| ==> Valid(x[i]) && Valid(y[i]) && Equivalent(x[i], y[i])
    ensures CanonicalItems(x) == CanonicalItems(y)
    decreases x, 0
  {
    if x != [] {
      EquivalentPrintAlike(x[0], y[0]);
      ItemsPrintAlike(x[1..], y[1..]);
    }
  }

  lemma {:induction false} MembersPrintAlike(m: seq<Member>, n: seq<Member>, ks: seq<Text>)
    requires forall i :: 0 <= i < |m| ==> Valid(m[i].value)
    requires forall i :: 0 <= i < |n| ==> Valid(n[i].value)
    requires forall k :: k in ks ==> k in Keys(m) && k in Keys(n)
    requires forall k :: k in ks ==> Equivalent(Lookup(m, k), Lookup(n, k))
    ensures CanonicalMembers(m, ks) == CanonicalMembers(n, ks)
    decreases m, 0, |ks|
  {
    if ks != [] {
      EquivalentPrintAlike(Lookup(m, ks[0]), Lookup(n, ks[0]));
      MembersPrintAlike(m, n, ks[1..]);
    }
  }

  /** The canonical text identifies a request body: two bodies print alike
      exactly when they are equal up to the order of object members. */
  lemma CanonicalIffEquivalent(a: Json, b: Json)
    requires Valid(a) && Valid(b)
    ensures CanonicalJson(a) == CanonicalJson(b) <==> Equivalent(a, b)
  {
    if Equivalent(a, b) { EquivalentPrintAlike(a, b); }
    if CanonicalJson(a) == CanonicalJson(b) {
      assert CanonicalJson(a) + [] == CanonicalJson(b) + [];
      PrintsApart(a, b, [], []);
    }
  }

  // ----- Digests -----

  /** The hash does not confuse the canonical texts of these two bodies. */
  predicate TellsApart(sha256: Text -> string, a: Json, b: Json)
    requires Valid(a) && Valid(b)
  {
    sha256(CanonicalJson(a)) == sha256(CanonicalJson(b)) ==> CanonicalJson(a) == CanonicalJson(b)
  }

  function RequestDigest(sha256: Text -> string, body: Json): string
    requires Valid(body)
  {
    sha256(CanonicalJson(body))
  }

  lemma DigestIffEquivalent(sha256: Text -> string, a: Json, b: Json)
    requires Valid(a) && Valid(b) && TellsApart(sha256, a, b)
    ensures RequestDigest(sha256, a) == RequestDigest(sha256, b) <==> Equivalent(a, b)
  {
    CanonicalIffEquivalent(a, b);
  }
}
