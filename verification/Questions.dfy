/** Questions, answer keys and responses, and the text rules that the content
    service and the scorer apply to them. */
module Questions {
  import opened Wrappers

  datatype QuestionType = ElkSearch | SingleChoice | MultipleChoice | FreeText | MitreAttack | OtherType(name: string)

  /** How Python's `str` shows a JSON value that is not a string: a number, a
      constant, a list or an object. */
  predicate NonStringShape(s: string) {
    s in {"True", "False", "None", "inf", "nan"} || (s != "" && (AsciiDigit(s[0]) || s[0] in {'-', '[', '{'}))
  }

  type NonStringText = s: string | NonStringShape(s) witness "None"

  /** An item of a JSON list: a string, or something else that `str` shows as `shown`. */
  datatype Value = Str(text: string) | NotStr(shown: NonStringText)

  /** A JSON number or boolean. For Python `1`, `1.0` and `true` are equal and differ
      only by type; JavaScript sees a number in the first two. */
  datatype Amount = Int(n: int) | Float(value: real) | Truth(b: bool)

  /** Absent lists of the last two kinds are read as empty ones. */
  datatype AnswerKey = AnswerKey(
    optionIds: Option<seq<Value>>, accepted: Option<seq<Value>>, techniqueIds: seq<Value>,
    expectedEvidenceIds: seq<Value>, rubricId: string)

  datatype Question = Question(id: string, kind: QuestionType, points: Amount, key: AnswerKey)

  // ----- Text -----

  function Shown(v: Value): string { if v.Str? then v.text else v.shown }

  predicate IsSpace(c: char) {
    var u := c as int;
    9 <= u <= 13 || u == 0x20 || u == 0xA0 || u == 0x1680 || 0x2000 <= u <= 0x200A || u == 0x2028 || u == 0x2029
    || u == 0x202F || u == 0x205F || u == 0x3000 || u == 0xFEFF
  }

  function TrimBy(s: string, space: char -> bool): (r: string)
    ensures |r| <= |s|
    ensures r == s <==> s == "" || (!space(s[0]) && !space(s[|s| - 1]))
    ensures r != "" ==> !space(r[0]) && !space(r[|r| - 1])
  {
    if s == "" then s
    else if space(s[0]) then TrimBy(s[1..], space)
    else if space(s[|s| - 1]) then TrimBy(s[..|s| - 1], space)
    else s
  }

  /** JavaScript's `trim`. */
  function Trim(s: string): (r: string)
    ensures r == s <==> s == "" || (!IsSpace(s[0]) && !IsSpace(s[|s| - 1]))
  {
    TrimBy(s, IsSpace)
  }

  predicate PySpace(c: char) {
    (IsSpace(c) && c as int != 0xFEFF) || 28 <= c as int <= 31 || c as int == 0x85
  }

  /** Python's `strip`. */
  function Strip(s: string): (r: string)
    ensures |r| <= |s|
    ensures r == s <==> s == "" || (!PySpace(s[0]) && !PySpace(s[|s| - 1]))
  {
    TrimBy(s, PySpace)
  }

  function LowerChar(c: char): char { if 'A' <= c <= 'Z' then (c as int + 32) as char else c }

  function UpperChar(c: char): char { if 'a' <= c <= 'z' then (c as int - 32) as char else c }

  function Lower(s: string): string { seq(|s|, i requires 0 <= i < |s| => LowerChar(s[i])) }

  function Upper(s: string): string { seq(|s|, i requires 0 <= i < |s| => UpperChar(s[i])) }

  predicate AsciiDigit(c: char) { '0' <= c <= '9' }

  predicate AlphaNumeric(c: char) { AsciiDigit(c) || 'a' <= c <= 'z' || 'A' <= c <= 'Z' }

  predicate IdentifierChar(c: char) { AlphaNumeric(c) || c in {'.', '_', ':', '-'} }

  /** `[A-Za-z0-9][A-Za-z0-9._:-]*`, at most `maximum` characters. */
  predicate Identifier(s: string, maximum: nat) {
    1 <= |s| <= maximum && AlphaNumeric(s[0]) && forall i :: 0 <= i < |s| ==> IdentifierChar(s[i])
  }

  lemma IdentifierIsTrimmed(s: string, maximum: nat)
    requires Identifier(s, maximum)
    ensures Trim(s) == s && Lower(s) != "" && |Lower(s)| == |s|
  {}

  predicate Block(u: int, first: int) { first <= u < first + 10 }

  /** Decimal digits outside ASCII, block by block. */
  predicate OtherDigit(u: int) {
    Block(u, 0x660) || Block(u, 0x6F0) || Block(u, 0x7C0) || Block(u, 0x966) || Block(u, 0x9E6) || Block(u, 0xA66) || Block(u, 0xAE6) || Block(u, 0xB66)
    || Block(u, 0xBE6) || Block(u, 0xC66) || Block(u, 0xCE6) || Block(u, 0xD66) || Block(u, 0xDE6) || Block(u, 0xE50) || Block(u, 0xED0) || Block(u, 0xF20)
    || Block(u, 0x1040) || Block(u, 0x1090) || Block(u, 0x17E0) || Block(u, 0x1810) || Block(u, 0x1946) || Block(u, 0x19D0) || Block(u, 0x1A80) || Block(u, 0x1A90)
    || Block(u, 0x1B50) || Block(u, 0x1BB0) || Block(u, 0x1C40) || Block(u, 0x1C50) || Block(u, 0xA620) || Block(u, 0xA8D0) || Block(u, 0xA900) || Block(u, 0xA9D0)
    || Block(u, 0xA9F0) || Block(u, 0xAA50) || Block(u, 0xABF0) || Block(u, 0xFF10) || Block(u, 0x104A0) || Block(u, 0x10D30) || Block(u, 0x11066) || Block(u, 0x110F0)
    || Block(u, 0x11136) || Block(u, 0x111D0) || Block(u, 0x112F0) || Block(u, 0x11450) || Block(u, 0x114D0) || Block(u, 0x11650) || Block(u, 0x116C0) || Block(u, 0x11730)
    || Block(u, 0x118E0) || Block(u, 0x11950) || Block(u, 0x11C50) || Block(u, 0x11D50) || Block(u, 0x11DA0) || Block(u, 0x16A60) || Block(u, 0x16AC0) || Block(u, 0x16B50)
    || Block(u, 0x1D7CE) || Block(u, 0x1D7D8) || Block(u, 0x1D7E2) || Block(u, 0x1D7EC) || Block(u, 0x1D7F6) || Block(u, 0x1E140) || Block(u, 0x1E2F0) || Block(u, 0x1E950)
    || Block(u, 0x1FBF0)
  }

  /** What `\d` matches in a Python string pattern. */
  predicate UnicodeDigit(c: char) { AsciiDigit(c) || OtherDigit(c as int) }

  lemma DigitIsPlain(c: char)
    requires UnicodeDigit(c)
    ensures !IsSpace(c) && UpperChar(c) == c
  {}

  /** `T\d{4}(\.\d{3})?`, for either reading of `\d`. */
  predicate TechniqueShape(s: string, digit: char -> bool) {
    && (|s| == 5 || (|s| == 9 && s[5] == '.' && digit(s[6]) && digit(s[7]) && digit(s[8])))
    && s[0] == 'T' && digit(s[1]) && digit(s[2]) && digit(s[3]) && digit(s[4])
  }

  /** The technique pattern as JavaScript reads it. */
  predicate Technique(s: string) { TechniqueShape(s, AsciiDigit) }

  /** The technique pattern as Python reads it. */
  predicate PyTechnique(s: string) { TechniqueShape(s, UnicodeDigit) }

  lemma TechniqueIsNormal(s: string)
    requires Technique(s)
    ensures PyTechnique(s)
  {}

  lemma PyTechniqueIsNormal(s: string)
    requires PyTechnique(s)
    ensures Trim(s) == s && Upper(s) == s
  {
    forall i | 0 <= i < |s| ensures !IsSpace(s[i]) && UpperChar(s[i]) == s[i] {
      if UnicodeDigit(s[i]) { DigitIsPlain(s[i]); }
    }
  }

  // ----- Points -----

  /** The integer JavaScript reads, when `Number.isInteger` accepts the points. */
  predicate WholePoints(p: Amount) {
    match p
    case Int(n) => true
    case Float(v) => v == v.Floor as real
    case Truth(_) => false
  }

  function PointsValue(p: Amount): int {
    match p
    case Int(n) => n
    case Float(v) => v.Floor
    case Truth(b) => if b then 1 else 0
  }

  /** Python's `==` between points and an integer. */
  predicate PyEquals(p: Amount, n: int) {
    match p
    case Int(m) => m == n
    case Float(v) => v == n as real
    case Truth(b) => (if b then 1 else 0) == n
  }

  function Ids(questions: seq<Question>): (ids: seq<string>)
    ensures |ids| == |questions|
  {
    seq(|questions|, i requires 0 <= i < |questions| => questions[i].id)
  }
}
