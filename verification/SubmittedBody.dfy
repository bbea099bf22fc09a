/** What a submission's body says: its answers and its hint count, and the body that
    carries given answers. */
module SubmittedBody {
  import opened Wrappers
  import opened JsonText
  import opened CanonicalJson
  import opened JsonFields
  import Questions
  import Grading

  datatype BodyFault = NoAnswers | EvidenceSupplied | InvalidAnswer(index: nat)

  const ANSWERS := "answers"
  const QUESTION_ID := "questionId"
  const RESPONSE := "response"
  const QUERY := "query"
  const EVIDENCE_IDS := "evidenceIds"

  // ----- Reading answers -----

  /** The graders look at strings only; every other item is the same to them. */
  function ValueOf(v: Json): Questions.Value {
    if v.Str? then Questions.Str(Scalars(v.text)) else Questions.NotStr("None")
  }

  function ValuesOf(items: seq<Json>): (values: seq<Questions.Value>)
    ensures |values| == |items|
  {
    seq(|items|, i requires 0 <= i < |items| => ValueOf(items[i]))
  }

  function ResponseOf(v: Option<Json>): Grading.Response {
    match v
    case Some(Str(text)) => Grading.TextResponse(Scalars(text))
    case Some(Arr(items)) => Grading.ListResponse(ValuesOf(items))
    case Some(Obj(members)) =>
      var query, ids := Field(v.value, QUERY), Field(v.value, EVIDENCE_IDS);
      Grading.SearchResponse(if query.Some? && query.value.Str? then Scalars(query.value.text) else "",
                             if ids.Some? && ids.value.Arr? then ValuesOf(ids.value.items) else [])
    case _ => Grading.NoResponse
  }

  function AnswerOf(item: Json): Option<Grading.Answer> {
    match Field(item, QUESTION_ID)
    case Some(Str(id)) => Some(Grading.Answer(Scalars(id), ResponseOf(Field(item, RESPONSE))))
    case _ => None
  }

  /** All of the answers, or where the first one is missing. */
  function AllAnswers(found: seq<Option<Grading.Answer>>): Result<seq<Grading.Answer>, BodyFault> {
    if found == [] then Ok([])
    else
      var last := |found| - 1;
      match AllAnswers(found[..last])
      case Err(e) => Err(e)
      case Ok(earlier) => if found[last].None? then Err(InvalidAnswer(last)) else Ok(earlier + [found[last].value])
  }

  function AnswersOf(items: seq<Json>): Result<seq<Grading.Answer>, BodyFault> {
    AllAnswers(seq(|items|, i requires 0 <= i < |items| => AnswerOf(items[i])))
  }

  predicate ClaimsEvidence(body: Json) {
    Field(body, "trustedEvidence").Some? || Field(body, "gradeEvidence").Some? || Field(body, "evidence").Some?
  }

  /** `submittedAnswers`: evidence never comes from the client. */
  function SubmittedAnswers(body: Json): Result<seq<Grading.Answer>, BodyFault> {
    match Field(body, ANSWERS)
    case Some(Arr(items)) =>
      if ClaimsEvidence(body) then Err(EvidenceSupplied) else AnswersOf(items)
    case _ => Err(NoAnswers)
  }

  /** An object is a search, without a query unless it has one in words and without events
      unless it lists them; numbers, constants and nothing at all are no response. */
  lemma ResponsesRead(v: Json)
    ensures ResponseOf(None) == Grading.NoResponse
    ensures v == Null || v.Bool? || v.Num? ==> ResponseOf(Some(v)) == Grading.NoResponse
    ensures v.Obj? ==> ResponseOf(Some(v)).SearchResponse?
    ensures v.Obj? && (Field(v, "query").None? || !Field(v, "query").value.Str?) ==> ResponseOf(Some(v)).query == ""
    ensures v.Obj? && (Field(v, "evidenceIds").None? || !Field(v, "evidenceIds").value.Arr?) ==> ResponseOf(Some(v)).evidenceIds == []
    ensures v.Arr? ==> ResponseOf(Some(v)).ListResponse? && |ResponseOf(Some(v)).values| == |v.items|
                       && forall i :: 0 <= i < |v.items| ==> (ResponseOf(Some(v)).values[i].Str? <==> v.items[i].Str?)
  {}

  // ----- Reading the hint count -----

  function TenTo(e: int): real
    decreases if e < 0 then -e else e
  {
    if e == 0 then 1.0 else if e > 0 then 10.0 * TenTo(e - 1) else TenTo(e + 1) / 10.0
  }

  function RealOf(n: Number): real {
    match n
    case Zero => 0.0
    case Finite(negative, digits, point) =>
      var size := DecimalValue(digits) as real * TenTo(point - |digits|);
      if negative then -size else size
  }

  /** `hintsUsed`, or `hints_used` where the first is missing or null. */
  function HintField(body: Json): Option<Json> {
    var first := Field(body, "hintsUsed");
    if first.None? || first.value == Null then Field(body, "hints_used") else first
  }

  /** What `Number` makes of the field; `read` is what it makes of a string, a list or an
      object. */
  function NumberOf(field: Option<Json>, read: Option<real>): Option<real> {
    match field
    case None => None
    case Some(Num(n)) => Some(RealOf(n))
    case Some(Bool(b)) => Some(if b then 1.0 else 0.0)
    case Some(Null) => Some(0.0)
    case Some(_) => read
  }

  /** Absent or unusable counts are 0, and no count exceeds 20. */
  function Clipped(number: Option<real>): (hints: nat)
    ensures hints <= 20
  {
    if number.None? || number.value <= 0.0 then 0 else if number.value >= 20.0 then 20 else number.value.Floor
  }

  function HintsUsed(body: Json, read: Option<real>): (hints: nat)
    ensures hints <= 20
  {
    Clipped(NumberOf(HintField(body), read))
  }

  /** The number the two fields hold, the second only where the first is missing or null. */
  predicate HintNumber(body: Json, n: Number) {
    var first := Field(body, "hintsUsed");
    if first == None || first == Some(Null) then Field(body, "hints_used") == Some(Num(n)) else first == Some(Num(n))
  }

  /** Whole counts up to 20 are taken as they are, larger ones as 20, negative ones as 0. */
  lemma HintsTaken(body: Json, read: Option<real>, tens: int, ones: int)
    requires 0 <= tens <= 9 && 1 <= ones <= 9
    ensures HintNumber(body, Finite(false, [ones], 1)) ==> HintsUsed(body, read) == ones
    ensures tens > 0 && HintNumber(body, Finite(false, [tens, ones], 2)) ==>
              HintsUsed(body, read) == if 10 * tens + ones <= 20 then 10 * tens + ones else 20
    ensures HintNumber(body, Finite(true, [ones], 1)) || HintNumber(body, Zero) ==> HintsUsed(body, read) == 0
    ensures HintField(body) == None || HintField(body) == Some(Null) || HintField(body) == Some(Bool(false)) ==> HintsUsed(body, read) == 0
  {
    SmallNumbers(tens, ones);
    if HintNumber(body, Finite(false, [ones], 1)) { HintsAre(body, read, Finite(false, [ones], 1), ones); }
    if HintNumber(body, Finite(false, [tens, ones], 2)) { HintsAre(body, read, Finite(false, [tens, ones], 2), 10 * tens + ones); }
    if HintNumber(body, Finite(true, [ones], 1)) { HintsAre(body, read, Finite(true, [ones], 1), -ones); }
    if HintNumber(body, Zero) { HintsAre(body, read, Zero, 0); }
  }

  lemma HintsAre(body: Json, read: Option<real>, n: Number, count: int)
    requires HintNumber(body, n) && RealOf(n) == count as real
    ensures HintsUsed(body, read) == if count <= 0 then 0 else if count >= 20 then 20 else count
  {
    HintFieldIs(body, n);
    assert NumberOf(HintField(body), read) == Some(count as real);
    ClippedWhole(count);
  }

  lemma ClippedWhole(count: int)
    ensures Clipped(Some(count as real)) == if count <= 0 then 0 else if count >= 20 then 20 else count
  {}

  lemma HintFieldIs(body: Json, n: Number)
    ensures HintNumber(body, n) <==> HintField(body) == Some(Num(n))
  {}

  lemma SmallNumbers(tens: int, ones: int)
    requires 0 <= tens <= 9 && 0 <= ones <= 9
    ensures RealOf(Finite(false, [ones], 1)) == ones as real && RealOf(Finite(true, [ones], 1)) == -(ones as real)
    ensures RealOf(Finite(false, [tens, ones], 2)) == (10 * tens + ones) as real
    ensures RealOf(Finite(false, [ones], 0)) == ones as real / 10.0 && RealOf(Finite(false, [ones], 2)) == ones as real * 10.0
  {
    assert TenTo(0) == 1.0 && TenTo(-1) == 0.1 && TenTo(1) == 10.0;
    assert [ones][..0] == [] && [tens, ones][..1] == [tens] && [tens][..0] == [];
    assert DecimalValue([ones]) == ones;
    assert DecimalValue([tens, ones]) == 10 * tens + ones;
  }

  // ----- Writing answers -----

  function JsonValue(v: Questions.Value): (j: Json)
    ensures Valid(j)
  {
    if v.Str? then Str(Utf16(v.text)) else Null
  }

  function JsonValues(values: seq<Questions.Value>): (items: seq<Json>)
    ensures |items| == |values| && Valid(Arr(items))
  {
    seq(|values|, i requires 0 <= i < |values| => JsonValue(values[i]))
  }

  function JsonAnswer(a: Grading.Answer): (j: Json)
    ensures Valid(j)
  {
    var id := Str(Utf16(a.questionId));
    match a.response
    case NoResponse => One(QUESTION_ID, id)
    case TextResponse(text) => TwoValid(QUESTION_ID, id, RESPONSE, Str(Utf16(text))); Two(QUESTION_ID, id, RESPONSE, Str(Utf16(text)))
    case ListResponse(values) => TwoValid(QUESTION_ID, id, RESPONSE, Arr(JsonValues(values))); Two(QUESTION_ID, id, RESPONSE, Arr(JsonValues(values)))
    case SearchResponse(query, ids) =>
      TwoValid(QUERY, Str(Utf16(query)), EVIDENCE_IDS, Arr(JsonValues(ids)));
      var search := Two(QUERY, Str(Utf16(query)), EVIDENCE_IDS, Arr(JsonValues(ids)));
      TwoValid(QUESTION_ID, id, RESPONSE, search);
      Two(QUESTION_ID, id, RESPONSE, search)
  }

  function JsonAnswers(answers: seq<Grading.Answer>): (items: seq<Json>)
    ensures |items| == |answers| && Valid(Arr(items))
  {
    seq(|answers|, i requires 0 <= i < |answers| => JsonAnswer(answers[i]))
  }

  /** The body that submits these answers. */
  function BodyOf(answers: seq<Grading.Answer>): (body: Json)
    ensures Valid(body)
  {
    One(ANSWERS, Arr(JsonAnswers(answers)))
  }

  // ----- And back -----

  /** Items that are not strings all look alike. */
  predicate Plain(values: seq<Questions.Value>) {
    forall i :: 0 <= i < |values| ==> values[i].Str? || values[i].shown == "None"
  }

  predicate Sendable(response: Grading.Response) {
    match response
    case ListResponse(values) => Plain(values)
    case SearchResponse(_, ids) => Plain(ids)
    case _ => true
  }

  lemma ValuesRoundTrip(values: seq<Questions.Value>)
    requires Plain(values)
    ensures ValuesOf(JsonValues(values)) == values
  {
    forall i | 0 <= i < |values| ensures ValueOf(JsonValue(values[i])) == values[i] {
      if values[i].Str? { Utf16RoundTrip(values[i].text); }
    }
  }

  lemma SearchRoundTrip(query: string, ids: seq<Questions.Value>)
    requires Plain(ids)
    ensures ResponseOf(Some(Two(QUERY, Str(Utf16(query)), EVIDENCE_IDS, Arr(JsonValues(ids))))) == Grading.SearchResponse(query, ids)
  {
    FieldOfTwo(QUERY, Str(Utf16(query)), EVIDENCE_IDS, Arr(JsonValues(ids)), QUERY);
    FieldOfTwo(QUERY, Str(Utf16(query)), EVIDENCE_IDS, Arr(JsonValues(ids)), EVIDENCE_IDS);
    Utf16RoundTrip(query);
    ValuesRoundTrip(ids);
    SearchReads(Two(QUERY, Str(Utf16(query)), EVIDENCE_IDS, Arr(JsonValues(ids))), Utf16(query), JsonValues(ids));
  }

  lemma SearchReads(v: Json, query: Text, ids: seq<Json>)
    requires v.Obj? && Field(v, QUERY) == Some(Str(query)) && Field(v, EVIDENCE_IDS) == Some(Arr(ids))
    ensures ResponseOf(Some(v)) == Grading.SearchResponse(Scalars(query), ValuesOf(ids))
  {}

  lemma PairRoundTrip(id: string, response: Json)
    ensures AnswerOf(Two(QUESTION_ID, Str(Utf16(id)), RESPONSE, response)) == Some(Grading.Answer(id, ResponseOf(Some(response))))
  {
    FieldOfTwo(QUESTION_ID, Str(Utf16(id)), RESPONSE, response, QUESTION_ID);
    FieldOfTwo(QUESTION_ID, Str(Utf16(id)), RESPONSE, response, RESPONSE);
    Utf16RoundTrip(id);
  }

  lemma AnswerRoundTrip(a: Grading.Answer)
    requires Sendable(a.response)
    ensures AnswerOf(JsonAnswer(a)) == Some(a)
  {
    match a.response
    case NoResponse =>
      FieldOfOne(QUESTION_ID, Str(Utf16(a.questionId)), QUESTION_ID);
      FieldOfOne(QUESTION_ID, Str(Utf16(a.questionId)), RESPONSE);
      Utf16RoundTrip(a.questionId);
    case TextResponse(text) =>
      PairRoundTrip(a.questionId, Str(Utf16(text)));
      Utf16RoundTrip(text);
    case ListResponse(values) =>
      PairRoundTrip(a.questionId, Arr(JsonValues(values)));
      ValuesRoundTrip(values);
    case SearchResponse(query, ids) =>
      PairRoundTrip(a.questionId, Two(QUERY, Str(Utf16(query)), EVIDENCE_IDS, Arr(JsonValues(ids))));
      SearchRoundTrip(query, ids);
  }

  lemma {:induction false} AllAnswersIff(found: seq<Option<Grading.Answer>>)
    ensures AllAnswers(found).Ok? <==> forall i :: 0 <= i < |found| ==> found[i].Some?
    ensures AllAnswers(found).Ok? ==>
              && |AllAnswers(found).value| == |found|
              && forall i :: 0 <= i < |found| ==> found[i] == Some(AllAnswers(found).value[i])
    decreases |found|
  {
    if found != [] { AllAnswersIff(found[..|found| - 1]); }
  }

  /** A body is read exactly when it has a list of answers, each with an identifier,
      and claims no evidence; what is read is that list, item by item. */
  lemma SubmittedAnswersIff(body: Json)
    ensures SubmittedAnswers(body).Ok? <==>
              && Field(body, ANSWERS).Some? && Field(body, ANSWERS).value.Arr? && !ClaimsEvidence(body)
              && forall i :: 0 <= i < |Field(body, ANSWERS).value.items| ==> AnswerOf(Field(body, ANSWERS).value.items[i]).Some?
    ensures SubmittedAnswers(body).Ok? ==>
              var items := Field(body, ANSWERS).value.items;
              && |SubmittedAnswers(body).value| == |items|
              && forall i :: 0 <= i < |items| ==> AnswerOf(items[i]) == Some(SubmittedAnswers(body).value[i])
  {
    if Field(body, ANSWERS).Some? && Field(body, ANSWERS).value.Arr? {
      ItemsRead(Field(body, ANSWERS).value.items);
    }
  }

  lemma ItemsRead(items: seq<Json>)
    ensures AnswersOf(items).Ok? <==> forall i :: 0 <= i < |items| ==> AnswerOf(items[i]).Some?
    ensures AnswersOf(items).Ok? ==>
              && |AnswersOf(items).value| == |items|
              && forall i :: 0 <= i < |items| ==> AnswerOf(items[i]) == Some(AnswersOf(items).value[i])
  {
    var found := seq(|items|, i requires 0 <= i < |items| => AnswerOf(items[i]));
    AllAnswersIff(found);
    assert forall i :: 0 <= i < |items| ==> found[i] == AnswerOf(items[i]);
  }

  lemma OnlyAnswers(items: Json)
    ensures var body := One(ANSWERS, items);
            && Field(body, ANSWERS) == Some(items)
            && !ClaimsEvidence(body)
  {
    FieldOfOne(ANSWERS, items, ANSWERS);
    FieldOfOne(ANSWERS, items, "trustedEvidence");
    FieldOfOne(ANSWERS, items, "gradeEvidence");
    FieldOfOne(ANSWERS, items, "evidence");
  }

  lemma AnswersRoundTrip(answers: seq<Grading.Answer>)
    requires forall i :: 0 <= i < |answers| ==> Sendable(answers[i].response)
    ensures AnswersOf(JsonAnswers(answers)) == Ok(answers)
  {
    var items := JsonAnswers(answers);
    ItemsRead(items);
    forall i | 0 <= i < |items| ensures AnswerOf(items[i]) == Some(answers[i]) { AnswerRoundTrip(answers[i]); }
    assert AnswersOf(items).value == answers;
  }

  /** Reading the body that carries some answers gives these answers. */
  lemma BodyRoundTrip(answers: seq<Grading.Answer>)
    requires forall i :: 0 <= i < |answers| ==> Sendable(answers[i].response)
    ensures SubmittedAnswers(BodyOf(answers)) == Ok(answers)
  {
    var items := JsonAnswers(answers);
    OnlyAnswers(Arr(items));
    AnswersRoundTrip(answers);
  }
}
