/**
  A learner's five-step answer set and the schema the attempts endpoint checks
  a submission against before it does anything else: exactly three step-2
  diagnoses, each with a name, an integer rank in 1..3 and a justification;
  an optional step-4 interpretation and an optional step-4 differential of any
  length whose entries obey the same rules; non-empty text for steps 1, 3 and
  5; and a case id in UUID form.
 */
module AttemptRequest {
  import opened Wrappers
  import opened Json

  datatype Diagnosis = Diagnosis(name: string, rank: real, justification: string)

  datatype UserAnswers = UserAnswers(
    step1ProblemRepresentation: string,
    step2Differential: seq<Diagnosis>,
    step3NextStep: string,
    step4Interpretation: Option<string>,
    step4UpdatedDifferential: Option<seq<Diagnosis>>,
    step5FinalDiagnosis: string,
    step5Management: string)

  datatype AttemptRequest = AttemptRequest(caseId: string, answers: UserAnswers)

  // ----- The rules, stated on the typed values -----

  predicate IsHexDigit(ch: char)
  {
    '0' <= ch <= '9' || 'a' <= ch <= 'f' || 'A' <= ch <= 'F'
  }

  /** Eight, four, four, four and twelve hex digits separated by hyphens. */
  predicate IsUuid(s: string)
  {
    |s| == 36 &&
    forall i :: 0 <= i < 36 ==> if i == 8 || i == 13 || i == 18 || i == 23 then s[i] == '-' else IsHexDigit(s[i])
  }

  /** `Number.isInteger`, which zod's `.int()` applies. */
  predicate IsInteger(x: real)
  {
    x.Floor as real == x
  }

  predicate ValidDiagnosis(d: Diagnosis)
  {
    |d.name| > 0 && IsInteger(d.rank) && 1.0 <= d.rank <= 3.0 && |d.justification| > 0
  }

  predicate ValidDiagnoses(ds: seq<Diagnosis>)
  {
    forall i :: 0 <= i < |ds| ==> ValidDiagnosis(ds[i])
  }

  predicate ValidAnswers(a: UserAnswers)
  {
    && |a.step1ProblemRepresentation| > 0
    && |a.step2Differential| == 3 && ValidDiagnoses(a.step2Differential)
    && |a.step3NextStep| > 0
    && (a.step4UpdatedDifferential.Some? ==> ValidDiagnoses(a.step4UpdatedDifferential.value))
    && |a.step5FinalDiagnosis| > 0
    && |a.step5Management| > 0
  }

  predicate ValidRequest(r: AttemptRequest)
  {
    IsUuid(r.caseId) && ValidAnswers(r.answers)
  }

  // ----- Encoding: the request body a client sends -----

  function DiagnosisToJson(d: Diagnosis): Json
  {
    JObject(map["name" := JString(d.name), "rank" := JNumber(d.rank), "justification" := JString(d.justification)])
  }

  function DiagnosesToJson(ds: seq<Diagnosis>): (j: Json)
    ensures j.JArray? && |j.items| == |ds|
    ensures forall i :: 0 <= i < |ds| ==> j.items[i] == DiagnosisToJson(ds[i])
  {
    JArray(seq(|ds|, i requires 0 <= i < |ds| => DiagnosisToJson(ds[i])))
  }

  /** The answers object; an absent optional answer is an absent key. */
  function AnswersToJson(a: UserAnswers): Json
  {
    var required := map[
      "step1_problem_representation" := JString(a.step1ProblemRepresentation),
      "step2_differential" := DiagnosesToJson(a.step2Differential),
      "step3_next_step" := JString(a.step3NextStep),
      "step5_final_diagnosis" := JString(a.step5FinalDiagnosis),
      "step5_management" := JString(a.step5Management)];
    var withInterpretation :=
      if a.step4Interpretation.Some? then required["step4_interpretation" := JString(a.step4Interpretation.value)]
      else required;
    JObject(
      if a.step4UpdatedDifferential.Some?
      then withInterpretation["step4_updated_differential" := DiagnosesToJson(a.step4UpdatedDifferential.value)]
      else withInterpretation)
  }

  function RequestToJson(r: AttemptRequest): Json
  {
    JObject(map["case_id" := JString(r.caseId), "answers" := AnswersToJson(r.answers)])
  }

  // ----- What an input must hold, key by key (unlisted keys may hold anything) -----

  predicate CarriesDiagnosis(j: Json, d: Diagnosis)
  {
    && j.JObject?
    && "name" in j.fields && j.fields["name"] == JString(d.name)
    && "rank" in j.fields && j.fields["rank"] == JNumber(d.rank)
    && "justification" in j.fields && j.fields["justification"] == JString(d.justification)
  }

  predicate CarriesDiagnoses(items: seq<Json>, ds: seq<Diagnosis>)
  {
    |items| == |ds| && forall i :: 0 <= i < |ds| ==> CarriesDiagnosis(items[i], ds[i])
  }

  predicate CarriesAnswers(j: Json, a: UserAnswers)
  {
    && j.JObject?
    && "step1_problem_representation" in j.fields
    && j.fields["step1_problem_representation"] == JString(a.step1ProblemRepresentation)
    && "step2_differential" in j.fields && j.fields["step2_differential"].JArray?
    && CarriesDiagnoses(j.fields["step2_differential"].items, a.step2Differential)
    && "step3_next_step" in j.fields && j.fields["step3_next_step"] == JString(a.step3NextStep)
    && (match a.step4Interpretation
        case None => "step4_interpretation" !in j.fields
        case Some(s) => "step4_interpretation" in j.fields && j.fields["step4_interpretation"] == JString(s))
    && (match a.step4UpdatedDifferential
        case None => "step4_updated_differential" !in j.fields
        case Some(ds) =>
          && "step4_updated_differential" in j.fields && j.fields["step4_updated_differential"].JArray?
          && CarriesDiagnoses(j.fields["step4_updated_differential"].items, ds))
    && "step5_final_diagnosis" in j.fields && j.fields["step5_final_diagnosis"] == JString(a.step5FinalDiagnosis)
    && "step5_management" in j.fields && j.fields["step5_management"] == JString(a.step5Management)
  }

  predicate CarriesRequest(j: Json, r: AttemptRequest)
  {
    && j.JObject?
    && "case_id" in j.fields && j.fields["case_id"] == JString(r.caseId)
    && "answers" in j.fields && CarriesAnswers(j.fields["answers"], r.answers)
  }

  // ----- Parsing -----

  /** A string under `key` that must not be empty (`z.string().min(1)`). */
  function NonEmptyStringAt(j: Json, key: string): (r: Result<string, SchemaError>)
    ensures r.Success? <==> StringAt(j, key).Success? && |StringAt(j, key).value| > 0
    ensures r.Success? ==> r == StringAt(j, key)
  {
    var s :- StringAt(j, key);
    if |s| > 0 then Success(s) else Failure(SchemaError(key))
  }

  /** One differential entry: `rank` is `z.number().int().min(1).max(3)`. */
  function ParseDiagnosis(j: Json): (r: Result<Diagnosis, SchemaError>)
    ensures r.Success? ==> ValidDiagnosis(r.value) && CarriesDiagnosis(j, r.value)
    ensures forall d :: ValidDiagnosis(d) && CarriesDiagnosis(j, d) ==> r == Success(d)
  {
    var name :- NonEmptyStringAt(j, "name");
    var rank :- NumberAt(j, "rank");
    if !(IsInteger(rank) && 1.0 <= rank <= 3.0) then Failure(SchemaError("rank"))
    else
      var justification :- NonEmptyStringAt(j, "justification");
      Success(Diagnosis(name, rank, justification))
  }

  function ParseDiagnoses(items: seq<Json>): (r: Result<seq<Diagnosis>, SchemaError>)
    ensures r.Success? <==> forall i :: 0 <= i < |items| ==> ParseDiagnosis(items[i]).Success?
    ensures r.Success? ==> ValidDiagnoses(r.value) && CarriesDiagnoses(items, r.value)
  {
    if items == [] then Success([])
    else
      var first :- ParseDiagnosis(items[0]);
      var rest :- ParseDiagnoses(items[1..]);
      assert forall i :: 1 <= i < |items| ==> items[i] == items[1..][i - 1];
      Success([first] + rest)
  }

  /** `z.string().optional()`: an absent key is no answer, a present one must be a string. */
  function OptionalStringAt(j: Json, key: string): (r: Result<Option<string>, SchemaError>)
  {
    if j.JObject? && key !in j.fields then Success(None)
    else
      var s :- StringAt(j, key);
      Success(Some(s))
  }

  /** An optional differential list: absent, or an array whose every entry is valid. */
  function OptionalDiagnosesAt(j: Json, key: string): (r: Result<Option<seq<Diagnosis>>, SchemaError>)
  {
    if j.JObject? && key !in j.fields then Success(None)
    else
      var items :- ArrayAt(j, key);
      var ds :- ParseDiagnoses(items);
      Success(Some(ds))
  }

  /** The answers object; the step-2 list must have exactly three entries, the step-4 list any number. */
  function ParseAnswers(j: Json): (r: Result<UserAnswers, SchemaError>)
  {
    var step1 :- NonEmptyStringAt(j, "step1_problem_representation");
    var step2Items :- ArrayAt(j, "step2_differential");
    var step2 :- ParseDiagnoses(step2Items);
    if |step2| != 3 then Failure(SchemaError("step2_differential"))
    else
      var step3 :- NonEmptyStringAt(j, "step3_next_step");
      var interpretation :- OptionalStringAt(j, "step4_interpretation");
      var updated :- OptionalDiagnosesAt(j, "step4_updated_differential");
      var diagnosis :- NonEmptyStringAt(j, "step5_final_diagnosis");
      var management :- NonEmptyStringAt(j, "step5_management");
      Success(UserAnswers(step1, step2, step3, interpretation, updated, diagnosis, management))
  }

  /** `AttemptRequestSchema.parse`. */
  function ParseRequest(j: Json): (r: Result<AttemptRequest, SchemaError>)
  {
    var caseId :- StringAt(j, "case_id");
    if !IsUuid(caseId) then Failure(SchemaError("case_id"))
    else
      var answersJson :- MemberAt(j, "answers");
      var answers :- ParseAnswers(answersJson);
      Success(AttemptRequest(caseId, answers))
  }

  // ----- What the schema promises -----

  lemma {:induction false} DiagnosesAccepted(items: seq<Json>, ds: seq<Diagnosis>)
    requires ValidDiagnoses(ds) && CarriesDiagnoses(items, ds)
    ensures ParseDiagnoses(items) == Success(ds)
  {
    if items != [] {
      assert CarriesDiagnoses(items[1..], ds[1..]) by {
        forall i | 0 <= i < |ds[1..]| ensures CarriesDiagnosis(items[1..][i], ds[1..][i]) {
          assert CarriesDiagnosis(items[i + 1], ds[i + 1]);
        }
      }
      assert ValidDiagnosis(ds[0]) && CarriesDiagnosis(items[0], ds[0]);
      DiagnosesAccepted(items[1..], ds[1..]);
      assert ds == [ds[0]] + ds[1..];
    }
  }

  lemma AnswersValidated(j: Json)
    requires ParseAnswers(j).Success?
    ensures ValidAnswers(ParseAnswers(j).value) && CarriesAnswers(j, ParseAnswers(j).value)
  {
    var a := ParseAnswers(j).value;
    assert ParseDiagnoses(j.fields["step2_differential"].items) == Success(a.step2Differential);
    assert OptionalStringAt(j, "step4_interpretation") == Success(a.step4Interpretation);
    assert OptionalDiagnosesAt(j, "step4_updated_differential") == Success(a.step4UpdatedDifferential);
  }

  lemma AnswersAccepted(j: Json, a: UserAnswers)
    requires ValidAnswers(a) && CarriesAnswers(j, a)
    ensures ParseAnswers(j) == Success(a)
  {
    DiagnosesAccepted(j.fields["step2_differential"].items, a.step2Differential);
    if a.step4UpdatedDifferential.Some? {
      DiagnosesAccepted(j.fields["step4_updated_differential"].items, a.step4UpdatedDifferential.value);
    }
    assert OptionalStringAt(j, "step4_interpretation") == Success(a.step4Interpretation);
    assert OptionalDiagnosesAt(j, "step4_updated_differential") == Success(a.step4UpdatedDifferential);
  }

  /**
    The request schema accepts exactly the bodies that carry a valid request,
    and returns that request: its own values, with unknown keys dropped.
   */
  lemma RequestExact(j: Json, r: AttemptRequest)
    ensures ParseRequest(j) == Success(r) <==> ValidRequest(r) && CarriesRequest(j, r)
  {
    if ParseRequest(j) == Success(r) {
      AnswersValidated(j.fields["answers"]);
    }
    if ValidRequest(r) && CarriesRequest(j, r) {
      AnswersAccepted(j.fields["answers"], r.answers);
    }
  }

  lemma EncodingCarriesDiagnoses(ds: seq<Diagnosis>)
    ensures CarriesDiagnoses(DiagnosesToJson(ds).items, ds)
  {
    forall i | 0 <= i < |ds| ensures CarriesDiagnosis(DiagnosesToJson(ds).items[i], ds[i]) {
      var d := ds[i];
      assert CarriesDiagnosis(DiagnosisToJson(d), d);
    }
  }

  lemma EncodingCarriesAnswers(a: UserAnswers)
    ensures CarriesAnswers(AnswersToJson(a), a)
  {
    EncodingCarriesDiagnoses(a.step2Differential);
    if a.step4UpdatedDifferential.Some? {
      EncodingCarriesDiagnoses(a.step4UpdatedDifferential.value);
    }
  }

  /** A request body built from answers validates exactly when the answers obey the rules. */
  lemma RequestRoundTrip(r: AttemptRequest)
    ensures ParseRequest(RequestToJson(r)).Success? <==> ValidRequest(r)
    ensures ParseRequest(RequestToJson(r)).Success? ==> ParseRequest(RequestToJson(r)).value == r
  {
    var j := RequestToJson(r);
    EncodingCarriesAnswers(r.answers);
    assert CarriesRequest(j, r);
    RequestExact(j, r);
    if ParseRequest(j).Success? {
      RequestExact(j, ParseRequest(j).value);
      assert ParseRequest(j).value == r;
    }
  }

  /** Two, four or any count of step-2 entries other than three is refused. */
  lemma Step2CountMustBeThree(j: Json)
    requires j.JObject? && "answers" in j.fields
    requires var a := j.fields["answers"];
      a.JObject? && "step2_differential" in a.fields && a.fields["step2_differential"].JArray? &&
      |a.fields["step2_differential"].items| != 3
    ensures ParseRequest(j).Failure?
  {
    if ParseRequest(j).Success? {
      RequestExact(j, ParseRequest(j).value);
    }
  }

  /** Entries need not carry distinct ranks: three entries all ranked 1 are accepted. */
  lemma RepeatedRanksAccepted(caseId: string, text: string)
    requires IsUuid(caseId) && |text| > 0
    ensures var d := Diagnosis(text, 1.0, text);
      ParseRequest(RequestToJson(AttemptRequest(caseId,
        UserAnswers(text, [d, d, d], text, None, Some([]), text, text)))).Success?
  {
    var d := Diagnosis(text, 1.0, text);
    RequestRoundTrip(AttemptRequest(caseId, UserAnswers(text, [d, d, d], text, None, Some([]), text, text)));
  }
}
