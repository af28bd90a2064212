/**
  The feedback engine: renders a case and a learner's answers into the
  grading prompt, hands it to the reasoning model once, and accepts the
  model's reply only if it parses as JSON and matches the feedback schema
  (five scores in [1,5], four string lists and a summary). Every failure is
  reported as one of two messages. The model itself, the API client and
  `JSON.parse` are parameters: `complete` answers a (system, user) prompt
  pair, `parseJson` reads a reply's text.
 */
module FeedbackEngine {
  import opened Wrappers
  import opened Json
  import opened CaseValidator
  import opened AttemptRequest

  datatype Scores = Scores(
    problemRepresentation: real,
    differentialQuality: real,
    prioritization: real,
    dataInterpretation: real,
    clinicalSafety: real)

  datatype Feedback = Feedback(
    scores: Scores,
    strengths: seq<string>,
    misses: seq<string>,
    biases: seq<string>,
    teachingPoints: seq<string>,
    overallSummary: string)

  // ----- The feedback schema -----

  /** `z.number().min(1).max(5)`: inclusive bounds, fractions allowed. */
  predicate ValidScore(x: real)
  {
    1.0 <= x <= 5.0
  }

  predicate ValidScores(s: Scores)
  {
    && ValidScore(s.problemRepresentation)
    && ValidScore(s.differentialQuality)
    && ValidScore(s.prioritization)
    && ValidScore(s.dataInterpretation)
    && ValidScore(s.clinicalSafety)
  }

  /** Only the scores are constrained; lists may be empty and the summary may be "". */
  predicate ValidFeedback(f: Feedback)
  {
    ValidScores(f.scores)
  }

  function ScoresToJson(s: Scores): Json
  {
    JObject(map[
      "problem_representation" := JNumber(s.problemRepresentation),
      "differential_quality" := JNumber(s.differentialQuality),
      "prioritization" := JNumber(s.prioritization),
      "data_interpretation" := JNumber(s.dataInterpretation),
      "clinical_safety" := JNumber(s.clinicalSafety)])
  }

  function FeedbackToJson(f: Feedback): Json
  {
    JObject(map[
      "scores" := ScoresToJson(f.scores),
      "strengths" := StringsToJson(f.strengths),
      "misses" := StringsToJson(f.misses),
      "biases" := StringsToJson(f.biases),
      "teaching_points" := StringsToJson(f.teachingPoints),
      "overall_summary" := JString(f.overallSummary)])
  }

  predicate CarriesScores(j: Json, s: Scores)
  {
    && j.JObject?
    && "problem_representation" in j.fields && j.fields["problem_representation"] == JNumber(s.problemRepresentation)
    && "differential_quality" in j.fields && j.fields["differential_quality"] == JNumber(s.differentialQuality)
    && "prioritization" in j.fields && j.fields["prioritization"] == JNumber(s.prioritization)
    && "data_interpretation" in j.fields && j.fields["data_interpretation"] == JNumber(s.dataInterpretation)
    && "clinical_safety" in j.fields && j.fields["clinical_safety"] == JNumber(s.clinicalSafety)
  }

  /** `j` holds every field of `f`, key by key; other keys may hold anything. */
  predicate CarriesFeedback(j: Json, f: Feedback)
  {
    && j.JObject?
    && "scores" in j.fields && CarriesScores(j.fields["scores"], f.scores)
    && "strengths" in j.fields && j.fields["strengths"] == StringsToJson(f.strengths)
    && "misses" in j.fields && j.fields["misses"] == StringsToJson(f.misses)
    && "biases" in j.fields && j.fields["biases"] == StringsToJson(f.biases)
    && "teaching_points" in j.fields && j.fields["teaching_points"] == StringsToJson(f.teachingPoints)
    && "overall_summary" in j.fields && j.fields["overall_summary"] == JString(f.overallSummary)
  }

  function ScoreAt(j: Json, key: string): (r: Result<real, SchemaError>)
    ensures r.Success? ==> ValidScore(r.value) && j.JObject? && key in j.fields && j.fields[key] == JNumber(r.value)
  {
    var x :- NumberAt(j, key);
    if ValidScore(x) then Success(x) else Failure(SchemaError(key))
  }

  function ParseScores(j: Json): (r: Result<Scores, SchemaError>)
    ensures r.Success? ==> ValidScores(r.value) && CarriesScores(j, r.value)
    ensures forall s :: ValidScores(s) && CarriesScores(j, s) ==> r == Success(s)
  {
    var problem :- ScoreAt(j, "problem_representation");
    var differential :- ScoreAt(j, "differential_quality");
    var prioritization :- ScoreAt(j, "prioritization");
    var interpretation :- ScoreAt(j, "data_interpretation");
    var safety :- ScoreAt(j, "clinical_safety");
    Success(Scores(problem, differential, prioritization, interpretation, safety))
  }

  /** `FeedbackSchema.parse`: the reply's own values, unknown keys dropped, nothing repaired. */
  function ParseFeedback(j: Json): (r: Result<Feedback, SchemaError>)
    ensures r.Success? ==> ValidFeedback(r.value) && CarriesFeedback(j, r.value)
  {
    var scoresJson :- MemberAt(j, "scores");
    var scores :- ParseScores(scoresJson);
    var strengths :- StringListAt(j, "strengths");
    var misses :- StringListAt(j, "misses");
    var biases :- StringListAt(j, "biases");
    var teaching :- StringListAt(j, "teaching_points");
    var summary :- StringAt(j, "overall_summary");
    Success(Feedback(scores, strengths, misses, biases, teaching, summary))
  }

  lemma FeedbackAccepted(j: Json, f: Feedback)
    requires ValidFeedback(f) && CarriesFeedback(j, f)
    ensures ParseFeedback(j) == Success(f)
  {
    StringsOfEncoding(f.strengths, "strengths");
    StringsOfEncoding(f.misses, "misses");
    StringsOfEncoding(f.biases, "biases");
    StringsOfEncoding(f.teachingPoints, "teaching_points");
  }

  /** A value determines the feedback it carries. */
  lemma CarriedFeedbackUnique(j: Json, f: Feedback, g: Feedback)
    requires CarriesFeedback(j, f) && CarriesFeedback(j, g)
    ensures f == g
  {
    StringsInjective(f.strengths, g.strengths);
    StringsInjective(f.misses, g.misses);
    StringsInjective(f.biases, g.biases);
    StringsInjective(f.teachingPoints, g.teachingPoints);
  }

  lemma StringsInjective(a: seq<string>, b: seq<string>)
    requires StringsToJson(a) == StringsToJson(b)
    ensures a == b
  {
    assert |a| == |b|;
    assert forall i :: 0 <= i < |a| ==> JString(a[i]) == StringsToJson(a).items[i] == JString(b[i]);
  }

  /**
    The schema accepts a reply exactly when it carries feedback whose five
    scores lie in [1,5], and then returns that feedback unchanged: a score of
    3.5 stays 3.5, empty lists and an empty summary pass, nothing is clamped.
   */
  lemma FeedbackExact(j: Json, f: Feedback)
    ensures ParseFeedback(j) == Success(f) <==> ValidFeedback(f) && CarriesFeedback(j, f)
  {
    if ValidFeedback(f) && CarriesFeedback(j, f) {
      FeedbackAccepted(j, f);
    }
  }

  /** Encoding valid feedback and reading it back with the schema gives the same feedback. */
  lemma FeedbackRoundTrip(f: Feedback)
    requires ValidFeedback(f)
    ensures ParseFeedback(FeedbackToJson(f)) == Success(f)
  {
    EncodingCarriesFeedback(f);
    FeedbackAccepted(FeedbackToJson(f), f);
  }

  lemma EncodingCarriesFeedback(f: Feedback)
    ensures CarriesFeedback(FeedbackToJson(f), f)
  {
    assert CarriesScores(ScoresToJson(f.scores), f.scores);
  }

  /** A reply carrying any score outside [1,5] (0, 6, 5.5, ...) is refused. */
  lemma OutOfRangeScoreRejected(j: Json, f: Feedback)
    requires CarriesFeedback(j, f) && !ValidFeedback(f)
    ensures ParseFeedback(j).Failure?
  {
    if ParseFeedback(j).Success? {
      CarriedFeedbackUnique(j, f, ParseFeedback(j).value);
    }
  }

  // ----- Prompt rendering -----

  /** JavaScript's `array.join(sep)`. */
  function Join(parts: seq<string>, sep: string): string
  {
    if |parts| == 0 then ""
    else if |parts| == 1 then parts[0]
    else parts[0] + sep + Join(parts[1..], sep)
  }

  function DigitChar(d: nat): char
    requires d < 10
  {
    "0123456789"[d]
  }

  function NatText(n: nat): string
  {
    if n < 10 then [DigitChar(n)] else NatText(n / 10) + [DigitChar(n % 10)]
  }

  /** Up to `digits` decimal digits of a fraction in [0,1), without trailing zeros. */
  function FractionText(f: real, digits: nat): string
    requires 0.0 <= f < 1.0
    decreases digits
  {
    if f == 0.0 || digits == 0 then ""
    else
      var d := (f * 10.0).Floor;
      [DigitChar(d)] + FractionText(f * 10.0 - d as real, digits - 1)
  }

  /** A number as a template literal shows it: integers exactly, fractions to 15 places. */
  function NumberText(x: real): string
  {
    var m := if x < 0.0 then -x else x;
    var whole := m.Floor;
    var fraction := m - whole as real;
    (if x < 0.0 then "-" else "") + NatText(whole) + (if fraction == 0.0 then "" else "." + FractionText(fraction, 15))
  }

  function ExpectedDifferentialLine(d: DifferentialItem): string
  {
    "- " + NumberText(d.rank) + ". " + d.name + " (Life-threatening: " + (if d.lifeThreatening then "Yes" else "No") + ")"
    + "\n  Why it fits: " + d.whyFits + "\n  Why not: " + d.whyNot
  }

  /** The case's differential, one entry per line group, in the case's own order. */
  function ExpectedDifferentialText(ds: seq<DifferentialItem>): string
  {
    Join(seq(|ds|, i requires 0 <= i < |ds| => ExpectedDifferentialLine(ds[i])), "\n")
  }

  function StudentEntry(d: Diagnosis): string
  {
    "Rank " + NumberText(d.rank) + ": " + d.name + "\nJustification: " + d.justification
  }

  /** A learner's differential, entries separated by a blank line, in the order given. */
  function StudentDifferentialText(ds: seq<Diagnosis>): string
  {
    Join(seq(|ds|, i requires 0 <= i < |ds| => StudentEntry(ds[i])), "\n\n")
  }

  /** The updated differential, or "None provided" when the list is absent or renders as nothing. */
  function UpdatedDifferentialText(updated: Option<seq<Diagnosis>>): string
  {
    match updated
    case None => "None provided"
    case Some(ds) => var text := StudentDifferentialText(ds); if text == "" then "None provided" else text
  }

  /** A present, non-empty interpretation (a truthy string in JavaScript). */
  predicate HasInterpretation(a: UserAnswers)
  {
    a.step4Interpretation.Some? && a.step4Interpretation.value != ""
  }

  function Step4Block(a: UserAnswers): string
  {
    if HasInterpretation(a) then
      "Step 4 - Interpretation:\n" + a.step4Interpretation.value + "\n\nUpdated Differential:\n"
      + UpdatedDifferentialText(a.step4UpdatedDifferential)
    else ""
  }

  const SystemPrompt: string := @"You are a senior attending physician grading a medical student's clinical reasoning.

Your task is to evaluate the student's performance across a structured clinical case and provide comprehensive, actionable feedback.

EVALUATION CRITERIA:
1. Problem Representation (1-5): How well did the student identify and frame the clinical problem?
2. Differential Quality (1-5): How appropriate and comprehensive is the differential diagnosis?
3. Prioritization (1-5): Did the student correctly prioritize life-threatening conditions?
4. Data Interpretation (1-5): How well did the student interpret labs, imaging, and exam findings?
5. Clinical Safety (1-5): Did the student identify critical must-not-miss diagnoses and actions?

INSTRUCTIONS:
- Compare the student's reasoning to the gold standard provided
- Be strict but fair - this is formative assessment
- Identify specific strengths in their reasoning
- Point out missed elements or errors
- Detect cognitive biases (e.g., anchoring, premature closure, availability bias)
- Provide actionable teaching points
- Write an overall summary that synthesizes the evaluation

Return ONLY valid JSON matching this exact structure:
{
  ""scores"": {
    ""problem_representation"": 1-5,
    ""differential_quality"": 1-5,
    ""prioritization"": 1-5,
    ""data_interpretation"": 1-5,
    ""clinical_safety"": 1-5
  },
  ""strengths"": [""string"", ""string""],
  ""misses"": [""string"", ""string""],
  ""biases"": [""string""],
  ""teaching_points"": [""string"", ""string""],
  ""overall_summary"": ""string""
}"

  /** The case's three header lines. */
  function CaseHeader(title: string, specialty: string, difficulty: string): string
  {
    "Title: " + title + "\nSpecialty: " + specialty + "\nDifficulty: " + difficulty
  }

  /** The gold-standard half of the prompt. */
  function CaseSection(c: CaseData): string
  {
    var p := c.initialPresentation;
    var f := c.fullCase;
    var g := c.goldStandard;
    "GOLD STANDARD CASE:\n\n" + CaseHeader(c.title, c.specialty, DifficultyName(c.difficulty))
    + "\n\nInitial Presentation:\n- Age: " + NumberText(p.age) + "\n- Sex: " + p.sex
    + "\n- Chief Complaint: " + p.chiefComplaint + "\n- Vitals: " + p.vitals + "\n- Summary: " + p.summary
    + "\n\nFull Case:\nHistory: " + f.history + "\nPhysical Exam: " + f.exam + "\nLabs: " + f.labs
    + "\nImaging: " + f.imaging
    + "\n\nGold Standard:\nProblem Representation: " + g.problemRepresentation
    + "\nFinal Diagnosis: " + g.finalDiagnosis + "\nManagement: " + g.management
    + "\n\nExpected Differential (ranked):\n" + ExpectedDifferentialText(c.differential)
    + "\n\nRequired Actions:\nMust Not Miss: " + Join(c.requiredActions.mustNotMiss, ", ")
    + "\nIdeal: " + Join(c.requiredActions.ideal, ", ")
    + "\n\nCommon Mistakes: " + Join(c.commonMistakes, "; ")
    + "\nCognitive Bias Traps: " + Join(c.cognitiveBiasTraps, "; ")
  }

  /** The learner's answers up to the step-2 heading. */
  function StudentOpening(a: UserAnswers): string
  {
    "\n\n---\n\nSTUDENT RESPONSES:\n\nStep 1 - Problem Representation:\n" + a.step1ProblemRepresentation
    + "\n\nStep 2 - Differential Diagnosis:\n"
  }

  /** The learner's answers after the step-2 differential, and the closing instruction. */
  function StudentClosing(a: UserAnswers): string
  {
    "\n\nStep 3 - Next Step:\n" + a.step3NextStep
    + "\n\n" + Step4Block(a)
    + "\n\nStep 5 - Final Diagnosis:\n" + a.step5FinalDiagnosis
    + "\n\nStep 5 - Management Plan:\n" + a.step5Management
    + "\n\n---\n\nEvaluate this student's performance and provide feedback in the JSON format specified."
  }

  /** The transcript half of the prompt: the gold-standard case, then the five steps in order. */
  function UserPrompt(c: CaseData, a: UserAnswers): string
  {
    CaseSection(c) + StudentOpening(a) + StudentDifferentialText(a.step2Differential) + StudentClosing(a)
  }

  // ----- Calling the model -----

  /** What the chat-completion call gave back: it threw, or it answered with the first choice's content. */
  datatype ModelReply = CallFailed | Replied(content: Option<string>)

  const InvalidFeedbackFormat := "Invalid feedback format from AI"
  const FeedbackFailed := "Failed to generate feedback"

  /** The API key is read from the environment; absent or empty counts as missing. */
  predicate KeyConfigured(apiKey: Option<string>)
  {
    apiKey.Some? && apiKey.value != ""
  }

  /**
    What `generateFeedback` yields: a missing key, a failed call, an empty
    reply or text that is not JSON all become "Failed to generate feedback";
    JSON that misses the schema becomes "Invalid feedback format from AI";
    otherwise the parsed feedback is returned as it is.
   */
  function FeedbackOutcome(
    c: CaseData, a: UserAnswers, apiKey: Option<string>,
    complete: (string, string) -> ModelReply, parseJson: string -> Option<Json>): (r: Result<Feedback, string>)
    ensures r.Success? ==> ValidFeedback(r.value)
    ensures r.Failure? ==> r.error == InvalidFeedbackFormat || r.error == FeedbackFailed
  {
    if !KeyConfigured(apiKey) then Failure(FeedbackFailed)
    else ReplyOutcome(complete(SystemPrompt, UserPrompt(c, a)), parseJson)
  }

  /** What becomes of the model's reply: content check, JSON, schema. */
  function ReplyOutcome(reply: ModelReply, parseJson: string -> Option<Json>): (r: Result<Feedback, string>)
    ensures r.Success? ==> ValidFeedback(r.value)
    ensures r.Failure? ==> r.error == InvalidFeedbackFormat || r.error == FeedbackFailed
  {
    match reply
    case CallFailed => Failure(FeedbackFailed)
    case Replied(content) =>
      if content.None? || content.value == "" then Failure(FeedbackFailed)
      else
        match parseJson(content.value)
        case None => Failure(FeedbackFailed)
        case Some(j) =>
          match ParseFeedback(j)
          case Success(f) => Success(f)
          case Failure(_) => Failure(InvalidFeedbackFormat)
  }

  /** `generateFeedback`, stage by stage: client, call, content check, JSON, schema. */
  method GenerateFeedback(
    c: CaseData, a: UserAnswers, apiKey: Option<string>,
    complete: (string, string) -> ModelReply, parseJson: string -> Option<Json>) returns (r: Result<Feedback, string>)
    ensures r == FeedbackOutcome(c, a, apiKey, complete, parseJson)
  {
    if !KeyConfigured(apiKey) {
      return Failure(FeedbackFailed);
    }
    var userPrompt := UserPrompt(c, a);
    var reply := complete(SystemPrompt, userPrompt);
    if reply.CallFailed? || reply.content.None? || reply.content.value == "" {
      return Failure(FeedbackFailed);
    }
    var parsed := parseJson(reply.content.value);
    if parsed.None? {
      return Failure(FeedbackFailed);
    }
    var validated := ParseFeedback(parsed.value);
    if validated.Failure? {
      return Failure(InvalidFeedbackFormat);
    }
    r := Success(validated.value);
  }

  // ----- What the engine promises -----

  /** The text the model's reply, if any, parsed to. */
  function ParsedReply(reply: ModelReply, parseJson: string -> Option<Json>): Option<Json>
  {
    if reply.Replied? && reply.content.Some? && reply.content.value != "" then parseJson(reply.content.value)
    else None
  }

  /**
    "Invalid feedback format from AI" is reported exactly when the key was set
    and the model's reply parsed as JSON that the schema refuses; success means
    the same reply met the schema and the feedback is exactly what it carries.
   */
  lemma FeedbackOutcomeCases(
    c: CaseData, a: UserAnswers, apiKey: Option<string>,
    complete: (string, string) -> ModelReply, parseJson: string -> Option<Json>)
    ensures var r := FeedbackOutcome(c, a, apiKey, complete, parseJson);
      var parsed := ParsedReply(complete(SystemPrompt, UserPrompt(c, a)), parseJson);
      && (r == Failure(InvalidFeedbackFormat) <==>
            KeyConfigured(apiKey) && parsed.Some? && ParseFeedback(parsed.value).Failure?)
      && (r.Success? <==> KeyConfigured(apiKey) && parsed.Some? && ParseFeedback(parsed.value).Success?)
      && (r.Success? ==> CarriesFeedback(parsed.value, r.value) && ValidFeedback(r.value))
  {
    if KeyConfigured(apiKey) {
      ReplyOutcomeCases(complete(SystemPrompt, UserPrompt(c, a)), parseJson);
    }
  }

  lemma ReplyOutcomeCases(reply: ModelReply, parseJson: string -> Option<Json>)
    ensures var r := ReplyOutcome(reply, parseJson);
      var parsed := ParsedReply(reply, parseJson);
      && (r == Failure(InvalidFeedbackFormat) <==> parsed.Some? && ParseFeedback(parsed.value).Failure?)
      && (r.Success? <==> parsed.Some? && ParseFeedback(parsed.value).Success?)
      && (r.Success? ==> CarriesFeedback(parsed.value, r.value) && ValidFeedback(r.value))
  {
  }

  /** Every diagnosis name the learner ranked in step 2 appears in the prompt. */
  lemma PromptShowsStep2Names(c: CaseData, a: UserAnswers, i: nat)
    requires i < |a.step2Differential|
    ensures Contains(UserPrompt(c, a), a.step2Differential[i].name)
  {
    StudentDifferentialShowsNames(a.step2Differential, i);
    ContainsWithin(CaseSection(c) + StudentOpening(a), StudentDifferentialText(a.step2Differential),
      StudentClosing(a), a.step2Differential[i].name);
  }

  /** Each entry of a learner's differential shows its name. */
  lemma StudentDifferentialShowsNames(ds: seq<Diagnosis>, i: nat)
    requires i < |ds|
    ensures Contains(StudentDifferentialText(ds), ds[i].name)
  {
    var parts := seq(|ds|, k requires 0 <= k < |ds| => StudentEntry(ds[k]));
    JoinContainsPart(parts, "\n\n", i);
    assert parts[i] == StudentEntry(ds[i]);
    EntryShowsName(ds[i]);
    ContainsTransitive(StudentDifferentialText(ds), StudentEntry(ds[i]), ds[i].name);
  }

  lemma EntryShowsName(d: Diagnosis)
    ensures Contains(StudentEntry(d), d.name)
  {
    var before := "Rank " + NumberText(d.rank) + ": ";
    var after := "\nJustification: " + d.justification;
    assert StudentEntry(d) == before + d.name + after;
    ContainsSelf(d.name);
    ContainsWithin(before, d.name, after, d.name);
  }

  /** A part of a joined list occurs in the joined text. */
  lemma {:induction false} JoinContainsPart(parts: seq<string>, sep: string, i: nat)
    requires i < |parts|
    ensures Contains(Join(parts, sep), parts[i])
  {
    if |parts| == 1 {
      ContainsSelf(parts[0]);
    } else if i == 0 {
      ContainsSelf(parts[0]);
      ContainsWithin("", parts[0], sep + Join(parts[1..], sep), parts[0]);
      assert Join(parts, sep) == "" + parts[0] + (sep + Join(parts[1..], sep));
    } else {
      JoinContainsPart(parts[1..], sep, i - 1);
      ContainsWithin(parts[0] + sep, Join(parts[1..], sep), "", parts[i]);
      assert Join(parts, sep) == parts[0] + sep + Join(parts[1..], sep) + "";
    }
  }

  /** The case's id and teaching points never reach the prompt. */
  lemma PromptIgnoresIdAndTeachingPoints(c: CaseData, a: UserAnswers, id: string, points: seq<string>)
    ensures UserPrompt(c, a) == UserPrompt(c.(id := id, teachingPoints := points), a)
  {
  }

  /** Without a non-empty interpretation the step-4 block is empty, so the updated differential never shows. */
  lemma Step4OmittedWithoutInterpretation(a: UserAnswers, updated: Option<seq<Diagnosis>>)
    requires !HasInterpretation(a)
    ensures Step4Block(a) == ""
    ensures Step4Block(a) == Step4Block(a.(step4UpdatedDifferential := updated))
  {
  }

  lemma {:induction false} JoinStartsWithFirst(parts: seq<string>, sep: string)
    requires |parts| > 0
    ensures |Join(parts, sep)| >= |parts[0]| && Join(parts, sep)[..|parts[0]|] == parts[0]
  {
    if |parts| > 1 {
      assert Join(parts, sep) == parts[0] + (sep + Join(parts[1..], sep));
    }
  }

  /** "None provided" appears in the step-4 block exactly when the updated differential is absent or empty. */
  lemma NoneProvidedExactly(updated: Option<seq<Diagnosis>>)
    ensures UpdatedDifferentialText(updated) == "None provided" <==> updated.None? || updated.value == []
  {
    if updated.Some? && updated.value != [] {
      var ds := updated.value;
      var parts := seq(|ds|, i requires 0 <= i < |ds| => StudentEntry(ds[i]));
      JoinStartsWithFirst(parts, "\n\n");
      var text := Join(parts, "\n\n");
      assert parts[0] == StudentEntry(ds[0]);
      assert parts[0][0] == 'R';
      assert text[0] == text[..|parts[0]|][0] == 'R';
      assert "None provided"[0] == 'N';
    }
  }

  lemma {:induction false} JoinAppend(xs: seq<string>, ys: seq<string>, sep: string)
    requires |xs| > 0 && |ys| > 0
    ensures Join(xs + ys, sep) == Join(xs, sep) + sep + Join(ys, sep)
  {
    if |xs| == 1 {
      assert (xs + ys)[1..] == ys;
    } else {
      assert (xs + ys)[1..] == xs[1..] + ys;
      JoinAppend(xs[1..], ys, sep);
    }
  }

  /** The expected differential is rendered in the case's own order: no re-sorting by rank. */
  lemma ExpectedDifferentialInOrder(ds: seq<DifferentialItem>, es: seq<DifferentialItem>)
    requires |ds| > 0 && |es| > 0
    ensures ExpectedDifferentialText(ds + es) ==
      ExpectedDifferentialText(ds) + "\n" + ExpectedDifferentialText(es)
  {
    var f := (d: DifferentialItem) => ExpectedDifferentialLine(d);
    var xs := seq(|ds|, i requires 0 <= i < |ds| => ExpectedDifferentialLine(ds[i]));
    var ys := seq(|es|, i requires 0 <= i < |es| => ExpectedDifferentialLine(es[i]));
    var zs := ds + es;
    assert seq(|zs|, i requires 0 <= i < |zs| => ExpectedDifferentialLine(zs[i])) == xs + ys;
    JoinAppend(xs, ys, "\n");
  }

  /** A learner's entries are rendered in the order submitted, separated by a blank line. */
  lemma StudentDifferentialInOrder(ds: seq<Diagnosis>, es: seq<Diagnosis>)
    requires |ds| > 0 && |es| > 0
    ensures StudentDifferentialText(ds + es) ==
      StudentDifferentialText(ds) + "\n\n" + StudentDifferentialText(es)
  {
    var xs := seq(|ds|, i requires 0 <= i < |ds| => StudentEntry(ds[i]));
    var ys := seq(|es|, i requires 0 <= i < |es| => StudentEntry(es[i]));
    var zs := ds + es;
    assert seq(|zs|, i requires 0 <= i < |zs| => StudentEntry(zs[i])) == xs + ys;
    JoinAppend(xs, ys, "\n\n");
  }

  /** What any caller may rely on from the engine: valid feedback, or one of its two messages. */
  ghost predicate ReportsLikeEngine(grade: (CaseData, UserAnswers) -> Result<Feedback, string>)
  {
    forall c, a :: var r := grade(c, a);
      (r.Success? ==> ValidFeedback(r.value)) &&
      (r.Failure? ==> r.error == InvalidFeedbackFormat || r.error == FeedbackFailed)
  }

  /** The engine, with its key, model and JSON reader fixed, keeps that promise. */
  lemma EngineReportsLikeEngine(apiKey: Option<string>, complete: (string, string) -> ModelReply, parseJson: string -> Option<Json>)
    ensures ReportsLikeEngine((c, a) => FeedbackOutcome(c, a, apiKey, complete, parseJson))
  {
    forall c, a ensures var r := FeedbackOutcome(c, a, apiKey, complete, parseJson);
      (r.Success? ==> ValidFeedback(r.value)) &&
      (r.Failure? ==> r.error == InvalidFeedbackFormat || r.error == FeedbackFailed)
    {
      var r := FeedbackOutcome(c, a, apiKey, complete, parseJson);
    }
  }
}
