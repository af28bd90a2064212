/**
  The clinical case record and its schema check: `validateCaseData` parses an
  untyped JSON value into a `CaseData` or fails. Every object schema is a zod
  `z.object`: a listed key must be present with the right type, keys it does
  not list are dropped, and any violation anywhere fails the whole case.
 */
module CaseValidator {
  import opened Wrappers
  import opened Json

  datatype Difficulty = Beginner | Intermediate | Advanced

  datatype InitialPresentation = InitialPresentation(
    age: real, sex: string, chiefComplaint: string, vitals: string, summary: string)

  datatype FullCase = FullCase(history: string, exam: string, labs: string, imaging: string)

  datatype GoldStandard = GoldStandard(
    problemRepresentation: string, finalDiagnosis: string, management: string)

  datatype DifferentialItem = DifferentialItem(
    name: string, rank: real, whyFits: string, whyNot: string, lifeThreatening: bool)

  datatype RequiredActions = RequiredActions(mustNotMiss: seq<string>, ideal: seq<string>)

  datatype CaseData = CaseData(
    id: string,
    title: string,
    specialty: string,
    difficulty: Difficulty,
    initialPresentation: InitialPresentation,
    fullCase: FullCase,
    goldStandard: GoldStandard,
    differential: seq<DifferentialItem>,
    requiredActions: RequiredActions,
    commonMistakes: seq<string>,
    cognitiveBiasTraps: seq<string>,
    teachingPoints: seq<string>)

  function DifficultyName(d: Difficulty): string
  {
    match d
    case Beginner => "beginner"
    case Intermediate => "intermediate"
    case Advanced => "advanced"
  }

  // ----- Encoding: the JSON form of each record, as the catalog stores it -----

  function InitialPresentationToJson(p: InitialPresentation): Json
  {
    JObject(map[
      "age" := JNumber(p.age),
      "sex" := JString(p.sex),
      "chief_complaint" := JString(p.chiefComplaint),
      "vitals" := JString(p.vitals),
      "summary" := JString(p.summary)])
  }

  function FullCaseToJson(f: FullCase): Json
  {
    JObject(map[
      "history" := JString(f.history),
      "exam" := JString(f.exam),
      "labs" := JString(f.labs),
      "imaging" := JString(f.imaging)])
  }

  function GoldStandardToJson(g: GoldStandard): Json
  {
    JObject(map[
      "problem_representation" := JString(g.problemRepresentation),
      "final_diagnosis" := JString(g.finalDiagnosis),
      "management" := JString(g.management)])
  }

  function DifferentialItemToJson(d: DifferentialItem): Json
  {
    JObject(map[
      "name" := JString(d.name),
      "rank" := JNumber(d.rank),
      "why_fits" := JString(d.whyFits),
      "why_not" := JString(d.whyNot),
      "life_threatening" := JBool(d.lifeThreatening)])
  }

  function DifferentialToJson(ds: seq<DifferentialItem>): (j: Json)
    ensures j.JArray? && |j.items| == |ds|
    ensures forall i :: 0 <= i < |ds| ==> j.items[i] == DifferentialItemToJson(ds[i])
  {
    JArray(seq(|ds|, i requires 0 <= i < |ds| => DifferentialItemToJson(ds[i])))
  }

  function RequiredActionsToJson(a: RequiredActions): Json
  {
    JObject(map[
      "must_not_miss" := StringsToJson(a.mustNotMiss),
      "ideal" := StringsToJson(a.ideal)])
  }

  function CaseToJson(c: CaseData): Json
  {
    JObject(map[
      "id" := JString(c.id),
      "title" := JString(c.title),
      "specialty" := JString(c.specialty),
      "difficulty" := JString(DifficultyName(c.difficulty)),
      "initial_presentation" := InitialPresentationToJson(c.initialPresentation),
      "full_case" := FullCaseToJson(c.fullCase),
      "gold_standard" := GoldStandardToJson(c.goldStandard),
      "differential" := DifferentialToJson(c.differential),
      "required_actions" := RequiredActionsToJson(c.requiredActions),
      "common_mistakes" := StringsToJson(c.commonMistakes),
      "cognitive_bias_traps" := StringsToJson(c.cognitiveBiasTraps),
      "teaching_points" := StringsToJson(c.teachingPoints)])
  }

  // ----- What an input must hold for each record: the schema, key by key -----
  // A listed key must be present with the value's encoding; unlisted keys may hold anything.

  predicate CarriesPresentation(j: Json, p: InitialPresentation)
  {
    && j.JObject?
    && "age" in j.fields && j.fields["age"] == JNumber(p.age)
    && "sex" in j.fields && j.fields["sex"] == JString(p.sex)
    && "chief_complaint" in j.fields && j.fields["chief_complaint"] == JString(p.chiefComplaint)
    && "vitals" in j.fields && j.fields["vitals"] == JString(p.vitals)
    && "summary" in j.fields && j.fields["summary"] == JString(p.summary)
  }

  predicate CarriesFullCase(j: Json, f: FullCase)
  {
    && j.JObject?
    && "history" in j.fields && j.fields["history"] == JString(f.history)
    && "exam" in j.fields && j.fields["exam"] == JString(f.exam)
    && "labs" in j.fields && j.fields["labs"] == JString(f.labs)
    && "imaging" in j.fields && j.fields["imaging"] == JString(f.imaging)
  }

  predicate CarriesGoldStandard(j: Json, g: GoldStandard)
  {
    && j.JObject?
    && "problem_representation" in j.fields
    && j.fields["problem_representation"] == JString(g.problemRepresentation)
    && "final_diagnosis" in j.fields && j.fields["final_diagnosis"] == JString(g.finalDiagnosis)
    && "management" in j.fields && j.fields["management"] == JString(g.management)
  }

  predicate CarriesItem(j: Json, d: DifferentialItem)
  {
    && j.JObject?
    && "name" in j.fields && j.fields["name"] == JString(d.name)
    && "rank" in j.fields && j.fields["rank"] == JNumber(d.rank)
    && "why_fits" in j.fields && j.fields["why_fits"] == JString(d.whyFits)
    && "why_not" in j.fields && j.fields["why_not"] == JString(d.whyNot)
    && "life_threatening" in j.fields && j.fields["life_threatening"] == JBool(d.lifeThreatening)
  }

  predicate CarriesDifferential(items: seq<Json>, ds: seq<DifferentialItem>)
  {
    |items| == |ds| && forall i :: 0 <= i < |ds| ==> CarriesItem(items[i], ds[i])
  }

  predicate CarriesActions(j: Json, a: RequiredActions)
  {
    && j.JObject?
    && "must_not_miss" in j.fields && j.fields["must_not_miss"] == StringsToJson(a.mustNotMiss)
    && "ideal" in j.fields && j.fields["ideal"] == StringsToJson(a.ideal)
  }

  predicate CarriesCase(j: Json, c: CaseData)
  {
    && j.JObject?
    && "id" in j.fields && j.fields["id"] == JString(c.id)
    && "title" in j.fields && j.fields["title"] == JString(c.title)
    && "specialty" in j.fields && j.fields["specialty"] == JString(c.specialty)
    && "difficulty" in j.fields && j.fields["difficulty"] == JString(DifficultyName(c.difficulty))
    && "initial_presentation" in j.fields
    && CarriesPresentation(j.fields["initial_presentation"], c.initialPresentation)
    && "full_case" in j.fields && CarriesFullCase(j.fields["full_case"], c.fullCase)
    && "gold_standard" in j.fields && CarriesGoldStandard(j.fields["gold_standard"], c.goldStandard)
    && "differential" in j.fields && j.fields["differential"].JArray?
    && CarriesDifferential(j.fields["differential"].items, c.differential)
    && "required_actions" in j.fields && CarriesActions(j.fields["required_actions"], c.requiredActions)
    && "common_mistakes" in j.fields && j.fields["common_mistakes"] == StringsToJson(c.commonMistakes)
    && "cognitive_bias_traps" in j.fields
    && j.fields["cognitive_bias_traps"] == StringsToJson(c.cognitiveBiasTraps)
    && "teaching_points" in j.fields && j.fields["teaching_points"] == StringsToJson(c.teachingPoints)
  }

  // ----- Parsing: one function per zod schema -----

  /** The closed enumeration: exactly one of the three names, nothing else. */
  function ParseDifficulty(j: Json): (r: Result<Difficulty, SchemaError>)
    ensures r.Success? <==>
      j == JString("beginner") || j == JString("intermediate") || j == JString("advanced")
    ensures r.Success? ==> j == JString(DifficultyName(r.value))
  {
    if j == JString("beginner") then Success(Beginner)
    else if j == JString("intermediate") then Success(Intermediate)
    else if j == JString("advanced") then Success(Advanced)
    else Failure(SchemaError("difficulty"))
  }

  function ParseInitialPresentation(j: Json): (r: Result<InitialPresentation, SchemaError>)
    ensures r.Success? ==> CarriesPresentation(j, r.value)
    ensures forall p :: CarriesPresentation(j, p) ==> r == Success(p)
  {
    var age :- NumberAt(j, "age");
    var sex :- StringAt(j, "sex");
    var complaint :- StringAt(j, "chief_complaint");
    var vitals :- StringAt(j, "vitals");
    var summary :- StringAt(j, "summary");
    Success(InitialPresentation(age, sex, complaint, vitals, summary))
  }

  function ParseFullCase(j: Json): (r: Result<FullCase, SchemaError>)
    ensures r.Success? ==> CarriesFullCase(j, r.value)
    ensures forall f :: CarriesFullCase(j, f) ==> r == Success(f)
  {
    var history :- StringAt(j, "history");
    var exam :- StringAt(j, "exam");
    var labs :- StringAt(j, "labs");
    var imaging :- StringAt(j, "imaging");
    Success(FullCase(history, exam, labs, imaging))
  }

  function ParseGoldStandard(j: Json): (r: Result<GoldStandard, SchemaError>)
    ensures r.Success? ==> CarriesGoldStandard(j, r.value)
    ensures forall g :: CarriesGoldStandard(j, g) ==> r == Success(g)
  {
    var problem :- StringAt(j, "problem_representation");
    var diagnosis :- StringAt(j, "final_diagnosis");
    var management :- StringAt(j, "management");
    Success(GoldStandard(problem, diagnosis, management))
  }

  /** `rank` must be a number and `life_threatening` a boolean; no range or integrality rule. */
  function ParseDifferentialItem(j: Json): (r: Result<DifferentialItem, SchemaError>)
    ensures r.Success? ==> CarriesItem(j, r.value)
    ensures forall d :: CarriesItem(j, d) ==> r == Success(d)
  {
    var name :- StringAt(j, "name");
    var rank :- NumberAt(j, "rank");
    var whyFits :- StringAt(j, "why_fits");
    var whyNot :- StringAt(j, "why_not");
    var lifeThreatening :- BoolAt(j, "life_threatening");
    Success(DifferentialItem(name, rank, whyFits, whyNot, lifeThreatening))
  }

  /** `z.array(DifferentialItemSchema)`: every element must pass, or the list fails. */
  function ParseDifferential(items: seq<Json>): (r: Result<seq<DifferentialItem>, SchemaError>)
    ensures r.Success? <==> forall i :: 0 <= i < |items| ==> ParseDifferentialItem(items[i]).Success?
    ensures r.Success? ==> CarriesDifferential(items, r.value)
  {
    if items == [] then Success([])
    else
      var first :- ParseDifferentialItem(items[0]);
      var rest :- ParseDifferential(items[1..]);
      assert forall i :: 1 <= i < |items| ==> items[i] == items[1..][i - 1];
      Success([first] + rest)
  }

  function ParseRequiredActions(j: Json): (r: Result<RequiredActions, SchemaError>)
    ensures r.Success? ==> CarriesActions(j, r.value)
  {
    var mustNotMissItems :- ArrayAt(j, "must_not_miss");
    var mustNotMiss :- Strings(mustNotMissItems, "must_not_miss");
    var idealItems :- ArrayAt(j, "ideal");
    var ideal :- Strings(idealItems, "ideal");
    Success(RequiredActions(mustNotMiss, ideal))
  }

  lemma {:induction false} DifferentialAccepted(items: seq<Json>, ds: seq<DifferentialItem>)
    requires CarriesDifferential(items, ds)
    ensures ParseDifferential(items) == Success(ds)
  {
    if items != [] {
      assert CarriesItem(items[0], ds[0]);
      assert CarriesDifferential(items[1..], ds[1..]) by {
        forall i | 0 <= i < |ds[1..]| ensures CarriesItem(items[1..][i], ds[1..][i]) {
          assert CarriesItem(items[i + 1], ds[i + 1]);
        }
      }
      DifferentialAccepted(items[1..], ds[1..]);
      assert ds == [ds[0]] + ds[1..];
    }
  }

  lemma ActionsAccepted(j: Json, a: RequiredActions)
    requires CarriesActions(j, a)
    ensures ParseRequiredActions(j) == Success(a)
  {
    StringsOfEncoding(a.mustNotMiss, "must_not_miss");
    StringsOfEncoding(a.ideal, "ideal");
  }

  /** `validateCaseData`: the whole case, or a failure; never a partial case. */
  function ValidateCaseData(j: Json): Result<CaseData, SchemaError>
  {
    var id :- StringAt(j, "id");
    var title :- StringAt(j, "title");
    var specialty :- StringAt(j, "specialty");
    var difficultyJson :- MemberAt(j, "difficulty");
    var difficulty :- ParseDifficulty(difficultyJson);
    var presentationJson :- MemberAt(j, "initial_presentation");
    var presentation :- ParseInitialPresentation(presentationJson);
    var fullCaseJson :- MemberAt(j, "full_case");
    var fullCase :- ParseFullCase(fullCaseJson);
    var goldJson :- MemberAt(j, "gold_standard");
    var gold :- ParseGoldStandard(goldJson);
    var differentialItems :- ArrayAt(j, "differential");
    var differential :- ParseDifferential(differentialItems);
    var actionsJson :- MemberAt(j, "required_actions");
    var actions :- ParseRequiredActions(actionsJson);
    var mistakes :- StringListAt(j, "common_mistakes");
    var traps :- StringListAt(j, "cognitive_bias_traps");
    var teaching :- StringListAt(j, "teaching_points");
    Success(CaseData(id, title, specialty, difficulty, presentation, fullCase, gold,
                     differential, actions, mistakes, traps, teaching))
  }

  // ----- What validation promises -----

  /**
    Validation returns `c` exactly when the input carries every field of `c`:
    on success nothing is invented or altered (only unknown keys are dropped),
    and no value that carries its fields is refused, whatever its strings or
    numbers are (an empty title, a rank of 0, a negative age all pass).
   */
  lemma ValidateExact(j: Json, c: CaseData)
    ensures ValidateCaseData(j) == Success(c) <==> CarriesCase(j, c)
  {
    if ValidateCaseData(j) == Success(c) {
      ValidatedCarries(j);
    }
    if CarriesCase(j, c) {
      CarriedValidates(j, c);
    }
  }

  lemma ValidatedCarries(j: Json)
    requires ValidateCaseData(j).Success?
    ensures CarriesCase(j, ValidateCaseData(j).value)
  {
    var c := ValidateCaseData(j).value;
    var f := j.fields;
    assert c.id == f["id"].s && f["id"].JString?;
    assert c.title == f["title"].s && f["title"].JString?;
    assert c.specialty == f["specialty"].s && f["specialty"].JString?;
    assert ParseDifficulty(f["difficulty"]) == Success(c.difficulty);
    assert ParseInitialPresentation(f["initial_presentation"]) == Success(c.initialPresentation);
    assert ParseFullCase(f["full_case"]) == Success(c.fullCase);
    assert ParseGoldStandard(f["gold_standard"]) == Success(c.goldStandard);
    assert ParseDifferential(f["differential"].items) == Success(c.differential);
    assert ParseRequiredActions(f["required_actions"]) == Success(c.requiredActions);
    assert StringListAt(j, "common_mistakes") == Success(c.commonMistakes);
    assert StringListAt(j, "cognitive_bias_traps") == Success(c.cognitiveBiasTraps);
    assert StringListAt(j, "teaching_points") == Success(c.teachingPoints);
  }

  lemma CarriedValidates(j: Json, c: CaseData)
    requires CarriesCase(j, c)
    ensures ValidateCaseData(j) == Success(c)
  {
    var f := j.fields;
    assert ParseDifficulty(f["difficulty"]) == Success(c.difficulty) by {
      match c.difficulty
      case Beginner =>
      case Intermediate =>
      case Advanced =>
    }
    DifferentialAccepted(f["differential"].items, c.differential);
    ActionsAccepted(f["required_actions"], c.requiredActions);
    StringListAccepted(j, "common_mistakes", c.commonMistakes);
    StringListAccepted(j, "cognitive_bias_traps", c.cognitiveBiasTraps);
    StringListAccepted(j, "teaching_points", c.teachingPoints);
  }

  /** Validating the JSON form of an already valid case gives that case back: validation is idempotent. */
  lemma ValidateIdempotent(c: CaseData)
    ensures ValidateCaseData(CaseToJson(c)) == Success(c)
  {
    EncodingCarries(c);
    CarriedValidates(CaseToJson(c), c);
  }

  lemma EncodingCarries(c: CaseData)
    ensures CarriesCase(CaseToJson(c), c)
  {
    PartEncodingsCarry(c);
    DifferentialEncodingCarries(c.differential);
  }

  lemma PartEncodingsCarry(c: CaseData)
    ensures CarriesPresentation(InitialPresentationToJson(c.initialPresentation), c.initialPresentation)
    ensures CarriesFullCase(FullCaseToJson(c.fullCase), c.fullCase)
    ensures CarriesGoldStandard(GoldStandardToJson(c.goldStandard), c.goldStandard)
    ensures CarriesActions(RequiredActionsToJson(c.requiredActions), c.requiredActions)
  {
    assert CarriesPresentation(InitialPresentationToJson(c.initialPresentation), c.initialPresentation);
    assert CarriesFullCase(FullCaseToJson(c.fullCase), c.fullCase);
    assert CarriesGoldStandard(GoldStandardToJson(c.goldStandard), c.goldStandard);
  }

  lemma DifferentialEncodingCarries(ds: seq<DifferentialItem>)
    ensures CarriesDifferential(DifferentialToJson(ds).items, ds)
  {
    forall i | 0 <= i < |ds| ensures CarriesItem(DifferentialToJson(ds).items[i], ds[i]) {
      ItemEncodingCarries(ds[i]);
    }
  }

  lemma ItemEncodingCarries(d: DifferentialItem)
    ensures CarriesItem(DifferentialItemToJson(d), d)
  {
  }

  /** A validated case had one of the three difficulty names, verbatim. */
  lemma DifficultyClosed(j: Json)
    requires ValidateCaseData(j).Success?
    ensures j.JObject? && "difficulty" in j.fields
    ensures j.fields["difficulty"] in {JString("beginner"), JString("intermediate"), JString("advanced")}
  {
    ValidatedCarries(j);
    match ValidateCaseData(j).value.difficulty
    case Beginner =>
    case Intermediate =>
    case Advanced =>
  }

  /** A violation inside any nested record or any single differential item fails the whole case. */
  lemma NestedViolationFails(j: Json)
    requires j.JObject?
    requires
      || ("initial_presentation" in j.fields && ParseInitialPresentation(j.fields["initial_presentation"]).Failure?)
      || ("full_case" in j.fields && ParseFullCase(j.fields["full_case"]).Failure?)
      || ("gold_standard" in j.fields && ParseGoldStandard(j.fields["gold_standard"]).Failure?)
      || ("required_actions" in j.fields && ParseRequiredActions(j.fields["required_actions"]).Failure?)
      || ("differential" in j.fields && j.fields["differential"].JArray? &&
          exists i :: 0 <= i < |j.fields["differential"].items| &&
            ParseDifferentialItem(j.fields["differential"].items[i]).Failure?)
    ensures ValidateCaseData(j).Failure?
  {
    if ValidateCaseData(j).Success? {
      var c := ValidateCaseData(j).value;
      ValidatedCarries(j);
      if "required_actions" in j.fields && ParseRequiredActions(j.fields["required_actions"]).Failure? {
        ActionsAccepted(j.fields["required_actions"], c.requiredActions);
      }
      assert false;
    }
  }
}
