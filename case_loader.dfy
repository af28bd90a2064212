/**
  Reading a case back from the cases table (`getCaseById`). The import
  script keeps a case's title, specialty and difficulty in columns of their
  own and stores everything else as the `case_data` column; the loader finds
  the row by id and rebuilds the case the route then grades. A missing row
  makes the query fail, and the loader throws with the query's message.
 */
module CaseLoader {
  import opened Wrappers
  import opened Json
  import opened CaseValidator
  import opened ImportCases
  import opened FeedbackEngine

  /** The `case_data` column as the import script writes it: the case without id, title, specialty or difficulty. */
  function StoredJson(b: CaseBody): (j: Json)
    ensures j.JObject?
    ensures "id" !in j.fields && "title" !in j.fields && "specialty" !in j.fields && "difficulty" !in j.fields
  {
    JObject(map[
      "initial_presentation" := InitialPresentationToJson(b.initialPresentation),
      "full_case" := FullCaseToJson(b.fullCase),
      "gold_standard" := GoldStandardToJson(b.goldStandard),
      "differential" := DifferentialToJson(b.differential),
      "required_actions" := RequiredActionsToJson(b.requiredActions),
      "common_mistakes" := StringsToJson(b.commonMistakes),
      "cognitive_bias_traps" := StringsToJson(b.cognitiveBiasTraps),
      "teaching_points" := StringsToJson(b.teachingPoints)])
  }

  /** The row with the id, if any; `id` is the table's key. */
  function FindRow(catalog: seq<CatalogRow>, id: string): (r: Option<CatalogRow>)
    ensures r.Some? ==> r.value in catalog && r.value.id == id
    ensures r.None? <==> forall row <- catalog :: row.id != id
  {
    if |catalog| == 0 then None
    else if catalog[0].id == id then Some(catalog[0])
    else FindRow(catalog[1..], id)
  }

  /** How a template literal shows a field of the loaded object: a missing field prints "undefined". */
  function FieldText(j: Json, key: string): string
  {
    if j.JObject? && key in j.fields && j.fields[key].JString? then j.fields[key].s else "undefined"
  }

  /** The prompt's header lines for a loaded object. */
  function LoadedHeader(j: Json): string
  {
    CaseHeader(FieldText(j, "title"), FieldText(j, "specialty"), FieldText(j, "difficulty"))
  }

  // ----- As written: only `case_data` is selected -----

  /** `getCaseById` as written: `{ id, ...data.case_data }`, or the query's failure. */
  function LoadAsWritten(catalog: seq<CatalogRow>, id: string, queryError: string): Result<Json, string>
  {
    match FindRow(catalog, id)
    case None => Failure("Failed to fetch case: " + queryError)
    case Some(row) => Success(JObject(StoredJson(row.caseData).fields["id" := JString(id)]))
  }

  /**
    Every case the import script stored loads without its title, specialty
    and difficulty: the object does not meet the case schema, and the prompt
    header reads "undefined" three times instead of the case's own values.
   */
  lemma LoadedCaseLosesHeader(catalog: seq<CatalogRow>, id: string, queryError: string, c: CaseData)
    requires FindRow(catalog, id) == Some(RowOf(id, c))
    ensures LoadAsWritten(catalog, id, queryError).Success?
    ensures var j := LoadAsWritten(catalog, id, queryError).value;
      && j.JObject? && "title" !in j.fields && "specialty" !in j.fields && "difficulty" !in j.fields
      && ValidateCaseData(j).Failure?
      && LoadedHeader(j) == CaseHeader("undefined", "undefined", "undefined")
      && LoadedHeader(j) != CaseHeader(c.title, c.specialty, DifficultyName(c.difficulty))
  {
    var j := LoadAsWritten(catalog, id, queryError).value;
    assert "title" !in j.fields && "specialty" !in j.fields && "difficulty" !in j.fields;
    assert FieldText(j, "title") == FieldText(j, "specialty") == FieldText(j, "difficulty") == "undefined";
    if ValidateCaseData(j).Success? {
      ValidatedCarries(j);
      assert false;
    }
    HeaderShowsDifficulty(c.title, c.specialty, c.difficulty);
  }

  /** No difficulty name ends the way "undefined" does, so the two headers always differ. */
  lemma HeaderShowsDifficulty(title: string, specialty: string, d: Difficulty)
    ensures CaseHeader(title, specialty, DifficultyName(d)) != CaseHeader("undefined", "undefined", "undefined")
  {
    var shown := CaseHeader(title, specialty, DifficultyName(d));
    var missing := CaseHeader("undefined", "undefined", "undefined");
    var name := DifficultyName(d);
    assert shown == "Title: " + title + "\nSpecialty: " + specialty + "\nDifficulty: " + name;
    assert missing[|missing| - 3] == 'n';
    assert missing[|missing| - 1] == 'd';
    if |shown| == |missing| {
      assert shown[|shown| - 3] == name[|name| - 3];
      assert shown[|shown| - 1] == name[|name| - 1];
      match d
      case Beginner => assert name[|name| - 1] == 'r';
      case Intermediate => assert name[|name| - 1] == 'e';
      case Advanced => assert name[|name| - 3] == 'c';
    }
  }

  // ----- Corrected: the header columns are selected too -----

  /** `getCaseById` with the row's own columns: `{ id, title, specialty, difficulty, ...data.case_data }`. */
  function LoadCaseJson(catalog: seq<CatalogRow>, id: string, queryError: string): Result<Json, string>
  {
    match FindRow(catalog, id)
    case None => Failure("Failed to fetch case: " + queryError)
    case Some(row) => Success(RowJson(id, row))
  }

  /** The row's columns spread together with its stored body. */
  function RowJson(id: string, row: CatalogRow): Json
  {
    JObject(StoredJson(row.caseData).fields
      ["id" := JString(id)]
      ["title" := JString(row.title)]
      ["specialty" := JString(row.specialty)]
      ["difficulty" := JString(DifficultyName(row.difficulty))])
  }

  /** The case a row holds. */
  function CaseOfRow(row: CatalogRow): CaseData
  {
    var b := row.caseData;
    CaseData(row.id, row.title, row.specialty, row.difficulty, b.initialPresentation, b.fullCase,
      b.goldStandard, b.differential, b.requiredActions, b.commonMistakes, b.cognitiveBiasTraps, b.teachingPoints)
  }

  /** The case lookup the attempts route runs against the cases table. */
  function LookupCase(catalog: seq<CatalogRow>, queryError: string): string -> Result<CaseData, string>
  {
    id => match FindRow(catalog, id)
      case None => Failure("Failed to fetch case: " + queryError)
      case Some(row) => Success(CaseOfRow(row))
  }

  /**
    The corrected loader's object carries the row's case, so the cast to a
    case is truthful: the case schema accepts it as exactly that case.
   */
  lemma LoadedJsonIsCase(catalog: seq<CatalogRow>, id: string, queryError: string)
    requires FindRow(catalog, id).Some?
    ensures LoadCaseJson(catalog, id, queryError).Success?
    ensures ValidateCaseData(LoadCaseJson(catalog, id, queryError).value) == Success(LookupCase(catalog, queryError)(id).value)
  {
    var row := FindRow(catalog, id).value;
    RowJsonCarries(row);
    CarriedValidates(RowJson(id, row), CaseOfRow(row));
  }

  lemma RowJsonCarries(row: CatalogRow)
    ensures CarriesCase(RowJson(row.id, row), CaseOfRow(row))
  {
    var c := CaseOfRow(row);
    PartEncodingsCarry(c);
    DifferentialEncodingCarries(c.differential);
  }

  /**
    A case the import script stored comes back as that case under its new id,
    and the prompt header shows its own title, specialty and difficulty.
   */
  lemma LoadedCaseIsStoredCase(catalog: seq<CatalogRow>, id: string, queryError: string, c: CaseData)
    requires FindRow(catalog, id) == Some(RowOf(id, c))
    ensures LookupCase(catalog, queryError)(id) == Success(c.(id := id))
    ensures LoadedHeader(LoadCaseJson(catalog, id, queryError).value)
      == CaseHeader(c.title, c.specialty, DifficultyName(c.difficulty))
  {
  }

  /** A case id with no row is a failure carrying the query's message. */
  lemma UnknownIdFails(catalog: seq<CatalogRow>, id: string, queryError: string)
    requires forall row <- catalog :: row.id != id
    ensures LookupCase(catalog, queryError)(id) == Failure("Failed to fetch case: " + queryError)
    ensures LoadAsWritten(catalog, id, queryError) == Failure("Failed to fetch case: " + queryError)
  {
  }
}
