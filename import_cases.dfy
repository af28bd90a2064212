/**
  The case-import script: take the directory listing, keep the case files,
  and for each one read, parse and validate it, give it a fresh id, skip it
  if the catalog already holds its title, and otherwise insert it, counting
  successes and errors as it goes. The file system, `JSON.parse`, the UUID
  generator and the database are given as functions; the catalog is the
  sequence of rows in the cases table.
 */
module ImportCases {
  import opened Wrappers
  import opened Json
  import opened CaseValidator

  /** Everything of a case except the four columns stored beside it. */
  datatype CaseBody = CaseBody(
    initialPresentation: InitialPresentation,
    fullCase: FullCase,
    goldStandard: GoldStandard,
    differential: seq<DifferentialItem>,
    requiredActions: RequiredActions,
    commonMistakes: seq<string>,
    cognitiveBiasTraps: seq<string>,
    teachingPoints: seq<string>)

  /** A row of the cases table. */
  datatype CatalogRow = CatalogRow(id: string, title: string, specialty: string, difficulty: Difficulty, caseData: CaseBody)

  /**
    The outside world as the script sees it: the contents of a file parsed
    as JSON (None if it cannot be read or parsed), the id generated for the
    k-th case file, and whether the insert for the k-th case file succeeds.
   */
  datatype Sources = Sources(read: string -> Option<Json>, freshId: nat -> string, insertOk: nat -> bool)

  /** The result of a run so far; `skipped` is not printed by the script but accounts for the rest. */
  datatype Tally = Tally(catalog: seq<CatalogRow>, successes: nat, errors: nat, skipped: nat)

  // ----- The file filter -----

  predicate IsCaseFile(name: string)
  {
    EndsWith(name, ".json") && name != "example-case.json"
  }

  /** The listing's case files, in listing order. */
  function CaseFiles(listing: seq<string>): (files: seq<string>)
    ensures forall f :: f in files <==> f in listing && IsCaseFile(f)
    ensures |files| <= |listing|
  {
    if |listing| == 0 then []
    else (if IsCaseFile(listing[0]) then [listing[0]] else []) + CaseFiles(listing[1..])
  }

  // ----- One file, and a run -----

  /** `const { id, title, specialty, difficulty, ...caseDataJson } = validated` */
  function BodyOf(c: CaseData): CaseBody
  {
    CaseBody(c.initialPresentation, c.fullCase, c.goldStandard, c.differential,
      c.requiredActions, c.commonMistakes, c.cognitiveBiasTraps, c.teachingPoints)
  }

  /** The row inserted for a validated case: the generated id replaces the file's own. */
  function RowOf(id: string, c: CaseData): (row: CatalogRow)
    ensures row.id == id && row.title == c.title && row.specialty == c.specialty && row.difficulty == c.difficulty
  {
    CatalogRow(id, c.title, c.specialty, c.difficulty, BodyOf(c))
  }

  /** How many catalog rows carry the title. */
  function TitleCount(rows: seq<CatalogRow>, title: string): nat
  {
    if |rows| == 0 then 0
    else TitleCount(rows[..|rows| - 1], title) + (if rows[|rows| - 1].title == title then 1 else 0)
  }

  /**
    `select(...).eq('title', ...).maybeSingle()` finds an existing case only
    when exactly one row matches; with none, or with several (an error the
    script does not look at), `existing` is null.
   */
  predicate FindsExisting(rows: seq<CatalogRow>, title: string)
  {
    TitleCount(rows, title) == 1
  }

  /**
    The validated case a file holds, if it could be read, parsed and
    validated. The run below is stated for any validator; the script's is
    `ValidateCaseData`.
   */
  function Validated(content: Option<Json>, validate: Json -> Result<CaseData, SchemaError>): Option<CaseData>
  {
    if content.Some? && validate(content.value).Success? then Some(validate(content.value).value) else None
  }

  /** The effect of the k-th case file on the tally. */
  function Step(t: Tally, k: nat, file: string, src: Sources, validate: Json -> Result<CaseData, SchemaError>): Tally
  {
    var validated := Validated(src.read(file), validate);
    if validated.None? then t.(errors := t.errors + 1)
    else
      var c := validated.value;
      if FindsExisting(t.catalog, c.title) then t.(skipped := t.skipped + 1)
      else if src.insertOk(k) then t.(catalog := t.catalog + [RowOf(src.freshId(k), c)], successes := t.successes + 1)
      else t.(errors := t.errors + 1)
  }

  /** The tally after the first `n` case files. */
  function Run(files: seq<string>, n: nat, src: Sources, catalog: seq<CatalogRow>, validate: Json -> Result<CaseData, SchemaError>): Tally
    requires n <= |files|
  {
    if n == 0 then Tally(catalog, 0, 0, 0)
    else Step(Run(files, n - 1, src, catalog, validate), n - 1, files[n - 1], src, validate)
  }

  /** `importCases`: counters start at zero and the loop visits every case file once, in order. */
  method ImportCases(listing: seq<string>, src: Sources, catalog0: seq<CatalogRow>)
    returns (catalog: seq<CatalogRow>, successCount: nat, errorCount: nat)
    ensures var files := CaseFiles(listing);
      var t := Run(files, |files|, src, catalog0, ValidateCaseData);
      catalog == t.catalog && successCount == t.successes && errorCount == t.errors
    ensures |CaseFiles(listing)| == 0 ==> catalog == catalog0 && successCount == 0 && errorCount == 0
  {
    catalog, successCount, errorCount := catalog0, 0, 0;
    var files := CaseFiles(listing);
    if |files| == 0 {
      return;
    }
    ghost var skipped := 0;
    var i := 0;
    while i < |files|
      invariant 0 <= i <= |files|
      invariant Tally(catalog, successCount, errorCount, skipped) == Run(files, i, src, catalog0, ValidateCaseData)
    {
      var k := i;
      i := i + 1;
      var content := src.read(files[k]);
      if content.None? {
        errorCount := errorCount + 1;
        continue;
      }
      var validated := ValidateCaseData(content.value);
      if validated.Failure? {
        errorCount := errorCount + 1;
        continue;
      }
      var c := validated.value;
      var caseId := src.freshId(k);
      if FindsExisting(catalog, c.title) {
        skipped := skipped + 1;
        continue;
      }
      if src.insertOk(k) {
        catalog := catalog + [RowOf(caseId, c)];
        successCount := successCount + 1;
      } else {
        errorCount := errorCount + 1;
      }
    }
  }

  // ----- What a run promises -----

  /** Every case file lands in exactly one outcome. */
  lemma {:induction false} RunAccountsForEveryFile(files: seq<string>, n: nat, src: Sources, catalog: seq<CatalogRow>, validate: Json -> Result<CaseData, SchemaError>)
    requires n <= |files|
    ensures var t := Run(files, n, src, catalog, validate); t.successes + t.errors + t.skipped == n
  {
    if n > 0 {
      RunAccountsForEveryFile(files, n - 1, src, catalog, validate);
    }
  }

  /** The k-th case file produced this row. */
  predicate ImportedFrom(row: CatalogRow, files: seq<string>, k: nat, src: Sources, validate: Json -> Result<CaseData, SchemaError>)
    requires k < |files|
  {
    var validated := Validated(src.read(files[k]), validate);
    validated.Some? && row == RowOf(src.freshId(k), validated.value)
  }

  /** The catalog only grows, by exactly one row per success; earlier rows are never touched. */
  lemma {:induction false} RunOnlyAppends(files: seq<string>, n: nat, src: Sources, catalog: seq<CatalogRow>, validate: Json -> Result<CaseData, SchemaError>)
    requires n <= |files|
    ensures var t := Run(files, n, src, catalog, validate);
      |t.catalog| == |catalog| + t.successes && t.catalog[..|catalog|] == catalog
  {
    if n > 0 {
      RunOnlyAppends(files, n - 1, src, catalog, validate);
      var before := Run(files, n - 1, src, catalog, validate);
      var after := Run(files, n, src, catalog, validate);
      assert after.catalog[..|before.catalog|] == before.catalog;
      assert after.catalog[..|catalog|] == before.catalog[..|catalog|];
    }
  }

  /** One file adds at most one row, and only the row for its own validated case. */
  lemma StepAppendsImported(t: Tally, files: seq<string>, k: nat, src: Sources, validate: Json -> Result<CaseData, SchemaError>)
    requires k < |files|
    ensures var t' := Step(t, k, files[k], src, validate);
      || t'.catalog == t.catalog
      || (|t'.catalog| == |t.catalog| + 1 && t'.catalog[..|t.catalog|] == t.catalog
          && ImportedFrom(t'.catalog[|t.catalog|], files, k, src, validate))
  {
    var t' := Step(t, k, files[k], src, validate);
    if t'.catalog != t.catalog {
      assert t'.catalog[..|t.catalog|] == t.catalog;
    }
  }

  /** One of the first `n` case files produced this row. */
  predicate FromFileBefore(row: CatalogRow, files: seq<string>, n: nat, src: Sources, validate: Json -> Result<CaseData, SchemaError>)
    requires n <= |files|
  {
    exists k :: 0 <= k < n && ImportedFrom(row, files, k, src, validate)
  }

  /** Every row a run adds is a validated case file stored under the id generated for it. */
  lemma {:induction false} NewRowsComeFromFiles(files: seq<string>, n: nat, src: Sources, catalog: seq<CatalogRow>, validate: Json -> Result<CaseData, SchemaError>)
    requires n <= |files|
    ensures var t := Run(files, n, src, catalog, validate);
      forall m :: |catalog| <= m < |t.catalog| ==> FromFileBefore(t.catalog[m], files, n, src, validate)
  {
    var after := Run(files, n, src, catalog, validate);
    if n == 0 {
      assert after.catalog == catalog;
    } else {
      NewRowsComeFromFiles(files, n - 1, src, catalog, validate);
      var before := Run(files, n - 1, src, catalog, validate);
      assert var t := Run(files, n - 1, src, catalog, validate);
        forall m :: |catalog| <= m < |t.catalog| ==> FromFileBefore(t.catalog[m], files, n - 1, src, validate);
      assert forall m :: |catalog| <= m < |before.catalog| ==> FromFileBefore(before.catalog[m], files, n - 1, src, validate);
      assert after == Step(before, n - 1, files[n - 1], src, validate);
      StepAppendsImported(before, files, n - 1, src, validate);
      forall m | |catalog| <= m < |after.catalog|
        ensures FromFileBefore(after.catalog[m], files, n, src, validate)
      {
        if m < |before.catalog| {
          assert after.catalog[m] == before.catalog[m];
          assert FromFileBefore(before.catalog[m], files, n - 1, src, validate);
          var k :| 0 <= k < n - 1 && ImportedFrom(before.catalog[m], files, k, src, validate);
          assert ImportedFrom(after.catalog[m], files, k, src, validate);
        } else {
          assert ImportedFrom(after.catalog[m], files, n - 1, src, validate);
        }
      }
    }
  }

  lemma TitleCountAppend(rows: seq<CatalogRow>, row: CatalogRow, title: string)
    ensures TitleCount(rows + [row], title) == TitleCount(rows, title) + (if row.title == title then 1 else 0)
  {
    assert (rows + [row])[..|rows|] == rows;
  }

  /** No title is held by more than one row. */
  ghost predicate TitlesUnique(rows: seq<CatalogRow>)
  {
    forall title :: TitleCount(rows, title) <= 1
  }

  /**
    Starting from a catalog without repeated titles, a run never adds one,
    even when several files of the run share a title: each insert precedes
    the next file's lookup.
   */
  lemma {:induction false} RunKeepsTitlesUnique(files: seq<string>, n: nat, src: Sources, catalog: seq<CatalogRow>, validate: Json -> Result<CaseData, SchemaError>)
    requires n <= |files|
    requires TitlesUnique(catalog)
    ensures TitlesUnique(Run(files, n, src, catalog, validate).catalog)
  {
    if n > 0 {
      RunKeepsTitlesUnique(files, n - 1, src, catalog, validate);
      var before := Run(files, n - 1, src, catalog, validate);
      var after := Run(files, n, src, catalog, validate);
      if after.catalog != before.catalog {
        var row := after.catalog[|after.catalog| - 1];
        assert after.catalog == before.catalog + [row];
        assert !FindsExisting(before.catalog, row.title);
        forall title ensures TitleCount(after.catalog, title) <= 1 {
          TitleCountAppend(before.catalog, row, title);
        }
      }
    }
  }

  /** A file whose title is already catalogued once is skipped: catalog and counters are unchanged. */
  lemma KnownTitleSkipped(t: Tally, k: nat, file: string, src: Sources, validate: Json -> Result<CaseData, SchemaError>)
    requires Validated(src.read(file), validate).Some?
    requires TitleCount(t.catalog, Validated(src.read(file), validate).value.title) == 1
    ensures var t' := Step(t, k, file, src, validate);
      t'.catalog == t.catalog && t'.successes == t.successes && t'.errors == t.errors
  {
  }

  /** A file that cannot be read, parsed or validated counts as an error and inserts nothing. */
  lemma InvalidFileCountsError(t: Tally, k: nat, file: string, src: Sources, validate: Json -> Result<CaseData, SchemaError>)
    requires Validated(src.read(file), validate).None?
    ensures Step(t, k, file, src, validate) == t.(errors := t.errors + 1)
  {
  }

  /**
    The lookup finds nothing when two rows already share the title, so a third
    row with that title is inserted: the skip guards against one existing row,
    not several.
   */
  lemma RepeatedTitleNotSkipped(t: Tally, k: nat, file: string, src: Sources, a: CatalogRow, b: CatalogRow, validate: Json -> Result<CaseData, SchemaError>)
    requires Validated(src.read(file), validate).Some? && src.insertOk(k)
    requires t.catalog == [a, b] && a.title == b.title == Validated(src.read(file), validate).value.title
    ensures |Step(t, k, file, src, validate).catalog| == 3
  {
    assert TitleCount([a], a.title) == 1 by {
      assert [a][..0] == [];
    }
    assert TitleCount(t.catalog, a.title) == 2 by {
      assert t.catalog[..1] == [a];
    }
  }

  /** The file's own id never reaches the catalog. */
  lemma RowIgnoresFileId(id: string, c: CaseData, fileId: string)
    ensures RowOf(id, c) == RowOf(id, c.(id := fileId))
  {
  }

  /** `example-case.json` and names not ending in `.json` are never imported. */
  lemma ExampleAndOthersFiltered(listing: seq<string>)
    ensures "example-case.json" !in CaseFiles(listing)
    ensures forall f :: f in CaseFiles(listing) ==> EndsWith(f, ".json")
  {
  }
}
