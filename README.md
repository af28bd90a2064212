# CaseTrainer assessment pipeline in Dafny

CaseTrainer lets a learner work through a clinical case in five steps, submits
the answers, has a reasoning model grade them against the case's gold
standard, stores the attempt and shows the feedback. This project models the
logic of that pipeline and proves what it promises:

- `json.dfy` (module `Json`): untyped JSON input as a datatype, with the field
  accessors the schemas use.
- `case_validator.dfy` (module `CaseValidator`): the case schema, a parser from
  `Json` to `CaseData`, with its encoder.
- `attempt_request.dfy` (module `AttemptRequest`): the attempt request schema
  (case id plus the five steps' answers), with its encoder.
- `feedback_engine.dfy` (module `FeedbackEngine`): the feedback schema, the
  grading prompt, and `generateFeedback` with its error mapping.
- `attempts_route.dfy` (module `AttemptsRoute`): the `POST /api/attempts`
  handler as a method over the outcomes of its outside calls, returning the
  response and the trace of effects it performed.
- `feedback_display.dfy` (module `FeedbackDisplay`): the feedback page's
  average, label, colour, bar widths and visible sections.
- `case_player.dfy` (module `CasePlayer`): the case player's state (step,
  answers, loading flag) as a class whose methods are the page's controls.
- `import_cases.dfy` (module `ImportCases`): the case-import script's loop over
  the case files, against a catalog of stored rows.
- `case_loader.dfy` (module `CaseLoader`): reading a stored case back by id, as
  written and corrected (see "## Findings").
- `wrappers.dfy` (module `Wrappers`): `Option` and `Result`.

Each schema parser (case, attempt request, feedback) is paired with a
"carries" predicate and an encoder. An exactness lemma proves that the parser
accepts a value exactly when the input carries a valid one, and returns that
value unchanged. A round-trip lemma (`ValidateIdempotent`, `RequestRoundTrip`,
`FeedbackRoundTrip`) proves that parsing an encoded value gives it back. Each stateful or
sequential operation (`GenerateFeedback`, `Post`, `ImportCases`) is a method
proved equal to a specification function, and the lemmas about the pipeline
are stated on those functions.

Outside calls are parameters:
- the OpenAI completion is `complete`;
- `JSON.parse` is `parseJson`;
- the Supabase session, case lookup, admin client and insert are outcome values or functions;
- the file system, `randomUUID` and the import's inserts are the `Sources` record.

Scores and numbers are `real`.

## Model

| member | source | states |
|---|---|---|
| Json.StringAt | lib/cases/caseValidator.ts:5-9 | a `z.string()` field succeeds exactly on an object holding that key as a string, and returns that string |
| Json.NumberAt | lib/cases/caseValidator.ts:5 | a `z.number()` field succeeds exactly on a number under that key and returns it |
| Json.BoolAt | lib/cases/caseValidator.ts:30 | a `z.boolean()` field succeeds exactly on a boolean under that key and returns it |
| Json.ArrayAt | lib/cases/caseValidator.ts:21 | an array field succeeds exactly on an array under that key and returns its items |
| Json.MemberAt | lib/cases/caseValidator.ts:39-41 | a nested-object field succeeds exactly when the key is present, and returns its value |
| Json.Strings | lib/cases/caseValidator.ts:34-35 | `z.array(z.string())` accepts exactly the arrays whose every item is a string, and returns them in order |
| Json.StringsToJson | lib/cases/caseValidator.ts:34-35 | encoding a string list gives an array of the same length with the same strings |
| Json.StringsOfEncoding | lib/cases/caseValidator.ts:34-35 | a string list read back from its encoding is the same list |
| Json.ContainsSelf | lib/openai/feedbackEngine.ts:120-125 | every text contains itself |
| Json.ContainsWithin | lib/openai/feedbackEngine.ts:73-140 | text found in a piece is found in any concatenation around it |
| Json.ContainsTransitive | lib/openai/feedbackEngine.ts:120-125 | text inside text inside `s` is inside `s` |
| Json.AbsentCharNotContained | app/api/attempts/route.ts:112-118 | a text without some character contains no text that has that character |
| CaseValidator.DifferentialToJson | lib/cases/caseValidator.ts:25-31 | a differential encodes to an array with one item per entry |
| CaseValidator.ParseDifficulty | lib/cases/caseValidator.ts:42 | difficulty is accepted only as one of the three exact names, and the name is returned |
| CaseValidator.ParseInitialPresentation | lib/cases/caseValidator.ts:4-10 | success exactly when the input carries a presentation (strings, numeric age, and so on), and then it is that presentation |
| CaseValidator.ParseFullCase | lib/cases/caseValidator.ts:12-17 | success exactly when the input carries all four full-case strings, which are returned |
| CaseValidator.ParseGoldStandard | lib/cases/caseValidator.ts:19-23 | success exactly when the input carries the three gold-standard strings, which are returned |
| CaseValidator.ParseDifferentialItem | lib/cases/caseValidator.ts:25-31 | success exactly when the input carries an item: name, fit and non-fit strings, a numeric rank and a boolean life_threatening |
| CaseValidator.ParseDifferential | lib/cases/caseValidator.ts:21-31 | the list succeeds only when every item does, and keeps the items' order |
| CaseValidator.ParseRequiredActions | lib/cases/caseValidator.ts:33-36 | both action lists must be string arrays, which may be empty |
| Json.StringListAt | lib/cases/caseValidator.ts:48-50 | a string-list field succeeds only when every element is a string |
| CaseValidator.DifferentialAccepted | lib/cases/caseValidator.ts:21-31 | every array of items that carry valid entries is accepted as those entries |
| CaseValidator.ActionsAccepted | lib/cases/caseValidator.ts:33-36 | an object carrying two string lists is accepted as exactly those lists |
| Json.StringListAccepted | lib/cases/caseValidator.ts:48-50 | a field carrying a string list is accepted as exactly that list |
| CaseValidator.ValidateExact | lib/cases/caseValidator.ts:38-55 | `validateCaseData` returns `c` exactly when the input carries `c`'s fields; no string, rank or age value is refused |
| CaseValidator.ValidatedCarries | lib/cases/caseValidator.ts:53-55 | a validated case carries the input's own field values unchanged |
| CaseValidator.CarriedValidates | lib/cases/caseValidator.ts:38-55 | an input carrying a case is accepted, even with an empty title, rank 0 or a negative age |
| CaseValidator.ValidateIdempotent | lib/cases/caseValidator.ts:53-55 | validating the JSON form of any case returns that case, so validation is idempotent |
| CaseValidator.EncodingCarries | lib/cases/caseValidator.ts:38-51 | a case's JSON form carries that case |
| CaseValidator.PartEncodingsCarry | lib/cases/caseValidator.ts:4-36 | each nested record's JSON form carries that record |
| CaseValidator.DifferentialEncodingCarries | lib/cases/caseValidator.ts:21-31 | a differential's JSON form carries each entry at its position |
| CaseValidator.ItemEncodingCarries | lib/cases/caseValidator.ts:25-31 | a differential entry's JSON form carries that entry |
| CaseValidator.DifficultyClosed | lib/cases/caseValidator.ts:42 | a validated case had "beginner", "intermediate" or "advanced" as its difficulty |
| CaseValidator.NestedViolationFails | lib/cases/caseValidator.ts:38-55 | a failure in any nested record or any differential item fails the whole case, with no partial result |
| AttemptRequest.DiagnosesToJson | app/api/attempts/route.ts:16-20 | encoding a differential gives one array item per entry |
| AttemptRequest.NonEmptyStringAt | app/api/attempts/route.ts:13 | `z.string().min(1)` succeeds only on a non-empty string under the key |
| AttemptRequest.ParseDiagnosis | app/api/attempts/route.ts:16-20 | an entry is accepted exactly when it carries a non-empty name and justification and an integer rank in 1..3, and is returned unchanged |
| AttemptRequest.ParseDiagnoses | app/api/attempts/route.ts:15-30 | a list is accepted only when every entry is valid, keeping the order |
| AttemptRequest.DiagnosesAccepted | app/api/attempts/route.ts:15-30 | every array carrying valid entries is accepted as exactly those entries |
| AttemptRequest.AnswersValidated | app/api/attempts/route.ts:12-33 | accepted answers are valid and carry the input's own values |
| AttemptRequest.AnswersAccepted | app/api/attempts/route.ts:12-33 | answers that are valid and carried are accepted unchanged |
| AttemptRequest.RequestExact | app/api/attempts/route.ts:11-34 | the request schema returns `r` exactly when `r` is valid (UUID case id, exactly three step-2 entries, non-empty texts, optional step 4 of any length) and carried |
| AttemptRequest.EncodingCarriesDiagnoses | app/api/attempts/route.ts:15-21 | a differential's JSON form carries it |
| AttemptRequest.EncodingCarriesAnswers | app/api/attempts/route.ts:12-33 | the answers' JSON form carries them |
| AttemptRequest.RequestRoundTrip | app/api/attempts/route.ts:11-34 | an encoded request parses exactly when it is valid, and then parses to itself |
| AttemptRequest.Step2CountMustBeThree | app/api/attempts/route.ts:15-21 | a step-2 differential with any count other than three is refused |
| AttemptRequest.RepeatedRanksAccepted | app/api/attempts/route.ts:16-30 | three entries all of rank 1, no interpretation and an empty step-4 list are accepted |
| FeedbackEngine.ScoreAt | lib/openai/feedbackEngine.ts:20-24 | a score is accepted only as a number in [1,5] under its key, and is returned unchanged |
| FeedbackEngine.ParseScores | lib/openai/feedbackEngine.ts:19-25 | the scores are accepted exactly when all five are carried and in range, and are then returned unchanged |
| FeedbackEngine.ParseFeedback | lib/openai/feedbackEngine.ts:18-31 | accepted feedback is valid and carries the reply's own values |
| FeedbackEngine.FeedbackAccepted | lib/openai/feedbackEngine.ts:18-31 | any reply carrying valid feedback is accepted as exactly that feedback |
| FeedbackEngine.FeedbackRoundTrip | lib/openai/feedbackEngine.ts:18-31 | valid feedback, encoded and read back by the schema, is the same feedback |
| FeedbackEngine.EncodingCarriesFeedback | lib/openai/feedbackEngine.ts:18-31 | the encoding of feedback carries every one of its fields |
| FeedbackEngine.CarriedFeedbackUnique | lib/openai/feedbackEngine.ts:18-31 | a reply determines the feedback it carries |
| FeedbackEngine.StringsInjective | lib/openai/feedbackEngine.ts:26-29 | two string lists with equal encodings are equal |
| FeedbackEngine.FeedbackExact | lib/openai/feedbackEngine.ts:18-31 | the schema returns `f` exactly when `f`'s scores are in [1,5] and the reply carries `f`: 3.5 is kept, lists and the summary may be empty, nothing is clamped |
| FeedbackEngine.OutOfRangeScoreRejected | lib/openai/feedbackEngine.ts:20-24 | a reply carrying any score outside [1,5] is refused |
| FeedbackEngine.FeedbackOutcome | lib/openai/feedbackEngine.ts:142-170 | a success is schema-valid feedback, and a failure is one of the two engine messages |
| FeedbackEngine.GenerateFeedback | lib/openai/feedbackEngine.ts:142-170 | the stage-by-stage method (client, call, content, JSON, schema) yields exactly the specified outcome |
| FeedbackEngine.FeedbackOutcomeCases | lib/openai/feedbackEngine.ts:142-170 | "Invalid feedback format from AI" exactly when the key is set and the reply parses as JSON the schema refuses; success exactly when it meets the schema, returning the carried feedback |
| FeedbackEngine.ReplyOutcome | lib/openai/feedbackEngine.ts:154-170 | a reply that passes the content, JSON and schema stages is schema-valid feedback; every other reply is one of the two engine messages |
| FeedbackEngine.ReplyOutcomeCases | lib/openai/feedbackEngine.ts:154-170 | for one reply: "Invalid feedback format from AI" exactly when it parses as JSON the schema refuses, success exactly when the parsed JSON meets the schema, returning the carried feedback |
| FeedbackEngine.PromptShowsStep2Names | lib/openai/feedbackEngine.ts:73-140 | every diagnosis name the learner ranked in step 2 appears in the prompt |
| FeedbackEngine.StudentDifferentialShowsNames | lib/openai/feedbackEngine.ts:120-125 | every entry's name appears in the rendered learner differential |
| FeedbackEngine.EntryShowsName | lib/openai/feedbackEngine.ts:120-125 | an entry's "Rank r: name" line shows its name |
| FeedbackEngine.JoinContainsPart | lib/openai/feedbackEngine.ts:98-125 | every part of a joined list occurs in the joined text |
| FeedbackEngine.PromptIgnoresIdAndTeachingPoints | lib/openai/feedbackEngine.ts:73-140 | changing the case's id or teaching points leaves the prompt unchanged |
| FeedbackEngine.Step4OmittedWithoutInterpretation | lib/openai/feedbackEngine.ts:130 | without a non-empty interpretation the step-4 block is empty, whatever the updated differential is |
| FeedbackEngine.JoinStartsWithFirst | lib/openai/feedbackEngine.ts:98-125 | a joined list starts with its first part |
| FeedbackEngine.NoneProvidedExactly | lib/openai/feedbackEngine.ts:130 | "None provided" is shown exactly when the updated differential is absent or empty |
| FeedbackEngine.JoinAppend | lib/openai/feedbackEngine.ts:98-125 | joining two non-empty lists concatenated is joining each, separated once |
| FeedbackEngine.ExpectedDifferentialInOrder | lib/openai/feedbackEngine.ts:98-103 | the expected differential renders in the case's order, entry groups separated by a newline |
| FeedbackEngine.StudentDifferentialInOrder | lib/openai/feedbackEngine.ts:120-125 | a learner's entries render in submitted order, separated by a blank line |
| FeedbackEngine.EngineReportsLikeEngine | lib/openai/feedbackEngine.ts:142-170 | for every case, answers, key, model and JSON reader, the engine gives valid feedback or one of its two messages |
| FeedbackDisplay.ScoreList | components/feedback/FeedbackDisplay.tsx:64-70 | the page lists exactly five scores |
| FeedbackDisplay.AverageScore | components/feedback/FeedbackDisplay.tsx:12-18 | the average of five scores in [1,5] lies in [1,5] |
| FeedbackDisplay.AverageBetween | components/feedback/FeedbackDisplay.tsx:12-18 | the average lies between any bounds that hold all five scores |
| FeedbackDisplay.ScoreColor | components/feedback/FeedbackDisplay.tsx:20-24 | green iff score >= 4, yellow iff 3 <= score < 4, red iff score < 3 |
| FeedbackDisplay.Reached | components/feedback/FeedbackDisplay.tsx:26-33 | a score reaches at most as many thresholds as there are |
| FeedbackDisplay.Band | components/feedback/FeedbackDisplay.tsx:26-33 | every score falls in one of the six label bands |
| FeedbackDisplay.LabelIsBand | components/feedback/FeedbackDisplay.tsx:26-33 | the if-chain gives every score exactly the label of its band, per the threshold table |
| FeedbackDisplay.ReachedMonotone | components/feedback/FeedbackDisplay.tsx:26-33 | a higher score reaches at least as many thresholds |
| FeedbackDisplay.LabelMonotone | components/feedback/FeedbackDisplay.tsx:26-33 | a higher score never gets a lower-ranked label |
| FeedbackDisplay.BarWidth | components/feedback/FeedbackDisplay.tsx:75 | a valid score's bar is 20 to 100 percent wide, and full exactly at 5 |
| FeedbackDisplay.ScoreBars | components/feedback/FeedbackDisplay.tsx:64-79 | one bar per score in schema order, each fitting its track for valid scores |
| FeedbackDisplay.VisibleSections | components/feedback/FeedbackDisplay.tsx:90-137 | a section is shown iff its list is non-empty, in page order |
| FeedbackDisplay.NumberedPoints | components/feedback/FeedbackDisplay.tsx:137-148 | teaching points keep their order and are numbered consecutively from 1 |
| CasePlayer.WithField | components/case/CasePlayer.tsx:43 | editing one field of an entry changes that field only and never the rank |
| CasePlayer.Player.constructor | components/case/CasePlayer.tsx:13-33 | the player starts on step 1, not loading, with three blank entries ranked 1, 2, 3 in both lists and all texts empty |
| CasePlayer.Player.Previous | components/case/CasePlayer.tsx:165 | the step becomes max(1, step-1) and nothing else changes |
| CasePlayer.Player.Next | components/case/CasePlayer.tsx:173 | the step becomes min(5, step+1) and nothing else changes |
| CasePlayer.Player.NavigationShown | components/case/CasePlayer.tsx:166-186 | Submit is shown iff step 5, Next iff steps 1 to 4, and Previous is disabled only where Next is shown |
| CasePlayer.Player.UpdateDifferential | components/case/CasePlayer.tsx:35-45 | only the named field of the entry at `index` in the selected list changes; "step2" selects the step-2 list and any other tag the step-4 list, the other list is untouched; ranks stay 1, 2, 3 |
| CasePlayer.Player.SetProblemRepresentation | components/case/CasePlayer.tsx:232 | only the step-1 text changes |
| CasePlayer.Player.SetNextStep | components/case/CasePlayer.tsx:303 | only the step-3 text changes |
| CasePlayer.Player.SetInterpretation | components/case/CasePlayer.tsx:352 | only the step-4 interpretation changes |
| CasePlayer.Player.SetFinalDiagnosis | components/case/CasePlayer.tsx:416 | only the final diagnosis changes |
| CasePlayer.Player.SetManagement | components/case/CasePlayer.tsx:429 | only the management plan changes |
| CasePlayer.Player.BeginSubmit | components/case/CasePlayer.tsx:47-58 | submitting raises the loading flag and sends the case id with the current answers |
| CasePlayer.Player.FinishSubmit | components/case/CasePlayer.tsx:59-73 | the loading flag is lowered only on failure |
| CasePlayer.UnfilledStep4Rejected | components/case/CasePlayer.tsx:26-30 | a submission whose step-4 list has an entry with an empty name is refused by the request schema |
| CasePlayer.UntouchedStep4Rejected | components/case/CasePlayer.tsx:26-30 | leaving the step-4 list as first shown makes the submission fail |
| CasePlayer.FilledFormAccepted | components/case/CasePlayer.tsx:17-58 | once every text is filled in, answers whose differentials keep the form's ranks 1, 2, 3 are accepted by the request schema unchanged |
| CasePlayer.RanksAreValid | components/case/CasePlayer.tsx:19-23 | entries ranked 1, 2, 3 with non-empty texts meet the schema's per-entry rule |
| AttemptsRoute.ValidatedRequest | app/api/attempts/route.ts:58-82 | a request that gets past body parsing and the schema is valid |
| AttemptsRoute.GradedRowValid | app/api/attempts/route.ts:143-152 | a stored row holds the signed-in user, a schema-valid request and schema-valid feedback |
| AttemptsRoute.FeedbackErrorsNeverNameKey | app/api/attempts/route.ts:112-118 | neither engine message mentions the API key |
| AttemptsRoute.Post | app/api/attempts/route.ts:36-189 | the handler's response and effect trace are exactly the specified ones |
| AttemptsRoute.OnlyKnownStatuses | app/api/attempts/route.ts:36-189 | only 200, 400, 401 and 500 are returned, so the 404 is unreachable |
| AttemptsRoute.NeverApiKeyMessage | app/api/attempts/route.ts:105-121 | with a grader that reports like the engine, the API-key message is never sent |
| AttemptsRoute.UnauthenticatedStopsFirst | app/api/attempts/route.ts:41-56 | 401 exactly for an auth error or a missing user, and the body is read only when signed in |
| AttemptsRoute.BadRequestStopsEarly | app/api/attempts/route.ts:58-82 | 400 exactly for bad JSON or a schema failure when signed in, with nothing done beyond reading the body |
| AttemptsRoute.FetchOnlyForValidRequest | app/api/attempts/route.ts:84-103 | a case is fetched, and feedback requested, only for a validated request and only for its case id |
| AttemptsRoute.FetchFailureIs500 | app/api/attempts/route.ts:84-100 | an unknown or unreadable case is a 500 "Failed to fetch case" with the store's message, and nothing is stored |
| AttemptsRoute.GradingFailureIs500 | app/api/attempts/route.ts:102-122 | every grading failure is a 500 with the engine's message, before any admin client or insert |
| AttemptsRoute.StoresOnlyGradedRow | app/api/attempts/route.ts:124-152 | an insert happens exactly when grading succeeded and the admin client is ready, and it stores the graded row |
| AttemptsRoute.SuccessReturnsFeedback | app/api/attempts/route.ts:154-172 | 200 exactly when the insert returned a row, replying with its id and the feedback unchanged |
| AttemptsRoute.EngineNeverTriggersKeyMessage | app/api/attempts/route.ts:105-121 | with the real engine plugged in, whatever its key, model and JSON reader, the API-key message is never sent |
| AttemptsRoute.StoredCaseGraded | lib/cases/caseLoader.ts:19-39 | against the cases table, a stored case is graded as exactly the case the import stored, under the requested id |
| AttemptsRoute.UnknownCaseIs500 | app/api/attempts/route.ts:84-100 | against the cases table, an id with no row is a 500 "Failed to fetch case" carrying the query's message, with nothing stored |
| ImportCases.CaseFiles | scripts/import-cases.ts:28 | exactly the listed names ending in ".json", other than "example-case.json", are kept |
| ImportCases.RowOf | scripts/import-cases.ts:53-79 | the stored row has the generated id and the case's title, specialty and difficulty |
| ImportCases.ImportCases | scripts/import-cases.ts:23-98 | the loop's catalog and counters are the fold of the per-file step over the case files; with no case files nothing changes |
| ImportCases.RunAccountsForEveryFile | scripts/import-cases.ts:38-93 | successes + errors + skips equals the number of case files processed |
| ImportCases.RunOnlyAppends | scripts/import-cases.ts:71-88 | the catalog grows by one row per success, and earlier rows are never touched |
| ImportCases.StepAppendsImported | scripts/import-cases.ts:41-93 | one file adds at most one row, built from its own validated case |
| ImportCases.NewRowsComeFromFiles | scripts/import-cases.ts:41-93 | every added row is a validated case file stored under the id generated for it |
| ImportCases.TitleCountAppend | scripts/import-cases.ts:59-63 | appending a row adds one to its title's count and nothing to other titles |
| ImportCases.RunKeepsTitlesUnique | scripts/import-cases.ts:41-93 | from a catalog without repeated titles, a run never creates one, even when several files share a title |
| ImportCases.KnownTitleSkipped | scripts/import-cases.ts:59-68 | a file whose title is catalogued once is skipped, with the catalog and both counters unchanged |
| ImportCases.InvalidFileCountsError | scripts/import-cases.ts:44-92 | an unreadable, unparseable or invalid file adds one error and inserts nothing |
| ImportCases.RepeatedTitleNotSkipped | scripts/import-cases.ts:59-68 | when two rows already share the title, the lookup finds nothing and a third row is inserted |
| ImportCases.RowIgnoresFileId | scripts/import-cases.ts:53-74 | the file's own id never reaches the stored row |
| CaseLoader.StoredJson | scripts/import-cases.ts:56-78 | the stored `case_data` has no id, title, specialty or difficulty key |
| CaseLoader.FindRow | lib/cases/caseLoader.ts:22-26 | the row found has the requested id; no row is found exactly when none has it |
| CaseLoader.LoadedCaseLosesHeader | lib/cases/caseLoader.ts:22-39 | as written, every imported case loads without title, specialty and difficulty, fails the case schema, and heads the prompt with "undefined" three times instead of its own values |
| CaseLoader.HeaderShowsDifficulty | lib/openai/feedbackEngine.ts:75-77 | a case's real header never equals the all-"undefined" header |
| CaseLoader.LoadedJsonIsCase | lib/cases/caseLoader.ts:36-39 | corrected, the loaded object carries the row's case, so the case schema accepts it as exactly the case the lookup returns |
| CaseLoader.RowJsonCarries | lib/cases/caseLoader.ts:36-39 | a row's columns spread with its body carry the row's case |
| CaseLoader.LoadedCaseIsStoredCase | lib/cases/caseLoader.ts:19-39 | corrected, an imported case comes back as that case under its new id, with its own header in the prompt |
| CaseLoader.UnknownIdFails | lib/cases/caseLoader.ts:28-30 | an id with no row is a failure "Failed to fetch case: " plus the query's message |
| ImportCases.ExampleAndOthersFiltered | scripts/import-cases.ts:28 | "example-case.json" and names not ending in ".json" are never imported |

## Left out

- Zod's error objects: a schema failure is one `SchemaError` naming the first key that failed. The issue list is not modelled.
- JSON text parsing: the input is already a `Json` value. `JSON.parse` is a parameter (`parseJson`) in the engine and a `None` body in the route.
- UUID syntax: `IsUuid` checks the 8-4-4-4-12 hexadecimal layout only. Version and variant digits are not checked.
- JavaScript number formatting in template strings: `NumberText` shows integers exactly and fractions to at most 15 digits, not JavaScript's shortest round-trip form.
- Floating point: scores, ranks and ages are exact `real`s, so the average and bar width are exact. `toFixed(1)` display rounding is not modelled.
- React rendering, styling, `alert`, router navigation and `fetch` in the two components: only their state changes and the values they compute are modelled.
- The OpenAI client and its network call: they are the `complete` parameter. The model name and options passed to it are not modelled.
- Supabase sessions, queries and inserts: they are outcome values (`AuthResult`, `lookupCase`, `AdminResult`, `insert`) or the import's `Sources`.
- Logging (`console.*`) everywhere.
- The seed script, middleware, layouts and dashboard pages.
- AttemptsRoute.Post: grading is the function parameter `grade`. The route lemmas that depend on the engine require `ReportsLikeEngine(grade)`, and `EngineNeverTriggersKeyMessage` discharges that requirement for `FeedbackOutcome` itself. This keeps the prompt's long text out of the handler's proofs.
- AttemptsRoute.Post: the case loader throws on a missing row (lib/cases/caseLoader.ts:28-34), so `lookupCase` returns a failure with the loader's message and never a missing case. The 404 branch is therefore absent, and `OnlyKnownStatuses` states it.
- AttemptsRoute.Post: the outer catch (app/api/attempts/route.ts:173-188) is modelled for the throws that can reach it: creating the request client (`ClientThrew`) and the insert call (`InsertThrew`) both give 500 "Failed to process attempt". Its `ZodError` branch is unreachable, because the schema's own catch already answers 400.
- AttemptsRoute.Post: `lookupCase` is a parameter. The route lemmas about the cases table plug in the corrected `CaseLoader.LookupCase`; the loader as written is the subject of "## Findings".
- CaseLoader.FindRow: a failed query other than a missing row is not modelled; `queryError` stands for the message of any failed query.
- CasePlayer.Player.UpdateDifferential: requires `index` to lie within the selected list. JavaScript would extend the array past its end, but the page only passes indices of rendered entries. The rank field is not editable in the model, because the page never edits it.
- CasePlayer.Player.FinishSubmit: the response, its error text and the alert are reduced to whether the submission succeeded.
- FeedbackDisplay.ScoreBars: the bars follow the order of the stored feedback's keys (`Object.entries` at components/feedback/FeedbackDisplay.tsx:64). The model assumes schema order. If the column is `jsonb`, the database returns keys sorted by length and then bytewise. The table definition is not part of this model.
- The seed script stores `case_data` the same way as the import script. It is not modelled, since its case list is empty.
- ImportCases.ImportCases: the result of the title lookup is modelled as `maybeSingle` semantics over the catalog. Exactly one match finds a row; several matches are an error the script ignores, which reads as nothing found. A lookup that fails for other reasons is not modelled.
- ImportCases.ImportCases: generated ids and insert outcomes are indexed by the file's position among the case files. Whether generated ids are distinct is not modelled.
- ImportCases.ImportCases: the catalog is the sequence of stored rows and only grows. Rows written by other clients during a run are not modelled.

## Findings

| source | as written | input that shows it | evidently intended | confidence | as-written member | corrected member |
|---|---|---|---|---|---|---|
| lib/cases/caseLoader.ts:22-39 | `getCaseById` selects only `case_data` and returns `{ id, ...data.case_data }`; the import script stores `case_data` without title, specialty and difficulty (scripts/import-cases.ts:56, 78) | any imported case, e.g. one titled "Chest pain": the loaded object has no `title`, so the grading prompt (lib/openai/feedbackEngine.ts:75-77) reads "Title: undefined", "Specialty: undefined", "Difficulty: undefined" | the loader also selects the title, specialty and difficulty columns, so the case graded is the case stored | not executed | CaseLoader.LoadedCaseLosesHeader | CaseLoader.LoadedCaseIsStoredCase |
