/**
  The attempt-submission endpoint. A request passes through six stages in a
  fixed order (sign-in check, body parse, request schema, case fetch,
  grading, storage) and each stage that fails answers at once with its own
  status and message. The session, the request body, the case store, the
  model, the admin client and the insert are all given as outcomes; the
  handler returns its response together with the trace of effects it
  performed, so what happened and in which order can be stated.
 */
module AttemptsRoute {
  import opened Wrappers
  import opened Json
  import opened CaseValidator
  import opened AttemptRequest
  import opened FeedbackEngine
  import opened CaseLoader

  /** What creating the request client and asking it for the user gave. */
  datatype AuthResult =
    | ClientThrew(message: string)  // the client could not be created or the call threw
    | AuthFailed(message: string)   // `getUser` returned an error
    | SignedOut                     // no error, but no user
    | SignedIn(userId: string)

  /** Creating the service-role client. */
  datatype AdminResult = AdminReady | AdminFailed(message: string)

  /** The row written to the attempts table. */
  datatype AttemptRow = AttemptRow(userId: string, caseId: string, answers: UserAnswers, feedback: Feedback)

  /** What `insert(...).select().single()` gave. */
  datatype InsertResult =
    | InsertFailed(message: string)  // the database reported an error
    | InsertedNothing                // no error, but no row came back
    | InsertThrew(message: string)   // the call itself threw
    | Inserted(attemptId: string)

  datatype Details = NoDetails | Message(text: string) | SchemaIssues(error: SchemaError)

  datatype Body =
    | ErrorBody(error: string, details: Details)
    | Saved(attemptId: string, feedback: Feedback)

  datatype Response = Response(status: int, body: Body)

  /** The handler's observable steps, in the order taken. */
  datatype Effect =
    | BodyRead
    | CaseFetch(caseId: string)
    | FeedbackRequest(caseId: string)
    | AdminConnect
    | AttemptInsert(row: AttemptRow)

  const ProcessFailed := "Failed to process attempt"
  const AuthenticationFailed := "Authentication failed"
  const Unauthorized := "Unauthorized"
  const InvalidJson := "Invalid JSON in request body"
  const InvalidRequestData := "Invalid request data"
  const FetchFailed := "Failed to fetch case"
  const ApiKeyMissing := "OpenAI API key not configured. Please check environment variables."
  const DatabaseConfigError := "Database configuration error. Please check SUPABASE_SERVICE_ROLE_KEY environment variable."
  const DatabaseConnectionFailed := "Database connection failed"
  const SaveFailed := "Failed to save attempt"
  const SaveReturnedNothing := "Failed to save attempt - no data returned"

  /** The request the schema accepted, if the body was JSON and met it. */
  function ValidatedRequest(body: Option<Json>): (r: Option<AttemptRequest>)
    ensures r.Some? ==> ValidRequest(r.value)
  {
    if body.Some? && ParseRequest(body.value).Success? then Some(ParseRequest(body.value).value) else None
  }

  /** The row a submission would store: signed in, valid request, case found and feedback produced. */
  function GradedRow(
    auth: AuthResult, body: Option<Json>, lookupCase: string -> Result<CaseData, string>,
    grade: (CaseData, UserAnswers) -> Result<Feedback, string>): Option<AttemptRow>
  {
    if auth.SignedIn? && ValidatedRequest(body).Some? then
      var request := ValidatedRequest(body).value;
      var fetched := lookupCase(request.caseId);
      if fetched.Success? then
        var graded := grade(fetched.value, request.answers);
        if graded.Success? then Some(AttemptRow(auth.userId, request.caseId, request.answers, graded.value)) else None
      else None
    else None
  }

  /** A stored row always holds the signed-in user, a schema-valid request and schema-valid feedback. */
  lemma GradedRowValid(
    auth: AuthResult, body: Option<Json>, lookupCase: string -> Result<CaseData, string>,
    grade: (CaseData, UserAnswers) -> Result<Feedback, string>)
    requires ReportsLikeEngine(grade)
    requires GradedRow(auth, body, lookupCase, grade).Some?
    ensures var row := GradedRow(auth, body, lookupCase, grade).value;
      && auth == SignedIn(row.userId)
      && IsUuid(row.caseId) && ValidAnswers(row.answers)
      && ValidFeedback(row.feedback)
  {
    var request := ValidatedRequest(body).value;
    var graded := grade(lookupCase(request.caseId).value, request.answers);
  }

  predicate Inserts(effects: seq<Effect>)
  {
    exists i :: 0 <= i < |effects| && effects[i].AttemptInsert?
  }

  /** Neither message the feedback engine reports names the API key, so the key-specific branch is dead. */
  lemma FeedbackErrorsNeverNameKey(message: string)
    requires message == InvalidFeedbackFormat || message == FeedbackFailed
    ensures !Contains(message, "OPENAI_API_KEY") && !Contains(message, "apiKey")
  {
    AbsentCharNotContained(message, "OPENAI_API_KEY", 'K');
    AbsentCharNotContained(message, "apiKey", 'K');
  }

  /** The handler's response and trace, as a function of every outcome it depends on. */
  function PostOutcome(
    auth: AuthResult, body: Option<Json>, lookupCase: string -> Result<CaseData, string>,
    grade: (CaseData, UserAnswers) -> Result<Feedback, string>,
    admin: AdminResult, insert: AttemptRow -> InsertResult): (Response, seq<Effect>)
  {
    match auth
    case ClientThrew(message) => (Response(500, ErrorBody(ProcessFailed, Message(message))), [])
    case AuthFailed(message) => (Response(401, ErrorBody(AuthenticationFailed, Message(message))), [])
    case SignedOut => (Response(401, ErrorBody(Unauthorized, NoDetails)), [])
    case SignedIn(user) =>
      if body.None? then (Response(400, ErrorBody(InvalidJson, NoDetails)), [BodyRead])
      else
        var validated := ParseRequest(body.value);
        if validated.Failure? then (Response(400, ErrorBody(InvalidRequestData, SchemaIssues(validated.error))), [BodyRead])
        else
          var request := validated.value;
          var fetched := lookupCase(request.caseId);
          if fetched.Failure? then
            (Response(500, ErrorBody(FetchFailed, Message(fetched.error))), [BodyRead, CaseFetch(request.caseId)])
          else
            var graded := grade(fetched.value, request.answers);
            var gradingTrace := [BodyRead, CaseFetch(request.caseId), FeedbackRequest(request.caseId)];
            if graded.Failure? then
              if Contains(graded.error, "OPENAI_API_KEY") || Contains(graded.error, "apiKey") then
                (Response(500, ErrorBody(ApiKeyMissing, NoDetails)), gradingTrace)
              else (Response(500, ErrorBody(FeedbackFailed, Message(graded.error))), gradingTrace)
            else if admin.AdminFailed? then
              if Contains(admin.message, "SUPABASE_SERVICE_ROLE_KEY") || Contains(admin.message, "service_role") then
                (Response(500, ErrorBody(DatabaseConfigError, NoDetails)), gradingTrace + [AdminConnect])
              else (Response(500, ErrorBody(DatabaseConnectionFailed, Message(admin.message))), gradingTrace + [AdminConnect])
            else
              var row := AttemptRow(user, request.caseId, request.answers, graded.value);
              var trace := gradingTrace + [AdminConnect, AttemptInsert(row)];
              match insert(row)
              case InsertFailed(message) => (Response(500, ErrorBody(SaveFailed, Message(message))), trace)
              case InsertedNothing => (Response(500, ErrorBody(SaveReturnedNothing, NoDetails)), trace)
              case InsertThrew(message) => (Response(500, ErrorBody(ProcessFailed, Message(message))), trace)
              case Inserted(id) => (Response(200, Saved(id, graded.value)), trace)
  }

  /** The `POST` handler: each stage runs only if every earlier one succeeded. */
  method Post(
    auth: AuthResult, body: Option<Json>, lookupCase: string -> Result<CaseData, string>,
    grade: (CaseData, UserAnswers) -> Result<Feedback, string>,
    admin: AdminResult, insert: AttemptRow -> InsertResult) returns (response: Response, effects: seq<Effect>)
    ensures (response, effects) == PostOutcome(auth, body, lookupCase, grade, admin, insert)
  {
    effects := [];
    if auth.ClientThrew? {
      return Response(500, ErrorBody(ProcessFailed, Message(auth.message))), effects;
    }
    if auth.AuthFailed? {
      return Response(401, ErrorBody(AuthenticationFailed, Message(auth.message))), effects;
    }
    if auth.SignedOut? {
      return Response(401, ErrorBody(Unauthorized, NoDetails)), effects;
    }
    var user := auth.userId;

    effects := [BodyRead];
    if body.None? {
      return Response(400, ErrorBody(InvalidJson, NoDetails)), effects;
    }
    var validated := ParseRequest(body.value);
    if validated.Failure? {
      return Response(400, ErrorBody(InvalidRequestData, SchemaIssues(validated.error))), effects;
    }
    var request := validated.value;

    effects := [BodyRead, CaseFetch(request.caseId)];
    var fetched := lookupCase(request.caseId);
    if fetched.Failure? {
      return Response(500, ErrorBody(FetchFailed, Message(fetched.error))), effects;
    }
    var caseData := fetched.value;

    var gradingTrace := [BodyRead, CaseFetch(request.caseId), FeedbackRequest(request.caseId)];
    effects := gradingTrace;
    var graded := grade(caseData, request.answers);
    if graded.Failure? {
      if Contains(graded.error, "OPENAI_API_KEY") || Contains(graded.error, "apiKey") {
        return Response(500, ErrorBody(ApiKeyMissing, NoDetails)), effects;
      }
      return Response(500, ErrorBody(FeedbackFailed, Message(graded.error))), effects;
    }
    var feedback := graded.value;

    effects := gradingTrace + [AdminConnect];
    if admin.AdminFailed? {
      if Contains(admin.message, "SUPABASE_SERVICE_ROLE_KEY") || Contains(admin.message, "service_role") {
        return Response(500, ErrorBody(DatabaseConfigError, NoDetails)), effects;
      }
      return Response(500, ErrorBody(DatabaseConnectionFailed, Message(admin.message))), effects;
    }

    var row := AttemptRow(user, request.caseId, request.answers, feedback);
    effects := gradingTrace + [AdminConnect, AttemptInsert(row)];
    var saved := insert(row);
    match saved {
      case InsertFailed(message) =>
        response := Response(500, ErrorBody(SaveFailed, Message(message)));
      case InsertedNothing =>
        response := Response(500, ErrorBody(SaveReturnedNothing, NoDetails));
      case InsertThrew(message) =>
        response := Response(500, ErrorBody(ProcessFailed, Message(message)));
      case Inserted(id) =>
        response := Response(200, Saved(id, feedback));
    }
  }

  // ----- What the handler promises -----

  /** Only 200, 400, 401 and 500 are ever returned: the "Case not found" 404 is unreachable. */
  lemma OnlyKnownStatuses(
    auth: AuthResult, body: Option<Json>, lookupCase: string -> Result<CaseData, string>,
    grade: (CaseData, UserAnswers) -> Result<Feedback, string>,
    admin: AdminResult, insert: AttemptRow -> InsertResult)
    ensures PostOutcome(auth, body, lookupCase, grade, admin, insert).0.status in {200, 400, 401, 500}
  {
  }

  /** The API-key message is never sent: grading failures never name the key. */
  lemma NeverApiKeyMessage(
    auth: AuthResult, body: Option<Json>, lookupCase: string -> Result<CaseData, string>,
    grade: (CaseData, UserAnswers) -> Result<Feedback, string>,
    admin: AdminResult, insert: AttemptRow -> InsertResult)
    requires ReportsLikeEngine(grade)
    ensures var response := PostOutcome(auth, body, lookupCase, grade, admin, insert).0;
      response.body.ErrorBody? ==> response.body.error != ApiKeyMissing
  {
    if auth.SignedIn? && ValidatedRequest(body).Some? {
      var request := ValidatedRequest(body).value;
      var fetched := lookupCase(request.caseId);
      if fetched.Success? {
        var graded := grade(fetched.value, request.answers);
        if graded.Failure? {
          FeedbackErrorsNeverNameKey(graded.error);
        }
      }
    }
  }

  /** 401 exactly for an auth error or a missing user, answered before the body is read. */
  lemma UnauthenticatedStopsFirst(
    auth: AuthResult, body: Option<Json>, lookupCase: string -> Result<CaseData, string>,
    grade: (CaseData, UserAnswers) -> Result<Feedback, string>,
    admin: AdminResult, insert: AttemptRow -> InsertResult)
    ensures var (response, effects) := PostOutcome(auth, body, lookupCase, grade, admin, insert);
      && (response.status == 401 <==> auth.AuthFailed? || auth.SignedOut?)
      && (BodyRead in effects <==> auth.SignedIn?)
  {
  }

  /** 400 exactly for a signed-in request whose body is not JSON or misses the schema; nothing else is done. */
  lemma BadRequestStopsEarly(
    auth: AuthResult, body: Option<Json>, lookupCase: string -> Result<CaseData, string>,
    grade: (CaseData, UserAnswers) -> Result<Feedback, string>,
    admin: AdminResult, insert: AttemptRow -> InsertResult)
    ensures var (response, effects) := PostOutcome(auth, body, lookupCase, grade, admin, insert);
      && (response.status == 400 <==> auth.SignedIn? && ValidatedRequest(body).None?)
      && (response.status == 400 ==> effects == [BodyRead])
  {
  }

  /** A case is fetched, and feedback requested, only for a validated request and only for its case. */
  lemma FetchOnlyForValidRequest(
    auth: AuthResult, body: Option<Json>, lookupCase: string -> Result<CaseData, string>,
    grade: (CaseData, UserAnswers) -> Result<Feedback, string>,
    admin: AdminResult, insert: AttemptRow -> InsertResult)
    ensures var effects := PostOutcome(auth, body, lookupCase, grade, admin, insert).1;
      forall e <- effects :: e.CaseFetch? || e.FeedbackRequest? ==>
        auth.SignedIn? && ValidatedRequest(body).Some? && e.caseId == ValidatedRequest(body).value.caseId
  {
  }

  /** An unknown or unreadable case is a 500 "Failed to fetch case" carrying the store's message. */
  lemma FetchFailureIs500(
    auth: AuthResult, body: Option<Json>, lookupCase: string -> Result<CaseData, string>,
    grade: (CaseData, UserAnswers) -> Result<Feedback, string>,
    admin: AdminResult, insert: AttemptRow -> InsertResult)
    requires auth.SignedIn? && ValidatedRequest(body).Some?
    requires lookupCase(ValidatedRequest(body).value.caseId).Failure?
    ensures var (response, effects) := PostOutcome(auth, body, lookupCase, grade, admin, insert);
      && response == Response(500, ErrorBody(FetchFailed, Message(lookupCase(ValidatedRequest(body).value.caseId).error)))
      && !Inserts(effects)
  {
  }

  /** Every grading failure is a 500 "Failed to generate feedback" with the engine's message; nothing is stored. */
  lemma GradingFailureIs500(
    auth: AuthResult, body: Option<Json>, lookupCase: string -> Result<CaseData, string>,
    grade: (CaseData, UserAnswers) -> Result<Feedback, string>,
    admin: AdminResult, insert: AttemptRow -> InsertResult)
    requires auth.SignedIn? && ValidatedRequest(body).Some?
    requires lookupCase(ValidatedRequest(body).value.caseId).Success?
    requires ReportsLikeEngine(grade)
    requires grade(lookupCase(ValidatedRequest(body).value.caseId).value,
      ValidatedRequest(body).value.answers).Failure?
    ensures var (response, effects) := PostOutcome(auth, body, lookupCase, grade, admin, insert);
      && response == Response(500, ErrorBody(FeedbackFailed, Message(grade(
           lookupCase(ValidatedRequest(body).value.caseId).value,
           ValidatedRequest(body).value.answers).error)))
      && !Inserts(effects) && AdminConnect !in effects
  {
    var request := ValidatedRequest(body).value;
    FeedbackErrorsNeverNameKey(grade(lookupCase(request.caseId).value, request.answers).error);
  }

  /** Something is stored exactly when grading succeeded and the admin client is ready, and it is the graded row. */
  lemma StoresOnlyGradedRow(
    auth: AuthResult, body: Option<Json>, lookupCase: string -> Result<CaseData, string>,
    grade: (CaseData, UserAnswers) -> Result<Feedback, string>,
    admin: AdminResult, insert: AttemptRow -> InsertResult)
    ensures var effects := PostOutcome(auth, body, lookupCase, grade, admin, insert).1;
      && (Inserts(effects) <==> GradedRow(auth, body, lookupCase, grade).Some? && admin.AdminReady?)
      && (forall e <- effects :: e.AttemptInsert? ==> GradedRow(auth, body, lookupCase, grade) == Some(e.row))
  {
    var effects := PostOutcome(auth, body, lookupCase, grade, admin, insert).1;
    if GradedRow(auth, body, lookupCase, grade).Some? && admin.AdminReady? {
      assert effects[4].AttemptInsert?;
    }
  }

  /** 200 exactly when the graded row was stored; the reply carries its id and the feedback unchanged. */
  lemma SuccessReturnsFeedback(
    auth: AuthResult, body: Option<Json>, lookupCase: string -> Result<CaseData, string>,
    grade: (CaseData, UserAnswers) -> Result<Feedback, string>,
    admin: AdminResult, insert: AttemptRow -> InsertResult)
    ensures var response := PostOutcome(auth, body, lookupCase, grade, admin, insert).0;
      var row := GradedRow(auth, body, lookupCase, grade);
      && (response.status == 200 <==> row.Some? && admin.AdminReady? && insert(row.value).Inserted?)
      && (response.status == 200 ==> response.body == Saved(insert(row.value).attemptId, row.value.feedback))
  {
  }

  /**
    With the real feedback engine plugged in, whatever its key, model and
    JSON reader do, the handler never answers with the API-key message.
   */
  lemma EngineNeverTriggersKeyMessage(
    auth: AuthResult, body: Option<Json>, lookupCase: string -> Result<CaseData, string>,
    apiKey: Option<string>, complete: (string, string) -> ModelReply, parseJson: string -> Option<Json>,
    admin: AdminResult, insert: AttemptRow -> InsertResult)
    ensures var grade := (c, a) => FeedbackOutcome(c, a, apiKey, complete, parseJson);
      var response := PostOutcome(auth, body, lookupCase, grade, admin, insert).0;
      response.body.ErrorBody? ==> response.body.error != ApiKeyMissing
  {
    var grade := (c, a) => FeedbackOutcome(c, a, apiKey, complete, parseJson);
    EngineReportsLikeEngine(apiKey, complete, parseJson);
    NeverApiKeyMessage(auth, body, lookupCase, grade, admin, insert);
  }

  /**
    Against the cases table: a request for a stored case is graded on exactly
    the case the import script stored, under the requested id.
   */
  lemma StoredCaseGraded(
    auth: AuthResult, body: Option<Json>, catalog: seq<ImportCases.CatalogRow>, queryError: string,
    grade: (CaseData, UserAnswers) -> Result<Feedback, string>, c: CaseData)
    requires auth.SignedIn? && ValidatedRequest(body).Some?
    requires var id := ValidatedRequest(body).value.caseId; FindRow(catalog, id) == Some(ImportCases.RowOf(id, c))
    ensures var request := ValidatedRequest(body).value;
      var graded := grade(c.(id := request.caseId), request.answers);
      GradedRow(auth, body, LookupCase(catalog, queryError), grade) ==
        if graded.Success? then Some(AttemptRow(auth.userId, request.caseId, request.answers, graded.value)) else None
  {
    LoadedCaseIsStoredCase(catalog, ValidatedRequest(body).value.caseId, queryError, c);
  }

  /** Against the cases table, a request for an id with no row is a 500 carrying the query's message. */
  lemma UnknownCaseIs500(
    auth: AuthResult, body: Option<Json>, catalog: seq<ImportCases.CatalogRow>, queryError: string,
    grade: (CaseData, UserAnswers) -> Result<Feedback, string>,
    admin: AdminResult, insert: AttemptRow -> InsertResult)
    requires auth.SignedIn? && ValidatedRequest(body).Some?
    requires forall row <- catalog :: row.id != ValidatedRequest(body).value.caseId
    ensures var (response, effects) := PostOutcome(auth, body, LookupCase(catalog, queryError), grade, admin, insert);
      && response == Response(500, ErrorBody(FetchFailed, Message("Failed to fetch case: " + queryError)))
      && !Inserts(effects)
  {
    UnknownIdFails(catalog, ValidatedRequest(body).value.caseId, queryError);
    FetchFailureIs500(auth, body, LookupCase(catalog, queryError), grade, admin, insert);
  }
}
