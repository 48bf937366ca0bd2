/**
 * HandleCreateUserRequest: read the length limits (with fallbacks), bind
 * and validate the request, reject a banned e-mail domain, reject a taken
 * username, create the row and answer with it.
 */
module CreateUser {
  import opened Wrappers
  import opened Text
  import opened UserCommon

  /** CreateUserRequest as bound from the JSON body. */
  datatype CreateUserRequest = CreateUserRequest(name: string, email: string, username: string, phoneNumber: string)

  /** The limits as the handler holds them: the configured text, or the fallback. */
  datatype CreateLimits = CreateLimits(minName: string, maxName: string, minUsername: string, maxUsername: string,
                                       maxEmail: string)

  /** The limits the handler works with for a given configuration. */
  function LimitsFor(config: Config): CreateLimits
  {
    CreateLimits(LimitOr(config, NameMinKey, MinNameLength), LimitOr(config, NameMaxKey, MaxNameLength),
                 LimitOr(config, UsernameMinKey, MinUsernameLength), LimitOr(config, UsernameMaxKey, MaxUsernameLength),
                 LimitOr(config, EmailMaxKey, MaxEmailLength))
  }

  /** With nothing configured the limits are name 2 to 50, username 3 to 30, e-mail at most 100. */
  lemma UnconfiguredLimits()
    ensures LimitsFor(map[]) == CreateLimits("2", "50", "3", "30", "100")
  {
    DefaultLimitsAreConstants();
  }

  /** The five lookups, each replaced by its literal fallback when it fails. */
  method LoadLimits(config: Config) returns (limits: CreateLimits)
    ensures limits == LimitsFor(config)
  {
    DefaultLimitsAreConstants();
    var minNameLength := if NameMinKey in config then config[NameMinKey] else "";
    if NameMinKey !in config {
      minNameLength := "2";
    }
    var maxNameLength := if NameMaxKey in config then config[NameMaxKey] else "";
    if NameMaxKey !in config {
      maxNameLength := "50";
    }
    var minUsernameLength := if UsernameMinKey in config then config[UsernameMinKey] else "";
    if UsernameMinKey !in config {
      minUsernameLength := "3";
    }
    var maxUsernameLength := if UsernameMaxKey in config then config[UsernameMaxKey] else "";
    if UsernameMaxKey !in config {
      maxUsernameLength := "30";
    }
    var maxEmailLength := if EmailMaxKey in config then config[EmailMaxKey] else "";
    if EmailMaxKey !in config {
      maxEmailLength := "100";
    }
    limits := CreateLimits(minNameLength, maxNameLength, minUsernameLength, maxUsernameLength, maxEmailLength);
  }

  /** The tags whose branch of the closure reads the failing value as a string. */
  predicate ReadsValue(tag: string)
  {
    tag in {"min", "max", "email", "alphanum", "e164"}
  }

  /** Every field of CreateUserRequest is a string, so the validator reports string values. */
  predicate WellTyped(err: FieldError)
  {
    ReadsValue(err.tag) ==> err.value.StringValue?
  }

  /**
   * The closure passed to WscValidate: the arguments that go with a
   * failed field. Length limits carry the value's length and the field's
   * bounds ("0" as the lower bound of an e-mail); format tags carry the
   * value; `required` and unknown tags carry nothing.
   */
  function ValidationArgs(limits: CreateLimits, err: FieldError): (args: seq<string>)
    requires WellTyped(err)
    ensures err.tag == "min" || err.tag == "max" ==>
      |args| == 3 && args[0] == Decimal(|err.value.s|) && DecimalValue(args[0]) == |err.value.s|
    ensures (err.tag == "min" || err.tag == "max") && err.field == "Name" ==>
      args[1..] == [limits.minName, limits.maxName]
    ensures (err.tag == "min" || err.tag == "max") && err.field == "Username" ==>
      args[1..] == [limits.minUsername, limits.maxUsername]
    ensures (err.tag == "min" || err.tag == "max") && err.field == "Email" ==>
      args[1..] == ["0", limits.maxEmail]
    ensures (err.tag == "min" || err.tag == "max") && err.field !in {"Name", "Username", "Email"} ==>
      args[1..] == ["0", err.param]
    ensures err.tag in {"email", "alphanum", "e164"} ==> args == [err.value.s]
    ensures !ReadsValue(err.tag) ==> args == []
  {
    match err.tag
    case "required" => []
    case "min" => LengthArgs(limits, err)
    case "max" => LengthArgs(limits, err)
    case "email" => [err.value.s]
    case "alphanum" => [err.value.s]
    case "e164" => [err.value.s]
    case _ => []
  }

  /** The arguments of a failed `min` or `max`: current length, lower bound, upper bound. */
  function LengthArgs(limits: CreateLimits, err: FieldError): (args: seq<string>)
    requires err.value.StringValue?
    ensures |args| == 3 && args[0] == Decimal(|err.value.s|) && DecimalValue(args[0]) == |err.value.s|
  {
    DecimalRoundTrip(|err.value.s|);
    var currentLen := Decimal(|err.value.s|);
    match err.field
    case "Name" => [currentLen, limits.minName, limits.maxName]
    case "Username" => [currentLen, limits.minUsername, limits.maxUsername]
    case "Email" => [currentLen, "0", limits.maxEmail]
    case _ => [currentLen, "0", err.param]
  }

  /** The error messages WscValidate returns: one per failed field, in the validator's order. */
  function ValidationErrors(limits: CreateLimits, errs: seq<FieldError>): (ms: seq<ErrorMessage>)
    requires forall i :: 0 <= i < |errs| ==> WellTyped(errs[i])
    ensures |ms| == |errs|
    ensures forall i :: 0 <= i < |errs| ==>
      ms[i] == ValidationMessage(errs[i], ValidationArgs(limits, errs[i]))
  {
    if errs == [] then []
    else [ValidationMessage(errs[0], ValidationArgs(limits, errs[0]))] + ValidationErrors(limits, errs[1..])
  }

  const Ctx := LogContext("UserService", None)
  const Received := Activity(Ctx, Info, "CreateUser request received", map[])
  const DatabaseError := Activity(Ctx, Error, "Database error", map[])

  /** The activity logged once the body is bound: the request name, under the key "username". */
  function Parsed(req: CreateUserRequest): LogRecord
  {
    Activity(Ctx, Info, "CreateUser request parsed", map["username" := StrDatum(req.name)])
  }

  const UsernameTakenError := ErrorMessage(MsgIDAlreadyExists, ErrCodeAlreadyExists, "username", [])

  /** The row to insert: the phone column is set exactly when a phone was given. */
  function ParamsFor(req: CreateUserRequest): (p: CreateUserParams)
    ensures p.name == req.name && p.email == req.email && p.username == req.username
    ensures p.phoneNumber.valid <==> req.phoneNumber != ""
    ensures p.phoneNumber.s == req.phoneNumber
  {
    CreateUserParams(req.name, req.email, req.username, NullText(req.phoneNumber, req.phoneNumber != ""))
  }

  /**
   * What HandleCreateUserRequest does, given the configuration, the bound
   * body (None when binding already answered), the validator's field
   * errors, and what the username check and the insert return.
   */
  function CreateRun(config: Config, bound: Option<CreateUserRequest>, fieldErrors: seq<FieldError>,
                     usernameTaken: DbResult<bool>, created: DbResult<User>): Run
    requires forall i :: 0 <= i < |fieldErrors| ==> WellTyped(fieldErrors[i])
  {
    if bound.None? then Run(NoResponse, [Received], [])
    else
      var req := bound.value;
      var parsed := [Received, Parsed(req)];
      if fieldErrors != [] then Run(ErrorResponse(ValidationErrors(LimitsFor(config), fieldErrors)), parsed, [])
      else ScreenedRun(req, usernameTaken, created)
  }

  /** The rest of the run once validation has passed: the banned-domain check first. */
  function ScreenedRun(req: CreateUserRequest, usernameTaken: DbResult<bool>, created: DbResult<User>): Run
  {
    if DomainBanned(req.email) then Run(ErrorResponse([BannedDomainError]), [Received, Parsed(req)], [])
    else UsernameCheckedRun(req, usernameTaken, created)
  }

  /** The rest of the run once validation and the domain check have passed. */
  function UsernameCheckedRun(req: CreateUserRequest, usernameTaken: DbResult<bool>, created: DbResult<User>): Run
  {
    var parsed := [Received, Parsed(req)];
    var checked := [CheckUsernameExists(req.username)];
    if !usernameTaken.Ok? then Run(ErrorResponse([InternalError]), parsed + [DatabaseError], checked)
    else if usernameTaken.value then Run(ErrorResponse([UsernameTakenError]), parsed, checked)
    else
      var inserted := checked + [CreateUser(ParamsFor(req))];
      if !created.Ok? then Run(ErrorResponse([InternalError]), parsed + [DatabaseError], inserted)
      else Run(SuccessResponse(Some(ToResponse(created.value))), parsed, inserted)
  }

  /** The request passes every check before the row is inserted. */
  predicate ReachesInsert(bound: Option<CreateUserRequest>, fieldErrors: seq<FieldError>, usernameTaken: DbResult<bool>)
  {
    bound.Some? && fieldErrors == [] && !DomainBanned(bound.value.email) && usernameTaken == Ok(false)
  }

  /** Some query of the run inserts a row. */
  predicate Inserts(calls: seq<DbCall>)
  {
    exists i :: 0 <= i < |calls| && calls[i].CreateUser?
  }

  /**
   * Nothing reaches the database before the request is bound, valid and
   * not on a banned domain; the first query is then the username check,
   * and at most one insert follows it.
   */
  lemma NoQueryBeforeChecks(config: Config, bound: Option<CreateUserRequest>, fieldErrors: seq<FieldError>,
                            usernameTaken: DbResult<bool>, created: DbResult<User>)
    requires forall i :: 0 <= i < |fieldErrors| ==> WellTyped(fieldErrors[i])
    ensures var run := CreateRun(config, bound, fieldErrors, usernameTaken, created);
      (run.calls != [] <==> bound.Some? && fieldErrors == [] && !DomainBanned(bound.value.email))
      && (run.calls != [] ==> run.calls[0] == CheckUsernameExists(bound.value.username) && |run.calls| <= 2)
  {
    if bound.Some? && fieldErrors == [] && !DomainBanned(bound.value.email) {
      assert CreateRun(config, bound, fieldErrors, usernameTaken, created)
        == ScreenedRun(bound.value, usernameTaken, created)
        == UsernameCheckedRun(bound.value, usernameTaken, created);
    }
  }

  /**
   * Validation errors are answered with one message per failed field,
   * before the banned-domain check; a banned domain, before the username
   * check. Both are logged only as received and parsed.
   */
  lemma ValidationPrecedesDomainCheck(config: Config, req: CreateUserRequest, fieldErrors: seq<FieldError>,
                                      usernameTaken: DbResult<bool>, created: DbResult<User>)
    requires forall i :: 0 <= i < |fieldErrors| ==> WellTyped(fieldErrors[i])
    ensures var run := CreateRun(config, Some(req), fieldErrors, usernameTaken, created);
      (fieldErrors != [] ==> run.outcome == ErrorResponse(ValidationErrors(LimitsFor(config), fieldErrors))
                              && |run.outcome.errors| == |fieldErrors|)
      && (fieldErrors == [] && DomainBanned(req.email) ==>
            run.outcome == ErrorResponse([ErrorMessage(103, "invalid", "email", [])]))
      && (fieldErrors != [] || DomainBanned(req.email) ==> run.calls == [] && run.logs == [Received, Parsed(req)])
  {
  }

  /** A taken username is answered with the already-exists error on "username", and no row is inserted. */
  lemma TakenUsernameNotCreated(config: Config, req: CreateUserRequest, created: DbResult<User>)
    requires !DomainBanned(req.email)
    ensures var run := CreateRun(config, Some(req), [], Ok(true), created);
      run.outcome == ErrorResponse([ErrorMessage(104, "exists", "username", [])])
      && run.calls == [CheckUsernameExists(req.username)] && !Inserts(run.calls)
  {
    assert CreateRun(config, Some(req), [], Ok(true), created) == ScreenedRun(req, Ok(true), created)
      == UsernameCheckedRun(req, Ok(true), created);
  }

  /** The row is inserted exactly when every check passes, and then with ParamsFor of the request. */
  lemma InsertedExactlyWhenChecksPass(config: Config, bound: Option<CreateUserRequest>, fieldErrors: seq<FieldError>,
                                      usernameTaken: DbResult<bool>, created: DbResult<User>)
    requires forall i :: 0 <= i < |fieldErrors| ==> WellTyped(fieldErrors[i])
    ensures var run := CreateRun(config, bound, fieldErrors, usernameTaken, created);
      (Inserts(run.calls) <==> ReachesInsert(bound, fieldErrors, usernameTaken))
      && (ReachesInsert(bound, fieldErrors, usernameTaken) ==>
            run.calls == [CheckUsernameExists(bound.value.username), CreateUser(ParamsFor(bound.value))])
  {
    var run := CreateRun(config, bound, fieldErrors, usernameTaken, created);
    if bound.Some? && fieldErrors == [] && !DomainBanned(bound.value.email) {
      assert run == ScreenedRun(bound.value, usernameTaken, created) == UsernameCheckedRun(bound.value, usernameTaken, created);
      if usernameTaken == Ok(false) {
        assert run.calls[1].CreateUser?;
      }
    }
  }

  /**
   * Once the checks pass, a failed query is answered with the internal
   * error and logged as a database error; a successful insert is answered
   * with the new row as a response.
   */
  lemma InsertOutcome(config: Config, req: CreateUserRequest, usernameTaken: DbResult<bool>, created: DbResult<User>)
    requires !DomainBanned(req.email)
    ensures var run := CreateRun(config, Some(req), [], usernameTaken, created);
      (!usernameTaken.Ok? || (usernameTaken == Ok(false) && !created.Ok?) ==>
         run.outcome == ErrorResponse([ErrorMessage(102, "internal", "", [""])])
         && run.logs == [Received, Parsed(req), DatabaseError])
      && (usernameTaken == Ok(false) && created.Ok? ==>
         run.outcome == SuccessResponse(Some(ToResponse(created.value))) && run.logs == [Received, Parsed(req)])
  {
    assert CreateRun(config, Some(req), [], usernameTaken, created) == ScreenedRun(req, usernameTaken, created)
      == UsernameCheckedRun(req, usernameTaken, created);
  }

  /**
   * HandleCreateUserRequest over its inputs: read the limits, stop if
   * binding failed, validate, check the domain, then check the username
   * and insert.
   */
  method HandleCreateUser(config: Config, bound: Option<CreateUserRequest>, fieldErrors: seq<FieldError>,
                          usernameTaken: DbResult<bool>, created: DbResult<User>)
    returns (outcome: Outcome, logs: seq<LogRecord>, calls: seq<DbCall>)
    requires forall i :: 0 <= i < |fieldErrors| ==> WellTyped(fieldErrors[i])
    ensures Run(outcome, logs, calls) == CreateRun(config, bound, fieldErrors, usernameTaken, created)
  {
    logs := [Received];
    calls := [];
    var limits := LoadLimits(config);
    if bound.None? {
      return NoResponse, logs, calls;
    }
    var createUserReq := bound.value;
    logs := logs + [Parsed(createUserReq)];
    var validationErrors := ValidationErrors(limits, fieldErrors);
    assert |validationErrors| > 0 <==> fieldErrors != [];
    if |validationErrors| > 0 {
      return ErrorResponse(validationErrors), logs, calls;
    }
    outcome, logs, calls := ScreenAndCreate(createUserReq, usernameTaken, created);
  }

  /** Reject a banned e-mail domain, then check the username and insert. */
  method ScreenAndCreate(createUserReq: CreateUserRequest, usernameTaken: DbResult<bool>, created: DbResult<User>)
    returns (outcome: Outcome, logs: seq<LogRecord>, calls: seq<DbCall>)
    ensures Run(outcome, logs, calls) == ScreenedRun(createUserReq, usernameTaken, created)
  {
    logs, calls := [Received, Parsed(createUserReq)], [];
    var banned := IsEmailDomainBanned(createUserReq.email);
    if banned {
      return ErrorResponse([BannedDomainError]), logs, calls;
    }
    outcome, logs, calls := CheckAndCreate(createUserReq, usernameTaken, created);
  }

  /** Check the username, insert the row, answer with it. */
  method CheckAndCreate(createUserReq: CreateUserRequest, usernameTaken: DbResult<bool>, created: DbResult<User>)
    returns (outcome: Outcome, logs: seq<LogRecord>, calls: seq<DbCall>)
    ensures Run(outcome, logs, calls) == UsernameCheckedRun(createUserReq, usernameTaken, created)
  {
    logs := [Received, Parsed(createUserReq)];
    calls := [CheckUsernameExists(createUserReq.username)];
    if !usernameTaken.Ok? {
      logs := logs + [DatabaseError];
      return ErrorResponse([InternalError]), logs, calls;
    }
    if usernameTaken.value {
      return ErrorResponse([UsernameTakenError]), logs, calls;
    }
    var params := CreateUserParams(createUserReq.name, createUserReq.email, createUserReq.username,
                                   NullText(createUserReq.phoneNumber, createUserReq.phoneNumber != ""));
    calls := calls + [CreateUser(params)];
    if !created.Ok? {
      logs := logs + [DatabaseError];
      return ErrorResponse([InternalError]), logs, calls;
    }
    var response := UserToResponse(created.value);
    return SuccessResponse(Some(response)), logs, calls;
  }
}
