/**
 * HandleUpdateUserRequest: a partial update. Bind the request, load the
 * current row, insist on at least one field, validate, check the new
 * e-mail address, write the provided fields, and record what actually
 * changed in a data-change log record.
 */
module UpdateUser {
  import opened Wrappers
  import opened Text
  import opened UserCommon

  /** UpdateUserRequest; a field left out of the JSON body is a nil pointer, None here. */
  datatype UpdateUserRequest = UpdateUserRequest(id: Int32, name: Option<string>, email: Option<string>,
                                                 phoneNumber: Option<string>)

  /** At least one field is being updated. */
  predicate Provided(req: UpdateUserRequest)
  {
    req.name.Some? || req.email.Some? || req.phoneNumber.Some?
  }

  // ---------------------------------------------------------------------
  // Limits and the validation-argument closure
  // ---------------------------------------------------------------------

  datatype UpdateLimits = UpdateLimits(minName: string, maxName: string, maxEmail: string)

  function LimitsFor(config: Config): UpdateLimits
  {
    UpdateLimits(LimitOr(config, NameMinKey, MinNameLength), LimitOr(config, NameMaxKey, MaxNameLength),
                 LimitOr(config, EmailMaxKey, MaxEmailLength))
  }

  /** With nothing configured the limits are name 2 to 50 and e-mail at most 100. */
  lemma UnconfiguredLimits()
    ensures LimitsFor(map[]) == UpdateLimits("2", "50", "100")
  {
    DefaultLimitsAreConstants();
  }

  /** The three lookups, each replaced by its literal fallback when it fails. */
  method LoadLimits(config: Config) returns (limits: UpdateLimits)
    ensures limits == LimitsFor(config)
  {
    DefaultLimitsAreConstants();
    var minNameLength := if NameMinKey in config then config[NameMinKey] else "";
    if NameMinKey !in config {
      minNameLength := "2";
    }
    var maxNameLength := if NameMaxKey in config then config[NameMaxKey] else "";
    if NameMaxKey !in config {
      maxNameLength := "50";
    }
    var maxEmailLength := if EmailMaxKey in config then config[EmailMaxKey] else "";
    if EmailMaxKey !in config {
      maxEmailLength := "100";
    }
    limits := UpdateLimits(minNameLength, maxNameLength, maxEmailLength);
  }

  /** The failing value is a non-nil `*string`. */
  predicate PointsToString(v: FieldValue)
  {
    v.StringPointer? && v.target.Some?
  }

  /**
   * The closure passed to WscValidate. Every branch that looks at the
   * value first checks that it is a non-nil `*string` and returns no
   * arguments otherwise; `alphanum`, `required` and unknown tags return
   * none either.
   */
  function ValidationArgs(limits: UpdateLimits, err: FieldError): (args: seq<string>)
    ensures err.tag !in {"min", "max", "email", "e164"} ==> args == []
    ensures !PointsToString(err.value) ==> args == []
    ensures (err.tag == "min" || err.tag == "max") && PointsToString(err.value) ==>
      |args| == 3 && args[0] == Decimal(|err.value.target.value|)
      && DecimalValue(args[0]) == |err.value.target.value|
    ensures (err.tag == "min" || err.tag == "max") && PointsToString(err.value) && err.field == "Name" ==>
      args[1..] == [limits.minName, limits.maxName]
    ensures (err.tag == "min" || err.tag == "max") && PointsToString(err.value) && err.field == "Email" ==>
      args[1..] == ["0", limits.maxEmail]
    ensures (err.tag == "min" || err.tag == "max") && PointsToString(err.value) && err.field !in {"Name", "Email"} ==>
      args[1..] == ["0", err.param]
    ensures (err.tag == "email" || err.tag == "e164") && PointsToString(err.value) ==>
      args == [err.value.target.value]
  {
    match err.tag
    case "min" => LengthArgs(limits, err)
    case "max" => LengthArgs(limits, err)
    case "email" => PointedValue(err.value)
    case "e164" => PointedValue(err.value)
    case _ => []
  }

  /** The `min`/`max` branch: no arguments unless the value is a non-nil string pointer. */
  function LengthArgs(limits: UpdateLimits, err: FieldError): (args: seq<string>)
    ensures PointsToString(err.value) ==>
      |args| == 3 && args[0] == Decimal(|err.value.target.value|) && DecimalValue(args[0]) == |err.value.target.value|
    ensures !PointsToString(err.value) ==> args == []
  {
    if err.value.NilValue? then []
    else if !err.value.StringPointer? || err.value.target.None? then []
    else
      var currentLen := |err.value.target.value|;
      DecimalRoundTrip(currentLen);
      match err.field
      case "Name" => [Decimal(currentLen), limits.minName, limits.maxName]
      case "Email" => [Decimal(currentLen), "0", limits.maxEmail]
      case _ => [Decimal(currentLen), "0", err.param]
  }

  /** The `email`/`e164` branch: the pointed-to value, or nothing. */
  function PointedValue(v: FieldValue): (args: seq<string>)
    ensures PointsToString(v) ==> args == [v.target.value]
    ensures !PointsToString(v) ==> args == []
  {
    if v.NilValue? then []
    else if !v.StringPointer? || v.target.None? then []
    else [v.target.value]
  }

  /** The error messages WscValidate returns: one per failed field, in the validator's order. */
  function ValidationErrors(limits: UpdateLimits, errs: seq<FieldError>): (ms: seq<ErrorMessage>)
    ensures |ms| == |errs|
    ensures forall i :: 0 <= i < |errs| ==>
      ms[i] == ValidationMessage(errs[i], ValidationArgs(limits, errs[i]))
  {
    if errs == [] then []
    else [ValidationMessage(errs[0], ValidationArgs(limits, errs[0]))] + ValidationErrors(limits, errs[1..])
  }

  // ---------------------------------------------------------------------
  // Update parameters
  // ---------------------------------------------------------------------

  /** The zero pgtype.Text: NULL, leaving the column as it is. */
  const Unset := NullText("", false)

  /**
   * The update parameters: always the request id, and each of name,
   * e-mail and phone set, to the request value, exactly when provided.
   */
  function ParamsFor(req: UpdateUserRequest): (p: UpdateUserParams)
    ensures p.id == req.id
    ensures p.name.valid <==> req.name.Some?
    ensures p.email.valid <==> req.email.Some?
    ensures p.phoneNumber.valid <==> req.phoneNumber.Some?
    ensures req.name.Some? ==> p.name.s == req.name.value
    ensures req.email.Some? ==> p.email.s == req.email.value
    ensures req.phoneNumber.Some? ==> p.phoneNumber.s == req.phoneNumber.value
    ensures req.name.None? ==> p.name == Unset
    ensures req.email.None? ==> p.email == Unset
    ensures req.phoneNumber.None? ==> p.phoneNumber == Unset
  {
    UpdateUserParams(req.id,
                     if req.name.Some? then NullText(req.name.value, true) else Unset,
                     if req.email.Some? then NullText(req.email.value, true) else Unset,
                     if req.phoneNumber.Some? then NullText(req.phoneNumber.value, true) else Unset)
  }

  // ---------------------------------------------------------------------
  // The change list
  // ---------------------------------------------------------------------

  /** logharbour's ChangeInfo: an entity, an operation and the changes appended so far. */
  class ChangeInfo {
    const entity: string
    const op: string
    var changes: seq<Change>

    constructor (entity: string, op: string)
      ensures this.entity == entity && this.op == op && changes == []
    {
      this.entity := entity;
      this.op := op;
      changes := [];
    }

    method AddChange(field: string, oldValue: string, newValue: string)
      modifies this
      ensures changes == old(changes) + [Change(field, oldValue, newValue)]
    {
      changes := changes + [Change(field, oldValue, newValue)];
    }

    function Snapshot(): ChangeSet
      reads this
    {
      ChangeSet(entity, op, changes)
    }
  }

  /** The phone the change list compares against: a NULL column reads as "". */
  function OldPhone(cur: User): (s: string)
    ensures cur.phoneNumber.valid ==> s == cur.phoneNumber.s
    ensures !cur.phoneNumber.valid ==> s == ""
  {
    if cur.phoneNumber.valid then cur.phoneNumber.s else ""
  }

  /** The value the request gives a field, if it gives it at all and it differs from `current`. */
  function Changed(field: string, current: string, requested: Option<string>): seq<Change>
  {
    if requested.Some? && current != requested.value then [Change(field, current, requested.value)] else []
  }

  /** The changes an update makes to the current row, name first, then e-mail, then phone. */
  function ChangeList(cur: User, req: UpdateUserRequest): seq<Change>
  {
    Changed("name", cur.name, req.name) + Changed("email", cur.email, req.email)
      + Changed("phone_number", OldPhone(cur), req.phoneNumber)
  }

  /** The first change recorded for `field`. */
  function EntryFor(changes: seq<Change>, field: string): Option<Change>
  {
    if changes == [] then None
    else if changes[0].field == field then Some(changes[0])
    else EntryFor(changes[1..], field)
  }

  lemma {:induction false} EntryForAppend(a: seq<Change>, b: seq<Change>, field: string)
    ensures EntryFor(a + b, field) == if EntryFor(a, field).Some? then EntryFor(a, field) else EntryFor(b, field)
  {
    if a != [] {
      assert (a + b)[0] == a[0];
      assert (a + b)[1..] == a[1..] + b;
      EntryForAppend(a[1..], b, field);
    } else {
      assert a + b == b;
    }
  }

  /**
   * There is a name change exactly when a name is provided and differs
   * from the current one, and it records the current and the new name;
   * the same for the e-mail address, and for the phone against the
   * current phone read as "" when NULL.
   */
  lemma ChangeListEntries(cur: User, req: UpdateUserRequest)
    ensures EntryFor(ChangeList(cur, req), "name") ==
      if req.name.Some? && req.name.value != cur.name then Some(Change("name", cur.name, req.name.value)) else None
    ensures EntryFor(ChangeList(cur, req), "email") ==
      if req.email.Some? && req.email.value != cur.email then Some(Change("email", cur.email, req.email.value))
      else None
    ensures EntryFor(ChangeList(cur, req), "phone_number") ==
      if req.phoneNumber.Some? && req.phoneNumber.value != OldPhone(cur)
      then Some(Change("phone_number", OldPhone(cur), req.phoneNumber.value))
      else None
  {
    var n := Changed("name", cur.name, req.name);
    var e := Changed("email", cur.email, req.email);
    var p := Changed("phone_number", OldPhone(cur), req.phoneNumber);
    forall f | f in ["name", "email", "phone_number"]
      ensures EntryFor(n + e + p, f) ==
        if EntryFor(n, f).Some? then EntryFor(n, f) else if EntryFor(e, f).Some? then EntryFor(e, f) else EntryFor(p, f)
    {
      EntryForAppend(n + e, p, f);
      EntryForAppend(n, e, f);
    }
    EntryForChanged("name", cur.name, req.name, "email");
    EntryForChanged("name", cur.name, req.name, "name");
    EntryForChanged("name", cur.name, req.name, "phone_number");
    EntryForChanged("email", cur.email, req.email, "name");
    EntryForChanged("email", cur.email, req.email, "email");
    EntryForChanged("email", cur.email, req.email, "phone_number");
    EntryForChanged("phone_number", OldPhone(cur), req.phoneNumber, "name");
    EntryForChanged("phone_number", OldPhone(cur), req.phoneNumber, "email");
    EntryForChanged("phone_number", OldPhone(cur), req.phoneNumber, "phone_number");
  }

  /** The change a single field contributes is the only entry of its own list. */
  lemma EntryForChanged(field: string, current: string, requested: Option<string>, f: string)
    ensures EntryFor(Changed(field, current, requested), f) ==
      if f == field && requested.Some? && current != requested.value
      then Some(Change(field, current, requested.value)) else None
  {
    var c := Changed(field, current, requested);
    if c != [] {
      assert c[1..] == [];
    }
  }

  /** The position of a field in the change list's fixed order. */
  function FieldRank(field: string): nat
  {
    if field == "name" then 0 else if field == "email" then 1 else if field == "phone_number" then 2 else 3
  }

  /**
   * Changes appear in the order name, e-mail, phone, each field at most
   * once, and no entry names any other field.
   */
  lemma ChangeListOrdered(cur: User, req: UpdateUserRequest)
    ensures |ChangeList(cur, req)| <= 3
    ensures forall i :: 0 <= i < |ChangeList(cur, req)| ==>
      ChangeList(cur, req)[i].field in ["name", "email", "phone_number"]
    ensures forall i, j :: 0 <= i < j < |ChangeList(cur, req)| ==>
      FieldRank(ChangeList(cur, req)[i].field) < FieldRank(ChangeList(cur, req)[j].field)
  {
  }

  /** No change is recorded exactly when every provided field already holds its requested value. */
  lemma NoChangeExactly(cur: User, req: UpdateUserRequest)
    ensures ChangeList(cur, req) == [] <==>
      (req.name.Some? ==> req.name.value == cur.name)
      && (req.email.Some? ==> req.email.value == cur.email)
      && (req.phoneNumber.Some? ==> req.phoneNumber.value == OldPhone(cur))
  {
  }

  // ---------------------------------------------------------------------
  // The handler
  // ---------------------------------------------------------------------

  /** The logger of a request: module UserService, instance id the request id in decimal. */
  function Ctx(req: UpdateUserRequest): LogContext
  {
    LogContext("UserService", Some(IntDecimal(req.id)))
  }

  function Received(req: UpdateUserRequest): LogRecord
  {
    Activity(Ctx(req), Info, "UpdateUser request received", map[])
  }

  function NotFound(req: UpdateUserRequest): LogRecord
  {
    Activity(Ctx(req), Info, "User not found", map["id" := IntDatum(req.id)])
  }

  function DatabaseError(req: UpdateUserRequest): LogRecord
  {
    Activity(Ctx(req), Error, "Database error", map[])
  }

  function NothingToUpdate(req: UpdateUserRequest): LogRecord
  {
    Activity(Ctx(req), Info, "No fields to update", map[])
  }

  /** The audit activity: which fields the request provided, whether or not their values changed. */
  function Updated(req: UpdateUserRequest): LogRecord
  {
    Activity(Ctx(req), Info, "User updated", map["updated_fields" := MapDatum(map[
      "name_changed" := BoolDatum(req.name.Some?),
      "email_changed" := BoolDatum(req.email.Some?),
      "phone_changed" := BoolDatum(req.phoneNumber.Some?)])])
  }

  /** The data-change record for a list of changes. */
  function ChangeRecord(req: UpdateUserRequest, changes: seq<Change>): LogRecord
  {
    DataChange(Ctx(req), "User updated", ChangeSet("User", "Update", changes))
  }

  /** The not-found entry, on the id field, carrying the requested id in decimal. */
  function NotFoundError(req: UpdateUserRequest): ErrorMessage
  {
    ErrorMessage(MsgIDNotFound, ErrCodeNotFound, "id", [IntDecimal(req.id)])
  }

  const NoFieldsError := ErrorMessage(MsgIDNoFieldsToUpdate, ErrCodeNoFields, "", [""])
  const EmailTakenError := ErrorMessage(MsgIDAlreadyExists, ErrCodeAlreadyExists, "email", [])

  /**
   * What HandleUpdateUserRequest does, given the configuration, the bound
   * body (None when binding already answered), what loading the current
   * row returns, the validator's field errors, and what the e-mail check
   * and the update return.
   */
  function UpdateRun(config: Config, bound: Option<UpdateUserRequest>, current: DbResult<User>,
                     fieldErrors: seq<FieldError>, emailTaken: DbResult<bool>, updated: DbResult<User>): Run
  {
    if bound.None? then Run(NoResponse, [], [])
    else
      var req := bound.value;
      var loaded := [GetUserByID(req.id)];
      if current == NoRows then Run(ErrorResponse([NotFoundError(req)]), [Received(req), NotFound(req)], loaded)
      else if current == DbFailure then Run(ErrorResponse([InternalError]), [Received(req), DatabaseError(req)], loaded)
      else if !Provided(req) then Run(ErrorResponse([NoFieldsError]), [Received(req), NothingToUpdate(req)], loaded)
      else CheckedRun(config, req, current.value, fieldErrors, emailTaken, updated)
  }

  /** The rest of the run once the user is loaded and at least one field is provided. */
  function CheckedRun(config: Config, req: UpdateUserRequest, cur: User, fieldErrors: seq<FieldError>,
                      emailTaken: DbResult<bool>, updated: DbResult<User>): Run
  {
    if fieldErrors != [] then
      Run(ErrorResponse(ValidationErrors(LimitsFor(config), fieldErrors)), [Received(req)], [GetUserByID(req.id)])
    else if req.email.Some? && DomainBanned(req.email.value) then
      Run(ErrorResponse([BannedDomainError]), [Received(req)], [GetUserByID(req.id)])
    else EmailCheckedRun(req, cur, emailTaken, updated)
  }

  /** The rest of the run once validation and the domain check have passed. */
  function EmailCheckedRun(req: UpdateUserRequest, cur: User, emailTaken: DbResult<bool>, updated: DbResult<User>): Run
  {
    var checked := [GetUserByID(req.id)] + if req.email.Some? then [CheckEmailExistsForUpdate(req.email.value, req.id)] else [];
    if req.email.Some? && !emailTaken.Ok? then
      Run(ErrorResponse([InternalError]), [Received(req), DatabaseError(req)], checked)
    else if req.email.Some? && emailTaken.value then
      Run(ErrorResponse([EmailTakenError]), [Received(req)], checked)
    else WrittenRun(req, cur, checked, updated)
  }

  /** The rest of the run once the row is written after the queries `checked`. */
  function WrittenRun(req: UpdateUserRequest, cur: User, checked: seq<DbCall>, updated: DbResult<User>): Run
  {
    var written := checked + [UpdateUser(ParamsFor(req))];
    if !updated.Ok? then Run(ErrorResponse([InternalError]), [Received(req), DatabaseError(req)], written)
    else
      var changes := ChangeList(cur, req);
      Run(SuccessResponse(None),
          [Received(req)] + (if changes != [] then [ChangeRecord(req, changes)] else []) + [Updated(req)],
          written)
  }

  /** The request passes every check before the update is written. */
  predicate ReachesUpdate(bound: Option<UpdateUserRequest>, current: DbResult<User>, fieldErrors: seq<FieldError>,
                          emailTaken: DbResult<bool>)
  {
    bound.Some? && current.Ok? && Provided(bound.value) && fieldErrors == []
    && (bound.value.email.Some? ==> !DomainBanned(bound.value.email.value) && emailTaken == Ok(false))
  }

  /** Some query of the run writes the row. */
  predicate Writes(calls: seq<DbCall>)
  {
    exists i :: 0 <= i < |calls| && calls[i].UpdateUser?
  }

  /** Some record of the run is a data-change record. */
  predicate LogsDataChange(logs: seq<LogRecord>)
  {
    exists i :: 0 <= i < |logs| && logs[i].DataChange?
  }

  /**
   * A missing user, or a failed lookup, is reported before anything else
   * is looked at, even when the request updates no field.
   */
  lemma LookupFailurePrecedes(config: Config, req: UpdateUserRequest, current: DbResult<User>,
                              fieldErrors: seq<FieldError>, emailTaken: DbResult<bool>, updated: DbResult<User>)
    requires !current.Ok?
    ensures var run := UpdateRun(config, Some(req), current, fieldErrors, emailTaken, updated);
      run.calls == [GetUserByID(req.id)]
      && (current == NoRows ==> run.outcome == ErrorResponse([ErrorMessage(105, "missing", "id", [IntDecimal(req.id)])]))
      && (current == DbFailure ==> run.outcome == ErrorResponse([InternalError]))
  {
  }

  /**
   * An update that provides no field is rejected with the no-fields error,
   * before validation, and nothing is written or logged as a change.
   */
  lemma EmptyUpdateRejected(config: Config, req: UpdateUserRequest, cur: User,
                            fieldErrors: seq<FieldError>, emailTaken: DbResult<bool>, updated: DbResult<User>)
    requires !Provided(req)
    ensures var run := UpdateRun(config, Some(req), Ok(cur), fieldErrors, emailTaken, updated);
      run.outcome == ErrorResponse([ErrorMessage(106, "missing", "", [""])])
      && run.calls == [GetUserByID(req.id)] && !Writes(run.calls) && !LogsDataChange(run.logs)
  {
  }

  /** Once the user is loaded and a field is provided, the run is the checked part. */
  lemma LoadedRun(config: Config, req: UpdateUserRequest, cur: User, fieldErrors: seq<FieldError>,
                  emailTaken: DbResult<bool>, updated: DbResult<User>)
    requires Provided(req)
    ensures UpdateRun(config, Some(req), Ok(cur), fieldErrors, emailTaken, updated)
      == CheckedRun(config, req, cur, fieldErrors, emailTaken, updated)
  {
  }

  /** The checked part of a run whose e-mail domain is banned. */
  lemma BannedCheckedRun(config: Config, req: UpdateUserRequest, cur: User,
                         emailTaken: DbResult<bool>, updated: DbResult<User>)
    requires req.email.Some? && DomainBanned(req.email.value)
    ensures CheckedRun(config, req, cur, [], emailTaken, updated)
      == Run(ErrorResponse([BannedDomainError]), [Received(req)], [GetUserByID(req.id)])
  {
  }

  /** A banned domain is reported without asking whether the address is taken. */
  lemma BannedPrecedesEmailCheck(config: Config, req: UpdateUserRequest, cur: User,
                                 emailTaken: DbResult<bool>, updated: DbResult<User>)
    requires req.email.Some? && DomainBanned(req.email.value)
    ensures var run := UpdateRun(config, Some(req), Ok(cur), [], emailTaken, updated);
      run.outcome == ErrorResponse([ErrorMessage(103, "invalid", "email", [])])
      && run.calls == [GetUserByID(req.id)]
  {
    BannedCheckedRun(config, req, cur, emailTaken, updated);
    LoadedRun(config, req, cur, [], emailTaken, updated);
  }

  /**
   * The row is written exactly when every check passes, and then with the
   * request id and exactly the provided fields.
   */
  lemma WrittenExactlyWhenChecksPass(config: Config, bound: Option<UpdateUserRequest>, current: DbResult<User>,
                                     fieldErrors: seq<FieldError>, emailTaken: DbResult<bool>, updated: DbResult<User>)
    ensures var run := UpdateRun(config, bound, current, fieldErrors, emailTaken, updated);
      Writes(run.calls) <==> ReachesUpdate(bound, current, fieldErrors, emailTaken)
    ensures var run := UpdateRun(config, bound, current, fieldErrors, emailTaken, updated);
      ReachesUpdate(bound, current, fieldErrors, emailTaken) ==>
        run.calls[|run.calls| - 1] == UpdateUser(ParamsFor(bound.value))
  {
    if bound.Some? && current.Ok? && Provided(bound.value) {
      LoadedRun(config, bound.value, current.value, fieldErrors, emailTaken, updated);
      CheckedRunWrites(config, bound.value, current.value, fieldErrors, emailTaken, updated);
    } else {
      assert UpdateRun(config, bound, current, fieldErrors, emailTaken, updated).calls
        == if bound.None? then [] else [GetUserByID(bound.value.id)];
    }
  }

  /** Within the checked part, the row is written exactly when every remaining check passes. */
  lemma CheckedRunWrites(config: Config, req: UpdateUserRequest, cur: User, fieldErrors: seq<FieldError>,
                         emailTaken: DbResult<bool>, updated: DbResult<User>)
    ensures var calls := CheckedRun(config, req, cur, fieldErrors, emailTaken, updated).calls;
      var passes := fieldErrors == [] && (req.email.Some? ==> !DomainBanned(req.email.value) && emailTaken == Ok(false));
      (Writes(calls) <==> passes) && (passes ==> calls[|calls| - 1] == UpdateUser(ParamsFor(req)))
  {
    if fieldErrors == [] && !(req.email.Some? && DomainBanned(req.email.value)) {
      var checked := [GetUserByID(req.id)] + if req.email.Some? then [CheckEmailExistsForUpdate(req.email.value, req.id)] else [];
      assert !Writes(checked);
      if !(req.email.Some? && (!emailTaken.Ok? || emailTaken.value)) {
        var written := checked + [UpdateUser(ParamsFor(req))];
        assert written[|written| - 1] == UpdateUser(ParamsFor(req));
        assert EmailCheckedRun(req, cur, emailTaken, updated).calls == written;
      } else {
        assert EmailCheckedRun(req, cur, emailTaken, updated).calls == checked;
      }
    }
  }

  /**
   * After a successful write, a data-change record is logged exactly when
   * some field really changed, and it holds the change list; the closing
   * activity reports which fields were provided.
   */
  lemma DataChangeExactlyWhenChanged(config: Config, req: UpdateUserRequest, cur: User,
                                     emailTaken: DbResult<bool>, updated: User)
    requires ReachesUpdate(Some(req), Ok(cur), [], emailTaken)
    ensures var run := UpdateRun(config, Some(req), Ok(cur), [], emailTaken, Ok(updated));
      run.outcome == SuccessResponse(None)
      && (LogsDataChange(run.logs) <==> ChangeList(cur, req) != [])
      && (ChangeList(cur, req) != [] ==> run.logs[1].change == ChangeSet("User", "Update", ChangeList(cur, req)))
      && run.logs[|run.logs| - 1] == Updated(req)
  {
    var run := UpdateRun(config, Some(req), Ok(cur), [], emailTaken, Ok(updated));
    if ChangeList(cur, req) != [] {
      assert run.logs[1].DataChange?;
    } else {
      assert run.logs == [Received(req), Updated(req)];
    }
  }

  /** A bound request is first logged as received, whatever happens next. */
  lemma ReceivedFirst(config: Config, req: UpdateUserRequest, current: DbResult<User>,
                      fieldErrors: seq<FieldError>, emailTaken: DbResult<bool>, updated: DbResult<User>)
    ensures var run := UpdateRun(config, Some(req), current, fieldErrors, emailTaken, updated);
      |run.logs| >= 1 && run.logs[0] == Received(req)
  {
  }

  /** Every record of a bound request goes through the logger whose instance id is the request id. */
  lemma RecordsCarryInstanceId(config: Config, req: UpdateUserRequest, current: DbResult<User>,
                               fieldErrors: seq<FieldError>, emailTaken: DbResult<bool>, updated: DbResult<User>)
    ensures var run := UpdateRun(config, Some(req), current, fieldErrors, emailTaken, updated);
      forall i :: 0 <= i < |run.logs| ==> run.logs[i].context == Ctx(req)
  {
    if current.Ok? && Provided(req) {
      LoadedRun(config, req, current.value, fieldErrors, emailTaken, updated);
      if fieldErrors == [] && !(req.email.Some? && DomainBanned(req.email.value)) {
        EmailCheckedRunContext(req, current.value, emailTaken, updated);
      }
    }
  }

  /** The records of the part after the domain check all come from the request's logger. */
  lemma EmailCheckedRunContext(req: UpdateUserRequest, cur: User, emailTaken: DbResult<bool>, updated: DbResult<User>)
    ensures var logs := EmailCheckedRun(req, cur, emailTaken, updated).logs;
      forall i :: 0 <= i < |logs| ==> logs[i].context == Ctx(req)
  {
    if !(req.email.Some? && (!emailTaken.Ok? || emailTaken.value)) && updated.Ok? {
      var changes := ChangeList(cur, req);
      var logs := [Received(req)] + (if changes != [] then [ChangeRecord(req, changes)] else []) + [Updated(req)];
      assert EmailCheckedRun(req, cur, emailTaken, updated).logs == logs;
    }
  }

  /** The update parameters, filled in one provided field at a time. */
  method BuildParams(updateUserReq: UpdateUserRequest) returns (updateParams: UpdateUserParams)
    ensures updateParams == ParamsFor(updateUserReq)
  {
    updateParams := UpdateUserParams(updateUserReq.id, Unset, Unset, Unset);
    if updateUserReq.name.Some? {
      updateParams := updateParams.(name := NullText(updateUserReq.name.value, true));
    }
    if updateUserReq.email.Some? {
      updateParams := updateParams.(email := NullText(updateUserReq.email.value, true));
    }
    if updateUserReq.phoneNumber.Some? {
      updateParams := updateParams.(phoneNumber := NullText(updateUserReq.phoneNumber.value, true));
    }
  }

  /** The changelog of the update: one AddChange per provided field whose value differs. */
  method TrackChanges(currentUser: User, updateUserReq: UpdateUserRequest) returns (changeInfo: ChangeInfo)
    ensures fresh(changeInfo)
    ensures changeInfo.entity == "User" && changeInfo.op == "Update"
    ensures changeInfo.changes == ChangeList(currentUser, updateUserReq)
  {
    changeInfo := new ChangeInfo("User", "Update");
    if updateUserReq.name.Some? && currentUser.name != updateUserReq.name.value {
      changeInfo.AddChange("name", currentUser.name, updateUserReq.name.value);
    }
    if updateUserReq.email.Some? && currentUser.email != updateUserReq.email.value {
      changeInfo.AddChange("email", currentUser.email, updateUserReq.email.value);
    }
    if updateUserReq.phoneNumber.Some? {
      var oldPhone := "";
      if currentUser.phoneNumber.valid {
        oldPhone := currentUser.phoneNumber.s;
      }
      if oldPhone != updateUserReq.phoneNumber.value {
        changeInfo.AddChange("phone_number", oldPhone, updateUserReq.phoneNumber.value);
      }
    }
  }

  /** HandleUpdateUserRequest, step by step with early returns. */
  method HandleUpdateUser(config: Config, bound: Option<UpdateUserRequest>, current: DbResult<User>,
                          fieldErrors: seq<FieldError>, emailTaken: DbResult<bool>, updated: DbResult<User>)
    returns (outcome: Outcome, logs: seq<LogRecord>, calls: seq<DbCall>)
    ensures Run(outcome, logs, calls) == UpdateRun(config, bound, current, fieldErrors, emailTaken, updated)
  {
    logs, calls := [], [];
    if bound.None? {
      return NoResponse, logs, calls;
    }
    var updateUserReq := bound.value;
    logs := logs + [Received(updateUserReq)];

    calls := calls + [GetUserByID(updateUserReq.id)];
    if current == NoRows {
      logs := logs + [NotFound(updateUserReq)];
      return ErrorResponse([NotFoundError(updateUserReq)]), logs, calls;
    }
    if current == DbFailure {
      logs := logs + [DatabaseError(updateUserReq)];
      return ErrorResponse([InternalError]), logs, calls;
    }
    var currentUser := current.value;

    if updateUserReq.name.None? && updateUserReq.email.None? && updateUserReq.phoneNumber.None? {
      logs := logs + [NothingToUpdate(updateUserReq)];
      return ErrorResponse([NoFieldsError]), logs, calls;
    }

    outcome, logs, calls := CheckAndWrite(config, updateUserReq, currentUser, fieldErrors, emailTaken, updated);
  }

  /**
   * The second half of HandleUpdateUserRequest, for a loaded user and a
   * request that provides a field: validate, then check the e-mail domain.
   * Its result is the whole run, so it begins with the record and the
   * query of the first half.
   */
  method CheckAndWrite(config: Config, updateUserReq: UpdateUserRequest, currentUser: User,
                       fieldErrors: seq<FieldError>, emailTaken: DbResult<bool>, updated: DbResult<User>)
    returns (outcome: Outcome, logs: seq<LogRecord>, calls: seq<DbCall>)
    ensures Run(outcome, logs, calls) == CheckedRun(config, updateUserReq, currentUser, fieldErrors, emailTaken, updated)
  {
    logs, calls := [Received(updateUserReq)], [GetUserByID(updateUserReq.id)];
    var limits := LoadLimits(config);
    var validationErrors := ValidationErrors(limits, fieldErrors);
    if |validationErrors| > 0 {
      return ErrorResponse(validationErrors), logs, calls;
    }
    if updateUserReq.email.Some? {
      var banned := IsEmailDomainBanned(updateUserReq.email.value);
      if banned {
        return ErrorResponse([BannedDomainError]), logs, calls;
      }
    }
    outcome, logs, calls := CheckEmailAndWrite(updateUserReq, currentUser, emailTaken, updated);
  }

  /** Ask whether a provided address is taken by another user, then write. */
  method CheckEmailAndWrite(updateUserReq: UpdateUserRequest, currentUser: User, emailTaken: DbResult<bool>,
                            updated: DbResult<User>)
    returns (outcome: Outcome, logs: seq<LogRecord>, calls: seq<DbCall>)
    ensures Run(outcome, logs, calls) == EmailCheckedRun(updateUserReq, currentUser, emailTaken, updated)
  {
    logs, calls := [Received(updateUserReq)], [GetUserByID(updateUserReq.id)];
    if updateUserReq.email.Some? {
      calls := calls + [CheckEmailExistsForUpdate(updateUserReq.email.value, updateUserReq.id)];
      if !emailTaken.Ok? {
        logs := logs + [DatabaseError(updateUserReq)];
        return ErrorResponse([InternalError]), logs, calls;
      }
      if emailTaken.value {
        return ErrorResponse([EmailTakenError]), logs, calls;
      }
    }
    outcome, logs, calls := WriteAndLog(updateUserReq, currentUser, calls, updated);
  }

  /**
   * Write the row after the queries `checked`, then log the changes and the
   * closing activity. The queries issued are `checked` and the write.
   */
  method WriteAndLog(updateUserReq: UpdateUserRequest, currentUser: User, checked: seq<DbCall>, updated: DbResult<User>)
    returns (outcome: Outcome, logs: seq<LogRecord>, calls: seq<DbCall>)
    ensures Run(outcome, logs, calls) == WrittenRun(updateUserReq, currentUser, checked, updated)
  {
    logs := [Received(updateUserReq)];
    var updateParams := BuildParams(updateUserReq);
    calls := checked + [UpdateUser(updateParams)];
    if !updated.Ok? {
      logs := logs + [DatabaseError(updateUserReq)];
      return ErrorResponse([InternalError]), logs, calls;
    }
    var changeInfo := TrackChanges(currentUser, updateUserReq);
    if |changeInfo.changes| > 0 {
      logs := logs + [DataChange(Ctx(updateUserReq), "User updated", changeInfo.Snapshot())];
    }
    logs := logs + [Updated(updateUserReq)];
    return SuccessResponse(None), logs, calls;
  }
}
