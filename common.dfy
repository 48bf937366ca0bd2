/**
 * What the user service's handlers share: the message ids and error codes
 * they answer with, the validation limits, the tables that map a failed
 * validation tag to an error code and a message id, the database row and
 * response types, `userToResponse` and `isEmailDomainBanned`, and the
 * vocabulary in which a handler run is described (error messages, log
 * records, database calls).
 */
module UserCommon {
  import opened Wrappers
  import opened Text
  import opened TimeFormat

  // ---------------------------------------------------------------------
  // Constants
  // ---------------------------------------------------------------------

  const MsgIDValidation: int := 101
  const MsgIDInternalError: int := 102
  const MsgIDBannedDomain: int := 103
  const MsgIDAlreadyExists: int := 104
  const MsgIDNotFound: int := 105
  const MsgIDNoFieldsToUpdate: int := 106

  const ErrCodeRequired := "required"
  const ErrCodeTooSmall := "toosmall"
  const ErrCodeTooBig := "toobig"
  const ErrCodeInvalidFormat := "datafmt"
  const ErrCodeInternal := "internal"
  const ErrCodeBannedDomain := "invalid"
  const ErrCodeAlreadyExists := "exists"
  const ErrCodeNotFound := "missing"
  const ErrCodeNoFields := "missing"

  const MinNameLength: nat := 2
  const MaxNameLength: nat := 50
  const MinUsernameLength: nat := 3
  const MaxUsernameLength: nat := 30
  const MaxEmailLength: nat := 100

  /** A Go `int32`. */
  type Int32 = x: int | -0x8000_0000 <= x < 0x8000_0000

  // ---------------------------------------------------------------------
  // The validation tables set up by init
  // ---------------------------------------------------------------------

  const ValidationTagToErrCode: map<string, string> := map[
    "required" := ErrCodeRequired,
    "min" := ErrCodeTooSmall,
    "max" := ErrCodeTooBig,
    "email" := ErrCodeInvalidFormat,
    "alphanum" := ErrCodeInvalidFormat,
    "e164" := ErrCodeInvalidFormat
  ]

  const ValidationTagToMsgID: map<string, int> := map[
    "required" := MsgIDValidation,
    "min" := MsgIDValidation,
    "max" := MsgIDValidation,
    "email" := MsgIDValidation,
    "alphanum" := MsgIDValidation,
    "e164" := MsgIDValidation
  ]

  const DefaultErrCode := ErrCodeInvalidFormat
  const DefaultMsgID := MsgIDValidation

  /**
   * The error code reported for a failed validation tag: only `required`,
   * `min` and `max` have codes of their own, every format tag and every
   * tag missing from the table reports a format error.
   */
  function ErrCodeFor(tag: string): (code: string)
    ensures code == ErrCodeRequired <==> tag == "required"
    ensures code == ErrCodeTooSmall <==> tag == "min"
    ensures code == ErrCodeTooBig <==> tag == "max"
    ensures code == ErrCodeInvalidFormat <==> tag !in {"required", "min", "max"}
  {
    if tag in ValidationTagToErrCode then ValidationTagToErrCode[tag] else DefaultErrCode
  }

  /** The message id for a failed validation tag: every tag, listed or not, gets the general one. */
  function MsgIDFor(tag: string): (id: int)
    ensures id == MsgIDValidation
  {
    if tag in ValidationTagToMsgID then ValidationTagToMsgID[tag] else DefaultMsgID
  }

  // ---------------------------------------------------------------------
  // The validate struct tags on the request types
  // ---------------------------------------------------------------------

  /** One rule of a `validate:"..."` struct tag. */
  datatype Rule = Required | OmitEmpty | Min(n: nat) | Max(n: nat) | EmailFormat | AlphaNum | E164

  /** The numeric argument of the first `min=` rule, if any. */
  function MinOf(rules: seq<Rule>): Option<nat>
  {
    if rules == [] then None else if rules[0].Min? then Some(rules[0].n) else MinOf(rules[1..])
  }

  /** The numeric argument of the first `max=` rule, if any. */
  function MaxOf(rules: seq<Rule>): Option<nat>
  {
    if rules == [] then None else if rules[0].Max? then Some(rules[0].n) else MaxOf(rules[1..])
  }

  const CreateNameRules: seq<Rule> := [Required, Min(2), Max(50)]
  const CreateEmailRules: seq<Rule> := [Required, EmailFormat, Max(100)]
  const CreateUsernameRules: seq<Rule> := [Required, Min(3), Max(30), AlphaNum]
  const CreatePhoneRules: seq<Rule> := [OmitEmpty, E164]
  const UpdateIDRules: seq<Rule> := [Required]
  const UpdateNameRules: seq<Rule> := [OmitEmpty, Min(2), Max(50)]
  const UpdateEmailRules: seq<Rule> := [OmitEmpty, EmailFormat, Max(100)]
  const UpdatePhoneRules: seq<Rule> := [OmitEmpty, E164]

  /** The limits written into the struct tags are the named constants. */
  lemma StructTagsMatchConstants()
    ensures MinOf(CreateNameRules) == Some(MinNameLength) && MaxOf(CreateNameRules) == Some(MaxNameLength)
    ensures MinOf(CreateUsernameRules) == Some(MinUsernameLength)
    ensures MaxOf(CreateUsernameRules) == Some(MaxUsernameLength)
    ensures MinOf(CreateEmailRules) == None && MaxOf(CreateEmailRules) == Some(MaxEmailLength)
    ensures MinOf(UpdateNameRules) == Some(MinNameLength) && MaxOf(UpdateNameRules) == Some(MaxNameLength)
    ensures MinOf(UpdateEmailRules) == None && MaxOf(UpdateEmailRules) == Some(MaxEmailLength)
  {
    assert CreateNameRules[1..] == [Min(2), Max(50)];
    assert CreateNameRules[1..][1..] == [Max(50)];
    assert CreateUsernameRules[1..] == [Min(3), Max(30), AlphaNum];
    assert CreateUsernameRules[1..][1..] == [Max(30), AlphaNum];
    assert CreateEmailRules[1..] == [EmailFormat, Max(100)];
    assert CreateEmailRules[1..][1..] == [Max(100)];
    assert CreateEmailRules[1..][1..][1..] == [];
    assert UpdateNameRules[1..] == [Min(2), Max(50)];
    assert UpdateNameRules[1..][1..] == [Max(50)];
    assert UpdateEmailRules[1..] == [EmailFormat, Max(100)];
    assert UpdateEmailRules[1..][1..] == [Max(100)];
    assert UpdateEmailRules[1..][1..][1..] == [];
  }

  /** The literal fallbacks in the handlers are the constants written in decimal. */
  lemma DefaultLimitsAreConstants()
    ensures Decimal(MinNameLength) == "2" && Decimal(MaxNameLength) == "50"
    ensures Decimal(MinUsernameLength) == "3" && Decimal(MaxUsernameLength) == "30"
    ensures Decimal(MaxEmailLength) == "100"
  {
    assert Decimal(5) == "5" && Decimal(10) == "10";
  }

  // ---------------------------------------------------------------------
  // Rows and responses
  // ---------------------------------------------------------------------

  /** pgtype.Text: a nullable text column. */
  datatype NullText = NullText(s: string, valid: bool)

  /** pgtype.Timestamp: a nullable timestamp column. */
  datatype NullTimestamp = NullTimestamp(time: Timestamp, valid: bool)

  /** sqlc.User: a row of the users table. */
  datatype User = User(id: Int32, name: string, email: string, username: string, phoneNumber: NullText,
                       createdAt: NullTimestamp, updatedAt: NullTimestamp)

  /** UserResponse; a nil phone pointer is None. */
  datatype UserResponse = UserResponse(id: Int32, name: string, email: string, username: string,
                                       phoneNumber: Option<string>, createdAt: string, updatedAt: string)

  /** A nullable timestamp as the response shows it: empty when NULL. */
  function TimestampText(t: NullTimestamp): (s: string)
    ensures s == "" <==> !t.valid
    ensures t.valid ==> s == IsoSeconds(t.time)
    ensures t.valid && ValidTimestamp(t.time) ==> |s| == 20 && s[10] == 'T' && s[19] == 'Z'
  {
    if t.valid then
      IsoSecondsShapeOpen(t.time);
      IsoSeconds(t.time)
    else ""
  }

  /** Every rendering of a timestamp, valid or not, is non-empty. */
  lemma IsoSecondsShapeOpen(t: Timestamp)
    ensures IsoSeconds(t) != ""
    ensures ValidTimestamp(t) ==> |IsoSeconds(t)| == 20 && IsoSeconds(t)[10] == 'T' && IsoSeconds(t)[19] == 'Z'
  {
    if ValidTimestamp(t) {
      IsoSecondsShape(t);
    }
    assert IsoSeconds(t)[|IsoSeconds(t)| - 1] == 'Z';
  }

  /**
   * The response a row is shown as: id, name, email and username copied,
   * the phone present exactly when the column is not NULL, and each
   * timestamp empty exactly when NULL.
   */
  function ToResponse(user: User): (r: UserResponse)
    ensures r.id == user.id && r.name == user.name && r.email == user.email && r.username == user.username
    ensures r.phoneNumber.Some? <==> user.phoneNumber.valid
    ensures r.phoneNumber.Some? ==> r.phoneNumber.value == user.phoneNumber.s
    ensures r.createdAt == "" <==> !user.createdAt.valid
    ensures r.updatedAt == "" <==> !user.updatedAt.valid
    ensures user.createdAt.valid ==> r.createdAt == IsoSeconds(user.createdAt.time)
    ensures user.updatedAt.valid ==> r.updatedAt == IsoSeconds(user.updatedAt.time)
  {
    UserResponse(user.id, user.name, user.email, user.username,
                 if user.phoneNumber.valid then Some(user.phoneNumber.s) else None,
                 TimestampText(user.createdAt), TimestampText(user.updatedAt))
  }

  /** Rows that differ only in what a NULL column happens to hold show the same response. */
  lemma ToResponseIgnoresNullContents(u1: User, u2: User)
    requires u1.id == u2.id && u1.name == u2.name && u1.email == u2.email && u1.username == u2.username
    requires !u1.phoneNumber.valid && !u2.phoneNumber.valid
    requires u1.createdAt == u2.createdAt && u1.updatedAt == u2.updatedAt
    ensures ToResponse(u1) == ToResponse(u2)
  {
  }

  /** Distinct valid creation times are shown differently. */
  lemma ToResponseKeepsTimes(u1: User, u2: User)
    requires u1.createdAt.valid && u2.createdAt.valid
    requires ValidTimestamp(u1.createdAt.time) && ValidTimestamp(u2.createdAt.time)
    requires ToResponse(u1).createdAt == ToResponse(u2).createdAt
    ensures u1.createdAt.time == u2.createdAt.time
  {
    IsoSecondsInjective(u1.createdAt.time, u2.createdAt.time);
  }

  /** userToResponse: the fixed fields first, then each nullable one when it is set. */
  method UserToResponse(user: User) returns (response: UserResponse)
    ensures response == ToResponse(user)
  {
    response := UserResponse(user.id, user.name, user.email, user.username, None, "", "");
    if user.phoneNumber.valid {
      response := response.(phoneNumber := Some(user.phoneNumber.s));
    }
    if user.createdAt.valid {
      response := response.(createdAt := IsoSeconds(user.createdAt.time));
    }
    if user.updatedAt.valid {
      response := response.(updatedAt := IsoSeconds(user.updatedAt.time));
    }
  }

  // ---------------------------------------------------------------------
  // Banned e-mail domains
  // ---------------------------------------------------------------------

  const BannedDomains: seq<string> := ["banned.com", "example.com"]

  /**
   * The address splits on '@' into exactly a local part and a domain, and
   * the domain, lower-cased, is one of the banned ones, lower-cased.
   */
  predicate DomainBanned(email: string)
  {
    var parts := Split(email, '@');
    |parts| == 2 && BannedDomain(parts[1])
  }

  /** The domain, lower-cased, equals some banned domain, lower-cased. */
  predicate BannedDomain(domain: string)
  {
    exists i :: 0 <= i < |BannedDomains| && Lower(BannedDomains[i]) == Lower(domain)
  }

  /** isEmailDomainBanned: split, then scan the banned list, stopping at the first match. */
  method IsEmailDomainBanned(email: string) returns (banned: bool)
    ensures banned == DomainBanned(email)
  {
    var parts := Split(email, '@');
    if |parts| != 2 {
      return false;
    }
    var bannedDomains := BannedDomains;
    var emailDomain := Lower(parts[1]);
    BannedDomainsLower();
    var i := 0;
    while i < |bannedDomains|
      invariant 0 <= i <= |bannedDomains|
      invariant forall j :: 0 <= j < i ==> Lower(bannedDomains[j]) != emailDomain
    {
      if Lower(bannedDomains[i]) == emailDomain {
        return true;
      }
      i := i + 1;
    }
    return false;
  }

  /** An address without exactly one '@' is never reported as banned; the format check reports it. */
  lemma MalformedAddressNotBanned(email: string)
    requires Count(email, '@') != 1
    ensures !DomainBanned(email)
  {
    SplitLength(email, '@');
  }

  lemma BannedComLower()
    ensures Lower("banned.com") == "banned.com"
  {
    var s := "banned.com";
    assert |s| == 10;
    assert forall i :: 0 <= i < 10 ==> 'a' <= s[i] <= 'z' || s[i] == '.';
    LowerOfLower(s);
  }

  lemma ExampleComLower()
    ensures Lower("example.com") == "example.com"
  {
    var s := "example.com";
    assert |s| == 11;
    assert forall i :: 0 <= i < 11 ==> 'a' <= s[i] <= 'z' || s[i] == '.';
    LowerOfLower(s);
  }

  /** The banned domains are already in lower case. */
  lemma BannedDomainsLower()
    ensures forall i :: 0 <= i < |BannedDomains| ==> Lower(BannedDomains[i]) == BannedDomains[i]
  {
    forall i | 0 <= i < |BannedDomains|
      ensures Lower(BannedDomains[i]) == BannedDomains[i]
    {
      if i == 0 {
        BannedComLower();
      } else {
        ExampleComLower();
      }
    }
  }

  /** An address with one '@' splits into its local part and its domain. */
  lemma AddressParts(local: string, domain: string)
    requires '@' !in local && '@' !in domain
    ensures Split(local + "@" + domain, '@') == [local, domain]
  {
    var parts := [local, domain];
    assert parts[1..] == [domain];
    assert Join(parts, '@') == local + "@" + domain;
    SplitJoin(parts, '@');
  }

  /** A domain matches the banned list exactly when its lower-case form is on the list. */
  lemma MatchesBannedList(domain: string)
    ensures (exists i :: 0 <= i < |BannedDomains| && Lower(BannedDomains[i]) == Lower(domain)) <==>
      Lower(domain) in BannedDomains
  {
    BannedDomainsLower();
    var d := Lower(domain);
    if d in BannedDomains {
      var i :| 0 <= i < |BannedDomains| && BannedDomains[i] == d;
      assert Lower(BannedDomains[i]) == d;
    }
  }

  /**
   * For an address `local@domain`, banning depends on the domain alone,
   * compared without regard to case.
   */
  lemma BannedExactly(local: string, domain: string)
    requires '@' !in local && '@' !in domain
    ensures DomainBanned(local + "@" + domain) <==> Lower(domain) in ["banned.com", "example.com"]
  {
    AddressParts(local, domain);
    MatchesBannedList(domain);
  }

  /** The local part never matters. */
  lemma LocalPartIrrelevant(local1: string, local2: string, domain: string)
    requires '@' !in local1 && '@' !in local2 && '@' !in domain
    ensures DomainBanned(local1 + "@" + domain) == DomainBanned(local2 + "@" + domain)
  {
    BannedExactly(local1, domain);
    BannedExactly(local2, domain);
  }

  /** Upper-case letters in the domain never matter. */
  lemma DomainCaseIrrelevant(local: string, domain: string)
    requires '@' !in local && '@' !in domain
    ensures DomainBanned(local + "@" + domain) == DomainBanned(local + "@" + Lower(domain))
  {
    LowerKeepsNonLetters(domain, '@');
    LowerIdempotent(domain);
    BannedExactly(local, domain);
    BannedExactly(local, Lower(domain));
  }

  /** Every address with exactly one '@' is a local part and a domain joined by it. */
  lemma OneAtSplits(email: string)
    requires Count(email, '@') == 1
    ensures var parts := Split(email, '@');
            |parts| == 2 && email == parts[0] + "@" + parts[1] && '@' !in parts[0] && '@' !in parts[1]
  {
    var parts := Split(email, '@');
    SplitLength(email, '@');
    SplitPiecesFree(email, '@');
    JoinSplit(email, '@');
    assert parts[1..] == [parts[1]];
    assert Join(parts, '@') == parts[0] + "@" + Join(parts[1..], '@');
  }

  // ---------------------------------------------------------------------
  // Describing a handler run
  // ---------------------------------------------------------------------

  /** An error entry of a response: message id, error code, field and values, each exactly as the handler gives them. */
  datatype ErrorMessage = ErrorMessage(msgID: int, errCode: string, field: string, vals: seq<string>)

  /** What the handler sends: nothing (binding already answered), an error response or a success. */
  datatype Outcome = NoResponse | ErrorResponse(errors: seq<ErrorMessage>) | SuccessResponse(data: Option<UserResponse>)

  /** The internal-error entry: no field, and a single empty value. */
  const InternalError := ErrorMessage(MsgIDInternalError, ErrCodeInternal, "", [""])

  /** The value the validator reports for a failing field. */
  datatype FieldValue = NilValue | StringValue(s: string) | StringPointer(target: Option<string>) | OtherValue

  /** validator.FieldError as the argument closures see it. */
  datatype FieldError = FieldError(tag: string, field: string, param: string, value: FieldValue)

  /** The error message built for a failed field: table lookups plus the closure's arguments. */
  function ValidationMessage(err: FieldError, args: seq<string>): (m: ErrorMessage)
    ensures m.msgID == MsgIDValidation && m.errCode == ErrCodeFor(err.tag)
    ensures m.field == err.field && m.vals == args
  {
    ErrorMessage(MsgIDFor(err.tag), ErrCodeFor(err.tag), err.field, args)
  }

  /** Values in the data of an activity log record. */
  datatype Datum = StrDatum(s: string) | IntDatum(i: int) | BoolDatum(b: bool) | MapDatum(m: map<string, Datum>)

  datatype Level = Info | Error

  /** The logger a record goes through: module and, when set, instance id. */
  datatype LogContext = LogContext(moduleName: string, instanceId: Option<string>)

  /** One old/new pair in a change record. */
  datatype Change = Change(field: string, oldValue: string, newValue: string)

  datatype ChangeSet = ChangeSet(entity: string, op: string, changes: seq<Change>)

  datatype LogRecord =
    | Activity(context: LogContext, level: Level, message: string, data: map<string, Datum>)
    | DataChange(context: LogContext, message: string, change: ChangeSet)

  /** The `validation.*` settings held by the configuration service; a key that is absent makes the lookup fail. */
  type Config = map<string, string>

  const NameMinKey := "validation.name.minLength"
  const NameMaxKey := "validation.name.maxLength"
  const UsernameMinKey := "validation.username.minLength"
  const UsernameMaxKey := "validation.username.maxLength"
  const EmailMaxKey := "validation.email.maxLength"

  /** A configured limit, or the named constant in decimal when the lookup fails. */
  function LimitOr(config: Config, key: string, fallback: nat): (v: string)
    ensures key in config ==> v == config[key]
    ensures key !in config ==> v == Decimal(fallback) && DecimalValue(v) == fallback
  {
    DecimalRoundTrip(fallback);
    if key in config then config[key] else Decimal(fallback)
  }

  /** The banned-domain entry, on the e-mail field, with no values. */
  const BannedDomainError := ErrorMessage(MsgIDBannedDomain, ErrCodeBannedDomain, "email", [])

  /** The result of a database query: a value, pgx.ErrNoRows, or another error. */
  datatype DbResult<T> = Ok(value: T) | NoRows | DbFailure

  /** sqlc.CreateUserParams */
  datatype CreateUserParams = CreateUserParams(name: string, email: string, username: string, phoneNumber: NullText)

  /** sqlc.UpdateUserParams; an unset field is the zero pgtype.Text. */
  datatype UpdateUserParams = UpdateUserParams(id: Int32, name: NullText, email: NullText, phoneNumber: NullText)

  /** The queries a handler issues, in order. */
  datatype DbCall =
    | GetUserByID(id: Int32)
    | CheckUsernameExists(username: string)
    | CheckEmailExistsForUpdate(email: string, userID: Int32)
    | CreateUser(createParams: CreateUserParams)
    | UpdateUser(updateParams: UpdateUserParams)

  /** A handler run: the response, the log records in order, the queries in order. */
  datatype Run = Run(outcome: Outcome, logs: seq<LogRecord>, calls: seq<DbCall>)
}
