# remiges-demo: the log consumer and the user service, modelled in Dafny

This project models two parts of the remiges-demo repository and proves properties of them.

**The log consumer** (`consumer/main.go`):
- It reads LogHarbour records from a Kafka claim.
- It parses each record into a `LogEntry` and indexes it into Elasticsearch. The index is `logharbour-<lower-cased type>-<YYYY.MM.DD of the processing date>`. The document id is the record's `id`; a record without one is stored under an id the engine generates.
- It marks every message consumed, whatever happened to it.
- At start-up it reads `KAFKA_BROKERS` and `ELASTICSEARCH_URL` with their defaults and splits the broker list on commas.

**The user service handlers** (`userservice/create_user.go`, `userservice/update_user.go`) and their shared helpers (`userservice/common.go`):
- the validation limits, read from configuration with literal fallbacks;
- the closures that build the arguments of a validation error;
- the fixed order of rejection checks: validation, banned e-mail domain, already-taken username or address;
- the rows written to the database;
- for an update, the ordered change list and the data-change and activity log records;
- `userToResponse` and `isEmailDomainBanned`.

The modules:

| file | module | models |
|---|---|---|
| `wrappers.dfy` | `Wrappers` | `Option`, for nil pointers and failed lookups |
| `text.dfy` | `Text` | ASCII `strings.ToLower`; `strings.Split`/`Join` on one character; decimal rendering |
| `timeformat.dfy` | `TimeFormat` | the layouts `2006.01.02` and `2006-01-02T15:04:05Z` |
| `consumer.dfy` | `LogConsumer` | `LogEntry` and its JSON form; `indexLog`; `ConsumeClaim`; the environment defaults |
| `common.dfy` | `UserCommon` | the constants and validation tables; rows and responses; `userToResponse`; `isEmailDomainBanned`; the vocabulary of a handler run |
| `create_user.dfy` | `CreateUser` | `HandleCreateUserRequest` |
| `update_user.dfy` | `UpdateUser` | `HandleUpdateUserRequest` and `ChangeInfo` |

How the model is built:
- Code that changes state step by step is imperative Dafny:
  - `ConsumeClaim` is a loop over the claim. The Kafka session and the search cluster are classes whose fields record the marks, the requests sent and the stored documents.
  - Each handler is a method with early returns.
  - `ChangeInfo.AddChange` appends to a `seq` field.
  - `userToResponse` fills in its result field by field.
  - `isEmailDomainBanned` scans the banned list and returns at the first match.
- Each method is proved against a specification function, and the properties are proved about that function.
- What the outside world decides is an input, so each run is deterministic:
  - whether a message parsed, and into which entry;
  - the processing date;
  - whether `json.Marshal` succeeded;
  - how Elasticsearch answered;
  - the configuration map;
  - the validator's field errors;
  - every database result.
- A handler run is described by three things: the response, the log records in order, and the queries in order.

Three details follow the code rather than what one might expect:
- `HandleCreateUserRequest` logs the request's *name* under the key `"username"`. `CreateUser.Parsed` does the same.
- `HandleUpdateUserRequest` binds before it builds its logger. A binding failure therefore logs nothing, whereas the create handler has already logged "CreateUser request received".
- `BuildErrorMessage(..., "", "")` yields an empty field with one empty value (`[""]`), not an empty value list.

## Model

| member | source | states |
|---|---|---|
| Text.Lower | consumer/main.go:154 | the lower-cased string has the same length and each character is the ASCII lower case of the original |
| Text.LowerIdempotent | userservice/common.go:149-151 | lower-casing twice is lower-casing once |
| Text.LowerKeepsNonLetters | userservice/common.go:149 | lower-casing neither adds nor removes a non-letter such as '@' |
| Text.Split | consumer/main.go:46 | `strings.Split` on one character always yields at least one piece (`""` splits into `[""]`) |
| Text.SplitLength | consumer/main.go:46 | there is one more piece than there are separators |
| Text.SplitPiecesFree | consumer/main.go:46 | no piece contains the separator |
| Text.JoinSplit | consumer/main.go:46 | joining the pieces with the separator gives the string back |
| Text.SplitJoin | userservice/common.go:143 | splitting a join of separator-free pieces gives the pieces back |
| Text.SplitWithoutSeparator | consumer/main.go:46 | a string without the separator splits into itself alone |
| Text.Decimal | userservice/create_user.go:64 | the `%d` rendering of a count is a non-empty string of digits without a leading zero, and is "0" exactly for zero |
| Text.DecimalRoundTrip | userservice/create_user.go:64 | the digits rendered for n denote n |
| Text.DecimalOfValue | userservice/create_user.go:64 | every digit string without a leading zero is the rendering of the number it denotes: Decimal yields exactly the canonical numerals |
| Text.DecimalInjective | userservice/create_user.go:64 | distinct counts render differently |
| Text.IntDecimal | userservice/update_user.go:29 | a signed id renders non-empty, starting with '-' exactly when negative |
| Text.IntDecimalInjective | userservice/update_user.go:29 | distinct ids give distinct instance ids |
| Text.PaddedValue | consumer/main.go:155 | zero-padding keeps the value |
| Text.PaddedLength | consumer/main.go:155 | a value below 10^w pads to exactly w characters |
| Text.PaddedInjective | consumer/main.go:155 | distinct values pad differently |
| TimeFormat.DotDate | consumer/main.go:155 | the Go layout "2006.01.02": year padded to four digits, month and day to two, separated by dots (shape and injectivity below) |
| TimeFormat.IsoSeconds | userservice/common.go:131 | the Go layout "2006-01-02T15:04:05Z": padded date fields joined by '-', 'T', padded clock fields joined by ':', and a literal 'Z' (shape, field offsets and injectivity below) |
| TimeFormat.DotDateShape | consumer/main.go:155 | a valid date renders as ten characters with dots at offsets 4 and 7 |
| TimeFormat.DotDateInjective | consumer/main.go:155 | distinct valid dates render differently |
| TimeFormat.IsoSecondsShape | userservice/common.go:131 | a valid timestamp renders as twenty characters, 'T' at offset 10 and 'Z' last |
| TimeFormat.IsoSecondsFields | userservice/common.go:131 | in a valid timestamp each field is written, zero-padded, at its fixed offset of the layout |
| TimeFormat.IsoSecondsInjective | userservice/common.go:131-135 | distinct valid timestamps render differently |
| LogConsumer.KeyNameRoundTrip | consumer/main.go:18-31 | reading a field's json name back yields that field |
| LogConsumer.KeyNameInjective | consumer/main.go:18-31 | distinct fields have distinct json names |
| LogConsumer.KeyOfRank | consumer/main.go:18-31 | the field at position i of the struct has rank i |
| LogConsumer.RankOfKey | consumer/main.go:18-31 | every field's rank is a struct position, and that position holds the field |
| LogConsumer.Encode | consumer/main.go:18-31 | the marshalled body lists members in declaration order; id, app, system, type, pri, when and msg are always present; module, who, remote_ip, trace_id and data are present exactly when non-empty |
| LogConsumer.EncodeFromOrdered | consumer/main.go:18-31 | the members from a position on are in order and all at or after that position |
| LogConsumer.EncodeFromLookup | consumer/main.go:18-31 | a field is found among the members from position n exactly when it is at or after n and present, with its value |
| LogConsumer.Decode | consumer/main.go:133-134 | `json.Unmarshal` into a LogEntry, on bodies Encode writes: each field is read from its json member, and a missing member leaves the zero value (its inverse law is EncodeRoundTrip) |
| LogConsumer.EncodeRoundTrip | consumer/main.go:158-161 | parsing the marshalled body gives the entry back: omitting empty fields loses nothing |
| LogConsumer.IndexName | consumer/main.go:153-155 | `logharbour-`, the lower-cased type, a dash and the processing date in the dotted layout (its partners are the three lemmas below) |
| LogConsumer.IndexNameInjective | consumer/main.go:153-155 | the index name determines the lower-cased type and the processing date |
| LogConsumer.IndexNameCaseInsensitive | consumer/main.go:153-155 | types that differ only in case go to the same index |
| LogConsumer.IndexIgnoresWhen | consumer/main.go:153-155 | the index depends on type and processing date only, never on the record's `when` |
| LogConsumer.RequestFor | consumer/main.go:164-169 | the request targets the record's index, uses the record id as document id and refresh "false", and its body parses back to the record |
| LogConsumer.StoredKey | consumer/main.go:164-169 | a request the engine indexed writes the document named by its index and its id, or by the engine-generated id when its id is empty |
| LogConsumer.Stored | consumer/main.go:164-180 | when the engine indexed the document (an accepted request, or one whose answer was lost), the store holds the body under StoredKey, overwriting what was there; otherwise the store is unchanged |
| LogConsumer.StoredIdempotent | consumer/main.go:164-169 | indexing the same request with a non-empty id twice leaves the store as indexing it once |
| LogConsumer.AutoIdDuplicates | consumer/main.go:166 | a request with an empty id sent twice, given two different generated ids, leaves two copies of the document |
| LogConsumer.SearchStore.constructor | consumer/main.go:50-54 | the model store of a new client starts with no documents and no requests; the client at those lines connects to an existing cluster, and no consumer contract relies on an empty start, since ConsumeClaim is stated relative to the documents it finds |
| LogConsumer.SearchStore.Perform | consumer/main.go:172-180 | the request is recorded, and the body is stored under StoredKey (the record's id, or the generated id when it is empty) exactly when the engine indexed it |
| LogConsumer.Session.MarkMessage | consumer/main.go:136 | the message is appended to the marked list |
| LogConsumer.Session.constructor | consumer/main.go:130 | a session starts with nothing marked |
| LogConsumer.Consumer.constructor | consumer/main.go:86-88 | the consumer holds the Elasticsearch client it was given |
| LogConsumer.Marks | consumer/main.go:131-147 | the reference list of marks: one per message of the claim, in order (stated by MarksInOrder) |
| LogConsumer.Requests | consumer/main.go:131-147 | the reference list of index requests: one per delivery that parsed and marshalled (stated by RequestsCount, RequestsSound, RequestsComplete) |
| LogConsumer.Replay | consumer/main.go:131-147 | the reference store after a claim: each delivery that parsed and marshalled applied through Stored, in order (stated by ReplayAt) |
| LogConsumer.ClaimStep | consumer/main.go:131-147 | processing one more delivery extends marks, requests and documents by that delivery's step |
| LogConsumer.Consumer.IndexLog | consumer/main.go:151-183 | error exactly when marshalling fails, the request fails or the response is an error, with the matching kind; a request is sent exactly when marshalling succeeds; the store changes exactly when the engine indexed the document, which includes a request reported failed because its answer was lost |
| LogConsumer.Consumer.ConsumeMessage | consumer/main.go:132-146 | one pass of the loop: the message is marked; it is indexed first exactly when it parsed, sending a request exactly when it also marshalled, and the store takes one Stored step |
| LogConsumer.Consumer.ConsumeClaim | consumer/main.go:130-149 | always nil; marked list, requests and documents become exactly Marks, Requests and Replay of the claim |
| LogConsumer.MarksInOrder | consumer/main.go:131-147 | every message is marked exactly once, in arrival order, whatever its outcome |
| LogConsumer.RequestsCount | consumer/main.go:134-141 | one request per delivery that parses and marshals: no retry |
| LogConsumer.RequestsSound | consumer/main.go:134-141 | every request sent is the request of a delivery (whose position it returns) that parsed and marshalled |
| LogConsumer.RequestsComplete | consumer/main.go:139-141 | every delivery that parses and marshals has its request sent, at a position it returns |
| LogConsumer.AttemptedAtExactly | consumer/main.go:131-147 | the attempted positions of a claim are listed in strictly increasing order, and every delivery that parses and marshals is among them |
| LogConsumer.AttemptedAtRequests | consumer/main.go:134-141 | there is one request per attempted position, and request j is the request of the delivery at the j-th attempted position |
| LogConsumer.RequestPositions | consumer/main.go:131-147 | each attempted delivery's request is sent exactly once and in delivery order: the requests correspond one to one, in order, to the strictly increasing positions of the deliveries that parse and marshal |
| LogConsumer.MalformedClaimIndexesNothing | consumer/main.go:134-138 | a claim in which nothing parses sends no request and leaves the store unchanged |
| LogConsumer.ReplayAt | consumer/main.go:164-180 | after a claim each document holds its last write by a request the engine indexed, or what it held before |
| LogConsumer.ReplayAppend | consumer/main.go:130-149 | processing two claims in turn is processing their concatenation |
| LogConsumer.RedeliveryIdempotent | consumer/main.go:164-169 | redelivering a claim of records that carry ids, with the same outcomes on the same processing dates, leaves the documents unchanged |
| LogConsumer.IndexedEntryRetrievable | consumer/main.go:151-183 | an accepted record can be read back, as the same entry, in its index by its id, or by the generated id when its id is empty |
| LogConsumer.LostAnswerStillStored | consumer/main.go:172-175 | a record whose request failed after the engine indexed it (the answer was lost) is reported as `error indexing document` and can still be read back as the same entry |
| LogConsumer.DefaultBrokersSplit | consumer/main.go:35-46 | the default broker address names a single broker |
| LogConsumer.Getenv | consumer/main.go:35-40 | `os.Getenv`: the variable's value, or "" when it is not set |
| LogConsumer.LoadConfig | consumer/main.go:35-48 | brokers are `["localhost:9092"]` when KAFKA_BROKERS is empty; otherwise they are the comma-split pieces of the variable, which join back to it and number one more than its commas; no broker contains a comma; the URL defaults to `http://localhost:9200`; the topic and group are fixed |
| UserCommon.ErrCodeFor | userservice/common.go:89-109 | required, min and max have their own codes; every other tag, listed or not, reports `datafmt` |
| UserCommon.MsgIDFor | userservice/common.go:99-110 | every tag, listed or not, has message id 101 |
| UserCommon.StructTagsMatchConstants | userservice/common.go:55-71 | the struct-tag limits equal the named constants: name 2 to 50, username 3 to 30, e-mail at most 100 |
| UserCommon.DefaultLimitsAreConstants | userservice/common.go:37-41 | the handlers' literal fallbacks are the constants in decimal |
| UserCommon.TimestampText | userservice/common.go:130-136 | a timestamp column is shown as "" exactly when NULL, and otherwise in the "2006-01-02T15:04:05Z" layout; a valid timestamp is 20 characters ending in Z |
| UserCommon.ToResponse | userservice/common.go:118-139 | id, name, email and username are copied; the phone is present exactly when the column is not NULL, holding its string; each timestamp is "" exactly when NULL and otherwise its "2006-01-02T15:04:05Z" rendering |
| UserCommon.ToResponseIgnoresNullContents | userservice/common.go:126-128 | whatever a NULL phone column holds does not reach the response |
| UserCommon.ToResponseKeepsTimes | userservice/common.go:130-132 | distinct valid creation times are shown differently |
| UserCommon.UserToResponse | userservice/common.go:118-139 | the step-by-step response is ToResponse of the row |
| UserCommon.DomainBanned | userservice/common.go:142-156 | the reference answer: the address splits on '@' into exactly two parts and the lower-cased domain equals a lower-cased banned domain (the scan is proved equal to it; its properties follow) |
| UserCommon.IsEmailDomainBanned | userservice/common.go:142-156 | the scan answers exactly DomainBanned: split on '@' into two parts, lower-cased domain equal to a lower-cased banned domain |
| UserCommon.MalformedAddressNotBanned | userservice/common.go:143-146 | an address with zero or several '@' is never banned |
| UserCommon.BannedDomainsLower | userservice/common.go:148-151 | lower-casing the banned list changes nothing |
| UserCommon.MatchesBannedList | userservice/common.go:148-155 | a domain matches the list exactly when its lower-case form is on it |
| UserCommon.AddressParts | userservice/common.go:143 | an address with one '@' splits into local part and domain |
| UserCommon.BannedExactly | userservice/common.go:143-155 | `local@domain` is banned exactly when the lower-cased domain is banned.com or example.com |
| UserCommon.LocalPartIrrelevant | userservice/common.go:143-155 | the local part never affects the answer |
| UserCommon.DomainCaseIrrelevant | userservice/common.go:149-151 | the case of the domain never affects the answer |
| UserCommon.OneAtSplits | userservice/common.go:143-144 | an address with exactly one '@' is its two parts joined by it, neither containing '@' |
| UserCommon.ValidationMessage | userservice/common.go:87-111 | a failed field's message has id 101, the tag's error code, the field and the closure's arguments |
| UserCommon.LimitOr | userservice/create_user.go:22-41 | a configured limit is used as is; a failed lookup falls back to exactly the constant's decimal numeral |
| CreateUser.LimitsFor | userservice/create_user.go:22-41 | the five limits, each the configured value or its constant (UnconfiguredLimits and LoadLimits state it) |
| CreateUser.UnconfiguredLimits | userservice/create_user.go:22-41 | with nothing configured the limits are "2", "50", "3", "30" and "100" |
| CreateUser.LoadLimits | userservice/create_user.go:22-41 | the five step-by-step lookups with fallbacks give LimitsFor of the configuration |
| CreateUser.ValidationArgs | userservice/create_user.go:55-85 | min/max give exactly the decimal numeral of the value's length and the field's bounds ("0" as lower bound for Email, the tag parameter for other fields); email, alphanum and e164 give the value; required and unknown tags give nothing |
| CreateUser.LengthArgs | userservice/create_user.go:60-71 | three arguments, the first exactly the decimal numeral of the value's length |
| CreateUser.ValidationErrors | userservice/create_user.go:55-90 | one message per failed field, in order, built from the tables and the closure |
| CreateUser.ParamsFor | userservice/create_user.go:120-125 | the row copies name, email and username; the phone is set exactly when non-empty |
| CreateUser.Parsed | userservice/create_user.go:50 | the parsed activity carries the request's name under the key "username" |
| CreateUser.CreateRun | userservice/create_user.go:14-137 | the reference run: binding, validation, then ScreenedRun (the lemmas below state its properties) |
| CreateUser.ScreenedRun | userservice/create_user.go:95-136 | the reference run after validation: the banned-domain answer, or UsernameCheckedRun |
| CreateUser.UsernameCheckedRun | userservice/create_user.go:104-136 | the reference run after the domain check: username check, insert and answer |
| CreateUser.NoQueryBeforeChecks | userservice/create_user.go:87-104 | the database is queried exactly when the request is bound, valid and not on a banned domain; the first query is then the username check, and at most two queries are made |
| CreateUser.ValidationPrecedesDomainCheck | userservice/create_user.go:87-99 | validation errors are answered with one message per failed field before the domain check; a banned domain is answered with 103/"invalid"/"email"; neither queries the database, and both log only received and parsed |
| CreateUser.TakenUsernameNotCreated | userservice/create_user.go:111-115 | a taken username is answered with 104/"exists"/"username", after only the username check, and no row is inserted |
| CreateUser.InsertedExactlyWhenChecksPass | userservice/create_user.go:104-125 | a row is inserted exactly when every check passes, and then the queries are the username check followed by the insert of ParamsFor |
| CreateUser.InsertOutcome | userservice/create_user.go:104-136 | a failed username check or insert is answered with the internal error (102, "internal", no field, one empty value) and logs the database error; a successful insert answers with ToResponse of the new row |
| CreateUser.HandleCreateUser | userservice/create_user.go:14-137 | the step-by-step handler produces exactly the response, records and queries of CreateRun |
| CreateUser.ScreenAndCreate | userservice/create_user.go:95-136 | the domain check followed by the rest of the handler produces exactly ScreenedRun |
| CreateUser.CheckAndCreate | userservice/create_user.go:104-136 | the username check, the insert and the response produce exactly UsernameCheckedRun |
| UpdateUser.UnconfiguredLimits | userservice/update_user.go:59-70 | with nothing configured the limits are "2", "50" and "100" |
| UpdateUser.LimitsFor | userservice/update_user.go:59-70 | the three limits, each the configured value or its constant (UnconfiguredLimits and LoadLimits state it) |
| UpdateUser.LoadLimits | userservice/update_user.go:59-70 | the three step-by-step lookups with fallbacks give LimitsFor of the configuration |
| UpdateUser.ValidationArgs | userservice/update_user.go:73-117 | a nil or non-`*string` value gives nothing; min/max give exactly the decimal numeral of the length and Name's bounds, "0" and the e-mail maximum for Email, or "0" and the parameter; email and e164 give the value; other tags give nothing |
| UpdateUser.LengthArgs | userservice/update_user.go:75-92 | three arguments, the first exactly the decimal numeral of the length, exactly when the value is a non-nil string pointer |
| UpdateUser.PointedValue | userservice/update_user.go:94-112 | the pointed-to value, exactly when the value is a non-nil string pointer |
| UpdateUser.ValidationErrors | userservice/update_user.go:73-122 | one message per failed field, in order |
| UpdateUser.ParamsFor | userservice/update_user.go:152-164 | the parameters carry the request id; each field is valid, holding the request value, exactly when provided, and is the zero value otherwise |
| UpdateUser.BuildParams | userservice/update_user.go:152-164 | the step-by-step parameters are ParamsFor of the request |
| UpdateUser.ChangeInfo.constructor | userservice/update_user.go:176 | a new change set for the entity and operation, with no changes |
| UpdateUser.ChangeInfo.AddChange | userservice/update_user.go:180 | the change is appended |
| UpdateUser.OldPhone | userservice/update_user.go:190-193 | a NULL phone reads as "" |
| UpdateUser.ChangeList | userservice/update_user.go:178-197 | the reference change list: name, e-mail, then phone, each when provided and different, and no entry for any other field (stated by the four lemmas below) |
| UpdateUser.ChangeListEntries | userservice/update_user.go:178-197 | there is a name change exactly when a name is provided and differs, recording old and new; likewise email; likewise phone against the old phone read as "" when NULL |
| UpdateUser.EntryForChanged | userservice/update_user.go:178-197 | a single field's contribution holds only its own change |
| UpdateUser.ChangeListOrdered | userservice/update_user.go:176-197 | at most three changes, each under one of the field names name, email and phone_number, in that order |
| UpdateUser.NoChangeExactly | userservice/update_user.go:178-202 | the change list is empty exactly when every provided field already holds its value |
| UpdateUser.TrackChanges | userservice/update_user.go:176-197 | the changes appended one by one are ChangeList, under entity "User" and operation "Update" |
| UpdateUser.ChangeRecord | userservice/update_user.go:199-202 | the data-change record: entity "User", operation "Update", the changes, through the request's logger |
| UpdateUser.Updated | userservice/update_user.go:204-211 | the closing activity reports, per field, whether the request provided it, not whether it changed |
| UpdateUser.LookupFailurePrecedes | userservice/update_user.go:36-48 | a missing user (105, "missing", "id", the id in decimal) or a failed lookup is answered first, with only the lookup issued, even when no field is provided |
| UpdateUser.EmptyUpdateRejected | userservice/update_user.go:51-56 | no provided field gives the no-fields error (106) with no write and no data-change record |
| UpdateUser.BannedPrecedesEmailCheck | userservice/update_user.go:125-148 | a banned domain (103, "invalid", "email") is answered without asking whether the address is taken |
| UpdateUser.WrittenExactlyWhenChecksPass | userservice/update_user.go:119-173 | the row is written exactly when every check passes, and then with ParamsFor of the request |
| UpdateUser.DataChangeExactlyWhenChanged | userservice/update_user.go:199-214 | after a write, a data-change record holding the change list is logged exactly when it is non-empty; the final activity reports which fields were provided; the response is a success |
| UpdateUser.ReceivedFirst | userservice/update_user.go:28-30 | whatever happens after binding, the first record is "UpdateUser request received" |
| UpdateUser.RecordsCarryInstanceId | userservice/update_user.go:29-30 | every record goes through the logger of module UserService whose instance id is the request id in decimal |
| UpdateUser.UpdateRun | userservice/update_user.go:21-215 | the reference run: binding, the user lookup, the no-fields check, then CheckedRun (the lemmas above state its properties) |
| UpdateUser.CheckedRun | userservice/update_user.go:58-173 | the reference run after the no-fields check: validation, the domain check, then EmailCheckedRun |
| UpdateUser.EmailCheckedRun | userservice/update_user.go:133-173 | the reference run after the domain check: the e-mail check when an e-mail is given, then WrittenRun |
| UpdateUser.WrittenRun | userservice/update_user.go:151-214 | the reference run from the write on: the update, then the change record when there are changes, then the closing activity |
| UpdateUser.HandleUpdateUser | userservice/update_user.go:21-215 | the step-by-step handler produces exactly the response, records and queries of UpdateRun |
| UpdateUser.CheckAndWrite | userservice/update_user.go:58-131 | validation and the domain check, followed by the rest of the handler, produce exactly CheckedRun |
| UpdateUser.CheckEmailAndWrite | userservice/update_user.go:133-173 | the e-mail check followed by the write produces exactly EmailCheckedRun |
| UpdateUser.WriteAndLog | userservice/update_user.go:151-214 | building the parameters, the write, the change log and the closing activity produce exactly WrittenRun, the write carrying the built parameters |

## Left out

- Logging: the LogHarbour library (writers, fallback, priority threshold, builder, `ChangeInfo` internals) is not part of this model. A record is its context, level, message and data. The wrapped error text of an Error-level record is not kept. `ChangeInfo.AddChange` is modelled as an append and nothing more.
- Concurrency and lifecycle are not modelled: the Sarama consumer-group wiring, the `Consume` goroutine loop, signal handling, `Setup` and `Cleanup`. A claim is a finite sequence of deliveries. The consumer's `log.Printf` diagnostics are dropped.
- Elasticsearch I/O: `es.Info`, the index-template installer and the HTTP transport are left out. How the engine answers a request is an input. A transport error is either `Unreachable` (nothing was written) or `Lost` (the engine indexed the document but the answer never arrived); both are reported as `error indexing document`. An error response is taken to mean nothing was written.
- Document ids: a record whose id is empty is sent without a document id, and the engine generates one. That generated id is part of the engine's answer, an input; that it differs from every id already stored is not modelled.
- LogConsumer.StoredIdempotent: stated only for requests that carry an id. A request without one is stored again under a new generated id (LogConsumer.AutoIdDuplicates).
- LogConsumer.RedeliveryIdempotent: stated only for claims whose records all carry ids, for the same reason.
- Clocks: the processing date and the row timestamps are inputs, not `time.Now`.
- Parsing: `json.Unmarshal` of a message is an input (parsed entry or failure). The re-serialised body is modelled as an ordered list of members. JSON numbers in `data` are integers.
- Text.Lower: ASCII only; Go's `strings.ToLower` also folds non-ASCII letters.
- CreateUser.ValidationArgs and UpdateUser.ValidationArgs count the value's length in characters; Go's `len` counts UTF-8 bytes. They agree on ASCII values.
- Validation: the validator library is abstract. Its field errors are an input, and the struct tags are data (`UserCommon.StructTagsMatchConstants`).
- wscutils internals are not part of this model. Assumed:
  - `WscValidate` builds one error message per field error, in order, from the tag tables and the closure;
  - a binding failure answers by itself (`NoResponse`);
  - `BuildErrorMessage` stores its field and values literally.
- Database: sqlc and pgx are abstract. A query is an input `DbResult`. Only `pgx.ErrNoRows` on the user lookup is told apart from other errors.
- The successful update's returned row is not used, as in the source.
- Not part of this model:
  - `main.go` (Rigel/etcd wiring, config files, router);
  - `pg/pg.go` (a connection-pool wrapper);
  - `userservice/get_user.go` (a thin handler whose closure always returns no arguments);
  - `userservice/userservice.go` (comments only).
- Behaviour that the repository's code does not have is not modelled: routing unknown record types to a separate index, and stamping `when` at the indexer.
- Each handler is one Go function. The model splits it, and its reference definition, into stages so that each proof stays small. The create handler splits into `HandleCreateUser`, `ScreenAndCreate` and `CheckAndCreate`, matching `CreateRun`, `ScreenedRun` and `UsernameCheckedRun`. The update handler splits into `HandleUpdateUser`, `CheckAndWrite`, `CheckEmailAndWrite` and `WriteAndLog`, matching `UpdateRun`, `CheckedRun`, `EmailCheckedRun` and `WrittenRun`. Each stage starts from the records and queries its predecessors made, so each stage's result is the whole run. Likewise one pass of `ConsumeClaim`'s loop is the method `ConsumeMessage`.
