/**
 * The log consumer of consumer/main.go: each Kafka message of a claim is
 * parsed into a LogEntry, indexed into Elasticsearch under
 * `logharbour-<lower(type)>-<YYYY.MM.DD>` with the entry's `id` as the
 * document id, and marked consumed whatever happened to it.
 *
 * What the outside world decides is given as input: whether the payload
 * parsed (and into which entry), the processing date, whether json.Marshal
 * succeeded, and how the search engine answered.
 */
module LogConsumer {
  import opened Wrappers
  import opened Text
  import opened TimeFormat

  // ---------------------------------------------------------------------
  // Records and their JSON form
  // ---------------------------------------------------------------------

  /** The values json.Unmarshal can leave in a record's free-form `data`. */
  datatype Json =
    | JNull
    | JBool(b: bool)
    | JNumber(n: int)
    | JString(s: string)
    | JArray(items: seq<Json>)
    | JObject(fields: map<string, Json>)

  /** A log record as the consumer sees it (struct LogEntry). */
  datatype LogEntry = LogEntry(
    id: string,
    app: string,
    system: string,
    moduleName: string,
    logType: string,
    pri: string,
    when: string,
    who: string,
    remoteIP: string,
    traceID: string,
    msg: string,
    data: map<string, Json>)

  /** The JSON keys of a LogEntry, in the struct's declaration order. */
  datatype Key = KId | KApp | KSystem | KModule | KType | KPri | KWhen | KWho | KRemoteIP | KTraceID | KMsg | KData

  /** The key as written on the wire (the struct's json tags). */
  function KeyName(k: Key): string
  {
    match k
    case KId => "id"
    case KApp => "app"
    case KSystem => "system"
    case KModule => "module"
    case KType => "type"
    case KPri => "pri"
    case KWhen => "when"
    case KWho => "who"
    case KRemoteIP => "remote_ip"
    case KTraceID => "trace_id"
    case KMsg => "msg"
    case KData => "data"
  }

  /** Position of the field in the struct; json.Marshal writes fields in this order. */
  function KeyRank(k: Key): nat
  {
    match k
    case KId => 0
    case KApp => 1
    case KSystem => 2
    case KModule => 3
    case KType => 4
    case KPri => 5
    case KWhen => 6
    case KWho => 7
    case KRemoteIP => 8
    case KTraceID => 9
    case KMsg => 10
    case KData => 11
  }

  /** The field whose json tag is exactly this name; any other name belongs to no field. */
  function KeyNamed(name: string): Option<Key>
  {
    if name == "id" then Some(KId)
    else if name == "app" then Some(KApp)
    else if name == "system" then Some(KSystem)
    else if name == "module" then Some(KModule)
    else if name == "type" then Some(KType)
    else if name == "pri" then Some(KPri)
    else if name == "when" then Some(KWhen)
    else if name == "who" then Some(KWho)
    else if name == "remote_ip" then Some(KRemoteIP)
    else if name == "trace_id" then Some(KTraceID)
    else if name == "msg" then Some(KMsg)
    else if name == "data" then Some(KData)
    else None
  }

  /** Reading a wire name back gives its field, so distinct fields have distinct names. */
  lemma KeyNameRoundTrip(k: Key)
    ensures KeyNamed(KeyName(k)) == Some(k)
  {
  }

  lemma KeyNameInjective(a: Key, b: Key)
    requires KeyName(a) == KeyName(b)
    ensures a == b
  {
    KeyNameRoundTrip(a);
    KeyNameRoundTrip(b);
  }

  /** The field at a given position of the struct. */
  function KeyOfRank(i: nat): (k: Key)
    requires i < FieldCount
    ensures KeyRank(k) == i
  {
    [KId, KApp, KSystem, KModule, KType, KPri, KWhen, KWho, KRemoteIP, KTraceID, KMsg, KData][i]
  }

  const FieldCount := 12

  lemma RankOfKey(k: Key)
    ensures KeyRank(k) < FieldCount && KeyOfRank(KeyRank(k)) == k
  {
  }

  datatype Value = Str(s: string) | Obj(m: map<string, Json>)

  datatype Member = Member(key: Key, value: Value)

  /** A JSON object, as its members in the order they are written. */
  type Body = seq<Member>

  /** The object has a member with key `k`. */
  predicate Has(body: Body, k: Key)
  {
    Lookup(body, k).Some?
  }

  /** Members appear in declaration order, so no key appears twice. */
  predicate Ordered(body: Body)
  {
    forall i, j :: 0 <= i < j < |body| ==> KeyRank(body[i].key) < KeyRank(body[j].key)
  }

  /** Whether json.Marshal writes the field: the `omitempty` ones only when non-empty. */
  predicate Present(e: LogEntry, k: Key)
  {
    match k
    case KModule => e.moduleName != ""
    case KWho => e.who != ""
    case KRemoteIP => e.remoteIP != ""
    case KTraceID => e.traceID != ""
    case KData => |e.data| != 0
    case _ => true
  }

  function FieldOf(e: LogEntry, k: Key): Value
  {
    match k
    case KId => Str(e.id)
    case KApp => Str(e.app)
    case KSystem => Str(e.system)
    case KModule => Str(e.moduleName)
    case KType => Str(e.logType)
    case KPri => Str(e.pri)
    case KWhen => Str(e.when)
    case KWho => Str(e.who)
    case KRemoteIP => Str(e.remoteIP)
    case KTraceID => Str(e.traceID)
    case KMsg => Str(e.msg)
    case KData => Obj(e.data)
  }

  /** The members for the fields at positions `n` and later. */
  function EncodeFrom(e: LogEntry, n: nat): Body
    decreases FieldCount - n
  {
    if n >= FieldCount then []
    else
      var k := KeyOfRank(n);
      (if Present(e, k) then [Member(k, FieldOf(e, k))] else []) + EncodeFrom(e, n + 1)
  }

  /**
   * json.Marshal of a LogEntry: `module`, `who`, `remote_ip`, `trace_id` and
   * `data` are left out when empty; every other field is always written, in
   * declaration order.
   */
  function Encode(e: LogEntry): (body: Body)
    ensures Ordered(body)
    ensures Has(body, KId) && Has(body, KApp) && Has(body, KSystem) && Has(body, KType)
    ensures Has(body, KPri) && Has(body, KWhen) && Has(body, KMsg)
    ensures Has(body, KModule) <==> e.moduleName != ""
    ensures Has(body, KWho) <==> e.who != ""
    ensures Has(body, KRemoteIP) <==> e.remoteIP != ""
    ensures Has(body, KTraceID) <==> e.traceID != ""
    ensures Has(body, KData) <==> |e.data| != 0
  {
    EncodeFromOrdered(e, 0);
    EncodeFromLookup(e, 0, KId);
    EncodeFromLookup(e, 0, KApp);
    EncodeFromLookup(e, 0, KSystem);
    EncodeFromLookup(e, 0, KModule);
    EncodeFromLookup(e, 0, KType);
    EncodeFromLookup(e, 0, KPri);
    EncodeFromLookup(e, 0, KWhen);
    EncodeFromLookup(e, 0, KWho);
    EncodeFromLookup(e, 0, KRemoteIP);
    EncodeFromLookup(e, 0, KTraceID);
    EncodeFromLookup(e, 0, KMsg);
    EncodeFromLookup(e, 0, KData);
    EncodeFrom(e, 0)
  }

  /** The members from position `n` on come in declaration order, all at position `n` or later. */
  lemma {:induction false} EncodeFromOrdered(e: LogEntry, n: nat)
    ensures Ordered(EncodeFrom(e, n))
    ensures forall i :: 0 <= i < |EncodeFrom(e, n)| ==> KeyRank(EncodeFrom(e, n)[i].key) >= n
    decreases FieldCount - n
  {
    if n < FieldCount {
      EncodeFromOrdered(e, n + 1);
      var k := KeyOfRank(n);
      if Present(e, k) {
        OrderedCons(Member(k, FieldOf(e, k)), EncodeFrom(e, n + 1), n);
      }
    }
  }

  /** A member of rank n before members of higher ranks keeps the body ordered. */
  lemma OrderedCons(m: Member, rest: Body, n: nat)
    requires KeyRank(m.key) == n && Ordered(rest)
    requires forall i :: 0 <= i < |rest| ==> KeyRank(rest[i].key) >= n + 1
    ensures Ordered([m] + rest)
    ensures forall i :: 0 <= i < |[m] + rest| ==> KeyRank(([m] + rest)[i].key) >= n
  {
    var body := [m] + rest;
    assert forall i :: 1 <= i < |body| ==> body[i] == rest[i - 1];
  }

  /** Looking a field up in the members from position `n` on finds its value exactly when it is there. */
  lemma {:induction false} EncodeFromLookup(e: LogEntry, n: nat, k: Key)
    ensures Lookup(EncodeFrom(e, n), k) ==
            (if n <= KeyRank(k) && Present(e, k) then Some(FieldOf(e, k)) else None)
    decreases FieldCount - n
  {
    RankOfKey(k);
    if n < FieldCount {
      EncodeFromLookup(e, n + 1, k);
      var here := KeyOfRank(n);
      assert here == k <==> n == KeyRank(k);
      var rest := EncodeFrom(e, n + 1);
      if Present(e, here) {
        var m := Member(here, FieldOf(e, here));
        assert EncodeFrom(e, n) == [m] + rest;
        LookupCons(m, rest, k);
        if here == k {
          assert Lookup(EncodeFrom(e, n), k) == Some(FieldOf(e, k));
        } else {
          assert Lookup(EncodeFrom(e, n), k) == Lookup(rest, k);
        }
      } else {
        assert EncodeFrom(e, n) == rest;
      }
    }
  }

  /** Looking up in a body with one member in front. */
  lemma LookupCons(m: Member, rest: Body, k: Key)
    ensures Lookup([m] + rest, k) == if m.key == k then Some(m.value) else Lookup(rest, k)
  {
    assert ([m] + rest)[1..] == rest;
  }

  /** The value of the first member with key `k`. */
  function Lookup(body: Body, k: Key): Option<Value>
  {
    if body == [] then None
    else if body[0].key == k then Some(body[0].value)
    else Lookup(body[1..], k)
  }

  function StrAt(body: Body, k: Key): string
  {
    match Lookup(body, k)
    case Some(Str(s)) => s
    case _ => ""
  }

  function ObjAt(body: Body, k: Key): map<string, Json>
  {
    match Lookup(body, k)
    case Some(Obj(m)) => m
    case _ => map[]
  }

  /** json.Unmarshal into a LogEntry: a missing field is left at its zero value. */
  function Decode(body: Body): LogEntry
  {
    LogEntry(StrAt(body, KId), StrAt(body, KApp), StrAt(body, KSystem), StrAt(body, KModule),
             StrAt(body, KType), StrAt(body, KPri), StrAt(body, KWhen), StrAt(body, KWho),
             StrAt(body, KRemoteIP), StrAt(body, KTraceID), StrAt(body, KMsg), ObjAt(body, KData))
  }

  /** Serialising then parsing gives the entry back: leaving out empty fields loses nothing. */
  lemma EncodeRoundTrip(e: LogEntry)
    ensures Decode(Encode(e)) == e
  {
    forall k | true
      ensures Lookup(Encode(e), k) == (if Present(e, k) then Some(FieldOf(e, k)) else None)
    {
      EncodeFromLookup(e, 0, k);
    }
  }

  // ---------------------------------------------------------------------
  // Index routing
  // ---------------------------------------------------------------------

  const IndexPrefix := "logharbour-"

  /** The index for a record: the prefix, the lower-cased type, a dash, and the processing date as YYYY.MM.DD. */
  function IndexName(logType: string, today: Date): string
  {
    IndexPrefix + Lower(logType) + "-" + DotDate(today)
  }

  /** The index name determines the lower-cased type and the date it was built from. */
  lemma IndexNameInjective(t1: string, d1: Date, t2: string, d2: Date)
    requires ValidDate(d1) && ValidDate(d2)
    requires IndexName(t1, d1) == IndexName(t2, d2)
    ensures Lower(t1) == Lower(t2) && d1 == d2
  {
    DotDateShape(d1);
    DotDateShape(d2);
    var n := IndexName(t1, d1);
    assert |Lower(t1)| == |Lower(t2)|;
    assert n[11..|n| - 11] == Lower(t1);
    assert IndexName(t2, d2)[11..|n| - 11] == Lower(t2);
    assert n[|n| - 10..] == DotDate(d1);
    assert IndexName(t2, d2)[|n| - 10..] == DotDate(d2);
    DotDateInjective(d1, d2);
  }

  /** The index depends on the type and the processing date only: never on the record's `when`. */
  lemma IndexIgnoresWhen(e: LogEntry, when: string, today: Date)
    ensures RequestFor(e.(when := when), today).index == RequestFor(e, today).index
    ensures RequestFor(e, today).index == IndexName(e.logType, today)
  {
  }

  /** The type is matched without regard to case. */
  lemma IndexNameCaseInsensitive(logType: string, today: Date)
    ensures IndexName(Lower(logType), today) == IndexName(logType, today)
  {
    LowerIdempotent(logType);
  }

  /** esapi.IndexRequest as built by indexLog. */
  datatype IndexRequest = IndexRequest(index: string, documentID: string, body: Body, refresh: string)

  /**
   * The request indexLog sends for `e` on the processing date `today`. The
   * date comes from the consumer's clock, never from `e.when`.
   */
  function RequestFor(e: LogEntry, today: Date): (r: IndexRequest)
    ensures r.index == IndexName(e.logType, today)
    ensures r.documentID == e.id && r.refresh == "false"
    ensures Decode(r.body) == e
  {
    EncodeRoundTrip(e);
    IndexRequest(IndexName(e.logType, today), e.id, Encode(e), "false")
  }

  // ---------------------------------------------------------------------
  // The search store
  // ---------------------------------------------------------------------

  datatype DocKey = DocKey(index: string, id: string)

  /**
   * How `req.Do` ends, and whether the engine wrote the document: a
   * transport error before the engine took the request (`Unreachable`), a
   * transport error after it indexed the document, such as a lost answer
   * (`Lost`), an error response, or success. A request with an empty
   * document id is sent without one, and the engine stores the document
   * under an id it generates itself, reported here as `generatedID`; for
   * any other request that field is unused.
   */
  datatype Response = Unreachable | Lost(generatedID: string) | Rejected | Accepted(generatedID: string)
  {
    /** The engine indexed the document, whatever the consumer was told. */
    predicate Committed()
    {
      Lost? || Accepted?
    }
  }

  datatype IndexError = MarshalFailed | RequestFailed | ResponseFailed

  /** The document a committed request writes: its own id, or the generated one when it has none. */
  function StoredKey(req: IndexRequest, response: Response): (k: DocKey)
    requires response.Committed()
    ensures k.index == req.index
    ensures req.documentID != "" ==> k.id == req.documentID
    ensures req.documentID == "" ==> k.id == response.generatedID
  {
    DocKey(req.index, if req.documentID != "" then req.documentID else response.generatedID)
  }

  /** The documents after the engine answered `response` to `req`: an index call overwrites by id. */
  function Stored(docs: map<DocKey, Body>, req: IndexRequest, response: Response): (r: map<DocKey, Body>)
    ensures response.Committed() ==> StoredKey(req, response) in r && r[StoredKey(req, response)] == req.body
    ensures !response.Committed() ==> r == docs
  {
    if response.Committed() then docs[StoredKey(req, response) := req.body] else docs
  }

  /** Indexing a request that carries an id twice leaves the store as indexing it once. */
  lemma StoredIdempotent(docs: map<DocKey, Body>, req: IndexRequest, response: Response)
    requires req.documentID != ""
    ensures Stored(Stored(docs, req, response), req, response) == Stored(docs, req, response)
  {
  }

  /**
   * A request without an id is not idempotent: sent twice and given two
   * different generated ids, it leaves two copies of the document.
   */
  lemma AutoIdDuplicates(docs: map<DocKey, Body>, req: IndexRequest, g1: string, g2: string)
    requires req.documentID == "" && g1 != g2
    ensures var twice := Stored(Stored(docs, req, Accepted(g1)), req, Accepted(g2));
            DocKey(req.index, g1) in twice && DocKey(req.index, g2) in twice
            && twice[DocKey(req.index, g1)] == twice[DocKey(req.index, g2)] == req.body
  {
  }

  /** The Elasticsearch cluster as the consumer uses it. */
  class SearchStore {
    /** The documents, by index and id. */
    var docs: map<DocKey, Body>
    /** Every index request the consumer sent, in order. */
    var requests: seq<IndexRequest>

    constructor ()
      ensures docs == map[] && requests == []
    {
      docs := map[];
      requests := [];
    }

    method Perform(req: IndexRequest, response: Response)
      modifies this
      ensures requests == old(requests) + [req]
      ensures docs == Stored(old(docs), req, response)
    {
      requests := requests + [req];
      docs := Stored(docs, req, response);
    }
  }

  // ---------------------------------------------------------------------
  // Consuming a claim
  // ---------------------------------------------------------------------

  datatype Message = Message(partition: nat, offset: nat)

  /** One message of a claim together with everything the outside world decides about it. */
  datatype Delivery = Delivery(message: Message, parsed: Option<LogEntry>, today: Date, marshalOk: bool, response: Response)

  /** The consumer-group session: which messages have been marked consumed. */
  class Session {
    var marked: seq<Message>

    constructor ()
      ensures marked == []
    {
      marked := [];
    }

    method MarkMessage(m: Message)
      modifies this
      ensures marked == old(marked) + [m]
    {
      marked := marked + [m];
    }
  }

  /** The delivery reaches the search engine: it parsed and re-marshalled. */
  predicate Attempted(d: Delivery)
  {
    d.parsed.Some? && d.marshalOk
  }

  function RequestOf(d: Delivery): IndexRequest
    requires d.parsed.Some?
  {
    RequestFor(d.parsed.value, d.today)
  }

  /** The marks a claim produces. */
  function Marks(claim: seq<Delivery>): (ms: seq<Message>)
  {
    if claim == [] then [] else Marks(claim[..|claim| - 1]) + [claim[|claim| - 1].message]
  }

  /** The index requests a claim produces. */
  function Requests(claim: seq<Delivery>): (rs: seq<IndexRequest>)
  {
    if claim == [] then []
    else
      var d := claim[|claim| - 1];
      Requests(claim[..|claim| - 1]) + (if Attempted(d) then [RequestOf(d)] else [])
  }

  function Step(docs: map<DocKey, Body>, d: Delivery): map<DocKey, Body>
  {
    if Attempted(d) then Stored(docs, RequestOf(d), d.response) else docs
  }

  /** The documents after processing a claim: the consumer never removes one. */
  function Replay(docs: map<DocKey, Body>, claim: seq<Delivery>): (r: map<DocKey, Body>)
  {
    if claim == [] then docs else Step(Replay(docs, claim[..|claim| - 1]), claim[|claim| - 1])
  }

  /** Number of deliveries that reach the search engine. */
  function AttemptCount(claim: seq<Delivery>): nat
  {
    if claim == [] then 0
    else AttemptCount(claim[..|claim| - 1]) + (if Attempted(claim[|claim| - 1]) then 1 else 0)
  }

  /** Extending a processed prefix of the claim by one delivery. */
  lemma ClaimStep(docs: map<DocKey, Body>, claim: seq<Delivery>, i: nat)
    requires i < |claim|
    ensures Marks(claim[..i + 1]) == Marks(claim[..i]) + [claim[i].message]
    ensures Requests(claim[..i + 1]) ==
      Requests(claim[..i]) + (if Attempted(claim[i]) then [RequestOf(claim[i])] else [])
    ensures Replay(docs, claim[..i + 1]) == Step(Replay(docs, claim[..i]), claim[i])
  {
    assert claim[..i + 1][..i] == claim[..i];
  }

  lemma AppendAssoc<T>(a: seq<T>, b: seq<T>, c: seq<T>)
    ensures a + b + c == a + (b + c)
  {
  }

  /** Every message is marked exactly once, in arrival order. */
  lemma {:induction false} MarksInOrder(claim: seq<Delivery>)
    ensures |Marks(claim)| == |claim|
    ensures forall i :: 0 <= i < |claim| ==> Marks(claim)[i] == claim[i].message
  {
    if claim != [] {
      var init := claim[..|claim| - 1];
      MarksInOrder(init);
      assert forall i :: 0 <= i < |init| ==> init[i] == claim[i];
    }
  }

  /** One request per delivery that parses and marshals. */
  lemma {:induction false} RequestsCount(claim: seq<Delivery>)
    ensures |Requests(claim)| == AttemptCount(claim)
  {
    if claim != [] {
      RequestsCount(claim[..|claim| - 1]);
    }
  }

  /** The positions of the claim's attempted deliveries, in increasing order. */
  ghost function AttemptedAt(claim: seq<Delivery>): seq<nat>
  {
    if claim == [] then []
    else
      var n := |claim| - 1;
      AttemptedAt(claim[..n]) + (if Attempted(claim[n]) then [n] else [])
  }

  /** AttemptedAt lists attempted positions of the claim, strictly increasing, and all of them. */
  lemma {:induction false} AttemptedAtExactly(claim: seq<Delivery>)
    ensures forall j :: 0 <= j < |AttemptedAt(claim)| ==>
      AttemptedAt(claim)[j] < |claim| && Attempted(claim[AttemptedAt(claim)[j]])
    ensures forall j, l :: 0 <= j < l < |AttemptedAt(claim)| ==> AttemptedAt(claim)[j] < AttemptedAt(claim)[l]
    ensures forall i :: 0 <= i < |claim| && Attempted(claim[i]) ==> i in AttemptedAt(claim)
  {
    if claim != [] {
      var n := |claim| - 1;
      var init := claim[..n];
      var earlier, pos := AttemptedAt(init), AttemptedAt(claim);
      AttemptedAtExactly(init);
      forall j | 0 <= j < |pos|
        ensures pos[j] < |claim| && Attempted(claim[pos[j]])
      {
        if j < |earlier| {
          assert init[earlier[j]] == claim[earlier[j]];
        }
      }
      forall i | 0 <= i < |claim| && Attempted(claim[i])
        ensures i in pos
      {
        if i < n {
          assert init[i] == claim[i];
          var k :| 0 <= k < |earlier| && earlier[k] == i;
          assert pos[k] == i;
        } else {
          assert pos[|earlier|] == n;
        }
      }
    }
  }

  /** Request j is the request of the delivery at the j-th attempted position. */
  lemma {:induction false} AttemptedAtRequests(claim: seq<Delivery>)
    ensures |AttemptedAt(claim)| == |Requests(claim)|
    ensures forall j :: 0 <= j < |AttemptedAt(claim)| ==> AttemptedAt(claim)[j] < |claim|
    ensures forall j :: 0 <= j < |AttemptedAt(claim)| ==>
      claim[AttemptedAt(claim)[j]].parsed.Some? && Requests(claim)[j] == RequestOf(claim[AttemptedAt(claim)[j]])
  {
    if claim != [] {
      var n := |claim| - 1;
      var init := claim[..n];
      var earlier, pos := AttemptedAt(init), AttemptedAt(claim);
      AttemptedAtRequests(init);
      var sent := if Attempted(claim[n]) then [RequestOf(claim[n])] else [];
      assert Requests(claim) == Requests(init) + sent;
      forall j | 0 <= j < |pos|
        ensures pos[j] < |claim| && claim[pos[j]].parsed.Some? && Requests(claim)[j] == RequestOf(claim[pos[j]])
      {
        if j < |earlier| {
          assert init[earlier[j]] == claim[earlier[j]];
          assert Requests(claim)[j] == Requests(init)[j];
        } else {
          assert Requests(claim)[j] == sent[0];
        }
      }
    }
  }

  /**
   * The requests are exactly the attempted deliveries' requests, each sent
   * once and in delivery order: `pos` lists the attempted positions of the
   * claim in increasing order, and request j comes from delivery pos[j].
   */
  lemma RequestPositions(claim: seq<Delivery>) returns (pos: seq<nat>)
    ensures |pos| == |Requests(claim)|
    ensures forall j :: 0 <= j < |pos| ==>
      pos[j] < |claim| && Attempted(claim[pos[j]]) && Requests(claim)[j] == RequestOf(claim[pos[j]])
    ensures forall j, l :: 0 <= j < l < |pos| ==> pos[j] < pos[l]
    ensures forall i :: 0 <= i < |claim| && Attempted(claim[i]) ==> i in pos
  {
    pos := AttemptedAt(claim);
    AttemptedAtExactly(claim);
    AttemptedAtRequests(claim);
  }

  /**
   * Every request sent is the request of a delivery that parsed and
   * marshalled; `i` is that delivery.
   */
  lemma {:induction false} RequestsSound(claim: seq<Delivery>, j: nat) returns (i: nat)
    requires j < |Requests(claim)|
    ensures i < |claim| && Attempted(claim[i]) && Requests(claim)[j] == RequestOf(claim[i])
  {
    var n := |claim| - 1;
    var init := claim[..n];
    if j < |Requests(init)| {
      i := RequestsSound(init, j);
      assert init[i] == claim[i];
    } else {
      i := n;
    }
  }

  /**
   * Every delivery that parses and marshals has its request sent; `j` is
   * its position among the requests.
   */
  lemma {:induction false} RequestsComplete(claim: seq<Delivery>, i: nat) returns (j: nat)
    requires i < |claim| && Attempted(claim[i])
    ensures j < |Requests(claim)| && Requests(claim)[j] == RequestOf(claim[i])
  {
    var n := |claim| - 1;
    var init := claim[..n];
    var sent := if Attempted(claim[n]) then [RequestOf(claim[n])] else [];
    assert Requests(claim) == Requests(init) + sent;
    if i < n {
      assert init[i] == claim[i];
      j := RequestsComplete(init, i);
      assert Requests(claim)[j] == Requests(init)[j];
    } else {
      assert i == n;
      j := |Requests(init)|;
      assert Requests(claim)[j] == sent[0];
    }
    assert Requests(claim)[j] == RequestOf(claim[i]);
  }

  /** A claim in which nothing parses sends no request and leaves the store alone. */
  lemma {:induction false} MalformedClaimIndexesNothing(docs: map<DocKey, Body>, claim: seq<Delivery>)
    requires forall i :: 0 <= i < |claim| ==> claim[i].parsed.None?
    ensures Requests(claim) == [] && Replay(docs, claim) == docs
  {
    if claim != [] {
      var init := claim[..|claim| - 1];
      assert forall i :: 0 <= i < |init| ==> init[i] == claim[i];
      MalformedClaimIndexesNothing(docs, init);
    }
  }

  /** The delivery `d` writes document `k`. */
  predicate Writes(d: Delivery, k: DocKey)
  {
    Attempted(d) && d.response.Committed() && StoredKey(RequestOf(d), d.response) == k
  }

  /** The body the last write of `k` in the claim stored, if any. */
  function LastWrite(claim: seq<Delivery>, k: DocKey): Option<Body>
  {
    if claim == [] then None
    else if Writes(claim[|claim| - 1], k) then Some(RequestOf(claim[|claim| - 1]).body)
    else LastWrite(claim[..|claim| - 1], k)
  }

  /** After a claim each document holds its last write, or what it held before. */
  lemma {:induction false} ReplayAt(docs: map<DocKey, Body>, claim: seq<Delivery>, k: DocKey)
    ensures k in Replay(docs, claim) <==> (k in docs || LastWrite(claim, k).Some?)
    ensures LastWrite(claim, k).Some? ==> Replay(docs, claim)[k] == LastWrite(claim, k).value
    ensures LastWrite(claim, k).None? && k in docs ==> Replay(docs, claim)[k] == docs[k]
  {
    if claim != [] {
      var init, d := claim[..|claim| - 1], claim[|claim| - 1];
      ReplayAt(docs, init, k);
      StepAt(Replay(docs, init), d, k);
    }
  }

  /** One delivery writes document `k` or leaves it as it was. */
  lemma StepAt(docs: map<DocKey, Body>, d: Delivery, k: DocKey)
    ensures k in Step(docs, d) <==> (k in docs || Writes(d, k))
    ensures Writes(d, k) ==> Step(docs, d)[k] == RequestOf(d).body
    ensures !Writes(d, k) && k in docs ==> Step(docs, d)[k] == docs[k]
  {
    if Attempted(d) && d.response.Committed() {
      var req := RequestOf(d);
      assert Step(docs, d) == docs[StoredKey(req, d.response) := req.body];
    } else {
      assert Step(docs, d) == docs;
    }
  }

  /** Processing two claims in turn is processing their concatenation. */
  lemma {:induction false} ReplayAppend(docs: map<DocKey, Body>, a: seq<Delivery>, b: seq<Delivery>)
    ensures Replay(docs, a + b) == Replay(Replay(docs, a), b)
    decreases |b|
  {
    if b == [] {
      assert a + b == a;
    } else {
      assert (a + b)[..|a + b| - 1] == a + b[..|b| - 1];
      assert (a + b)[|a + b| - 1] == b[|b| - 1];
      ReplayAppend(docs, a, b[..|b| - 1]);
    }
  }

  /**
   * Redelivering a whole claim of records that carry ids, with the same
   * outcomes on the same processing dates, changes nothing: every document
   * is overwritten with the body it already has. (A record without an id
   * gets a new generated id on redelivery; see AutoIdDuplicates.)
   */
  lemma RedeliveryIdempotent(docs: map<DocKey, Body>, claim: seq<Delivery>)
    requires forall i :: 0 <= i < |claim| && claim[i].parsed.Some? ==> claim[i].parsed.value.id != ""
    ensures Replay(docs, claim + claim) == Replay(docs, claim)
  {
    ReplayAppend(docs, claim, claim);
    var once := Replay(docs, claim);
    var twice := Replay(once, claim);
    forall k
      ensures k in twice <==> k in once
      ensures k in once ==> twice[k] == once[k]
    {
      ReplayAt(docs, claim, k);
      ReplayAt(once, claim, k);
    }
    assert twice == once;
  }

  /**
   * A record whose index call succeeds can be read back in its index by its
   * id, or by the generated id when it has none.
   */
  lemma IndexedEntryRetrievable(docs: map<DocKey, Body>, claim: seq<Delivery>, e: LogEntry, today: Date,
                                m: Message, generated: string)
    ensures var d := Delivery(m, Some(e), today, true, Accepted(generated));
            var k := DocKey(IndexName(e.logType, today), if e.id != "" then e.id else generated);
            k in Replay(docs, claim + [d]) && Decode(Replay(docs, claim + [d])[k]) == e
  {
    var d := Delivery(m, Some(e), today, true, Accepted(generated));
    assert (claim + [d])[..|claim|] == claim;
  }

  /**
   * A record whose index call failed after the engine indexed it (the
   * answer was lost) is reported as a failed request, yet it can be read
   * back in its index just as if the call had succeeded.
   */
  lemma LostAnswerStillStored(docs: map<DocKey, Body>, claim: seq<Delivery>, e: LogEntry, today: Date,
                              m: Message, generated: string)
    ensures var d := Delivery(m, Some(e), today, true, Lost(generated));
            var k := DocKey(IndexName(e.logType, today), if e.id != "" then e.id else generated);
            k in Replay(docs, claim + [d]) && Decode(Replay(docs, claim + [d])[k]) == e
  {
    var d := Delivery(m, Some(e), today, true, Lost(generated));
    assert (claim + [d])[..|claim|] == claim;
  }

  /** The consumer: indexLog and ConsumeClaim. */
  class Consumer {
    const es: SearchStore

    constructor (es: SearchStore)
      ensures this.es == es
    {
      this.es := es;
    }

    /**
     * indexLog: build the index name and the request, send it, and report
     * an error exactly when marshaling fails, the request fails or the
     * response is an error.
     */
    method IndexLog(entry: LogEntry, today: Date, marshalOk: bool, response: Response)
      returns (err: Option<IndexError>)
      modifies es
      ensures err.None? <==> marshalOk && response.Accepted?
      ensures !marshalOk ==> err == Some(MarshalFailed)
      ensures marshalOk && (response == Unreachable || response.Lost?) ==> err == Some(RequestFailed)
      ensures marshalOk && response == Rejected ==> err == Some(ResponseFailed)
      ensures es.requests == old(es.requests) + (if marshalOk then [RequestFor(entry, today)] else [])
      ensures es.docs == if marshalOk then Stored(old(es.docs), RequestFor(entry, today), response)
                         else old(es.docs)
    {
      var indexName := IndexName(entry.logType, today);
      if !marshalOk {
        return Some(MarshalFailed);
      }
      var data := Encode(entry);
      var req := IndexRequest(indexName, entry.id, data, "false");
      es.Perform(req, response);
      if response == Unreachable || response.Lost? {
        return Some(RequestFailed);
      }
      if response == Rejected {
        return Some(ResponseFailed);
      }
      return None;
    }

    /**
     * ConsumeClaim: every message is marked, whether it fails to parse,
     * fails to index or is indexed; nothing is retried and the result is
     * always nil.
     */
    method ConsumeClaim(session: Session, claim: seq<Delivery>) returns (err: Option<IndexError>)
      modifies session, es
      ensures err == None
      ensures session.marked == old(session.marked) + Marks(claim)
      ensures es.requests == old(es.requests) + Requests(claim)
      ensures es.docs == Replay(old(es.docs), claim)
    {
      ghost var marked0, requests0, docs0 := session.marked, es.requests, es.docs;
      var i := 0;
      while i < |claim|
        invariant 0 <= i <= |claim|
        invariant session.marked == marked0 + Marks(claim[..i])
        invariant es.requests == requests0 + Requests(claim[..i])
        invariant es.docs == Replay(docs0, claim[..i])
      {
        ClaimStep(docs0, claim, i);
        AppendAssoc(marked0, Marks(claim[..i]), [claim[i].message]);
        AppendAssoc(requests0, Requests(claim[..i]), if Attempted(claim[i]) then [RequestOf(claim[i])] else []);
        ConsumeMessage(session, claim[i]);
        i := i + 1;
      }
      assert claim[..i] == claim;
      return None;
    }

    /**
     * One pass of ConsumeClaim's loop: a message that does not parse is
     * only marked; any other is indexed, whatever the outcome, then marked.
     */
    method ConsumeMessage(session: Session, d: Delivery)
      modifies session, es
      ensures session.marked == old(session.marked) + [d.message]
      ensures es.requests == old(es.requests) + (if Attempted(d) then [RequestOf(d)] else [])
      ensures es.docs == Step(old(es.docs), d)
    {
      if d.parsed.None? {
        session.MarkMessage(d.message);
        return;
      }
      var indexErr := IndexLog(d.parsed.value, d.today, d.marshalOk, d.response);
      session.MarkMessage(d.message);
    }
  }

  // ---------------------------------------------------------------------
  // Configuration from the environment
  // ---------------------------------------------------------------------

  datatype ConsumerConfig = ConsumerConfig(brokers: seq<string>, elasticsearchURL: string, topic: string, group: string)

  /** os.Getenv: "" for a variable that is not set. */
  function Getenv(env: map<string, string>, name: string): (v: string)
    ensures name in env ==> v == env[name]
    ensures name !in env ==> v == ""
  {
    if name in env then env[name] else ""
  }

  const DefaultBrokers := "localhost:9092"
  const DefaultElasticsearchURL := "http://localhost:9200"

  /** The default broker address names a single broker. */
  lemma DefaultBrokersSplit()
    ensures Split(DefaultBrokers, ',') == [DefaultBrokers]
  {
    assert forall i :: 0 <= i < |DefaultBrokers| ==> DefaultBrokers[i] != ',';
    SplitWithoutSeparator(DefaultBrokers, ',');
  }

  /**
   * The start of main: KAFKA_BROKERS and ELASTICSEARCH_URL with their
   * defaults, the broker list split on commas, and the fixed topic and group.
   */

  method LoadConfig(env: map<string, string>) returns (cfg: ConsumerConfig)
    ensures cfg.topic == "logharbour-logs" && cfg.group == "logharbour-consumer"
    ensures Getenv(env, "KAFKA_BROKERS") == "" ==> cfg.brokers == [DefaultBrokers]
    ensures Getenv(env, "KAFKA_BROKERS") != "" ==>
      Join(cfg.brokers, ',') == Getenv(env, "KAFKA_BROKERS")
      && |cfg.brokers| == Count(Getenv(env, "KAFKA_BROKERS"), ',') + 1
    ensures forall i :: 0 <= i < |cfg.brokers| ==> ',' !in cfg.brokers[i]
    ensures cfg.elasticsearchURL ==
      if Getenv(env, "ELASTICSEARCH_URL") == "" then DefaultElasticsearchURL
      else Getenv(env, "ELASTICSEARCH_URL")
  {
    var kafkaBrokers := Getenv(env, "KAFKA_BROKERS");
    if kafkaBrokers == "" {
      kafkaBrokers := DefaultBrokers;
    }
    var elasticsearchURL := Getenv(env, "ELASTICSEARCH_URL");
    if elasticsearchURL == "" {
      elasticsearchURL := DefaultElasticsearchURL;
    }
    var brokers := Split(kafkaBrokers, ',');
    SplitPiecesFree(kafkaBrokers, ',');
    if Getenv(env, "KAFKA_BROKERS") == "" {
      DefaultBrokersSplit();
    } else {
      JoinSplit(kafkaBrokers, ',');
      SplitLength(kafkaBrokers, ',');
    }
    cfg := ConsumerConfig(brokers, elasticsearchURL, "logharbour-logs", "logharbour-consumer");
  }
}
