/**
 * The relying party's ceremony state machine (server/index.js), one pure
 * function per route handler. Each takes the user directory `db`, the
 * requesting client's session and the outcome of every remote call the
 * handler may make, and gives back the new directory, the new session, the
 * reply sent to the browser and the requests issued to the credential
 * service, in order. A handler runs as one atomic step.
 */
module Ceremony {
  import opened Wrappers
  import opened Js
  import opened Api

  /** A relying-party user: the name it registered with and, once the
      credential service has provisioned it, the service's user id. */
  datatype UserRecord = UserRecord(name: Json, skUserId: Value)

  /** The in-memory directory. `db[name]` coerces the name to a string
      (`ToJsString`), so an unset name reads the entry "undefined". */
  type Directory = map<string, UserRecord>

  /** The fields of a client's cookie session; `None` is a field never set
      or set to `undefined`. `loggedIn` is written only by logout. */
  datatype SessionState = SessionState(name: Value, isLoggedIn: Option<bool>, loggedIn: Option<bool>)

  /** The session a client has on first contact. */
  const NewSession := SessionState(None, None, None)

  /** What a handler sends back: 200 with a payload, 400 with a message of
      its own, or 400 relaying a failed call to the credential service (or an
      error thrown while making it). `NoResponse` is a handler that threw
      outside its `try`: nothing is sent back. */
  datatype Reply = Ok(payload: Json) | BadRequest(message: string) | Upstream(fault: Fault) | NoResponse

  /** Everything one handler invocation does. */
  datatype Effect = Effect(db: Directory, session: SessionState, reply: Reply, calls: seq<ApiRequest>)

  const EmptyNameMessage := "Name field cannot be empty"
  const NoUserMessage := "User not found"
  const RegisterFirstMessage := "User not found. Please register a user first."

  /** `bodyParser.json()` in strict mode yields an object or an array
      (an empty object when the request has no JSON body). */
  predicate RequestBody(body: Json) {
    body.JObj? || body.JArr?
  }

  /** A record the credential service has provisioned: its id is truthy. */
  predicate Provisioned(r: UserRecord) {
    Truthy(r.skUserId)
  }

  /** `db[name]` finds a record: the name converts to a key that is present. */
  predicate Resolves(db: Directory, name: Value) {
    PrintableValue(name) && ToJsString(name) in db
  }

  /** The session bound to `name` by an initiate step, not logged in. */
  function Bind(s: SessionState, name: Value): (s': SessionState)
    ensures s'.name == name && s'.isLoggedIn == Some(false) && s'.loggedIn == s.loggedIn
  {
    s.(isLoggedIn := Some(false), name := name)
  }

  /** The reply that relays the answer of the credential service. */
  function Relay(answer: Answer): (reply: Reply)
    ensures reply.Ok? <==> answer.Success?
    ensures reply.Ok? ==> reply.payload == answer.value
    ensures !reply.Ok? ==> reply == Upstream(answer.error)
  {
    match answer
    case Success(p) => Ok(p)
    case Failure(f) => Upstream(f)
  }

  /** Creates the record `{name}` unless one exists under the name's key;
      an existing record, its service id included, is kept as it is. */
  function GetOrCreate(db: Directory, name: Json): (db': Directory)
    requires Printable(name)
    ensures db'.Keys == db.Keys + {ToJsString(Some(name))}
    ensures forall k :: k in db ==> db'[k] == db[k]
    ensures ToJsString(Some(name)) !in db ==> db'[ToJsString(Some(name))] == UserRecord(name, None)
  {
    var key := ToJsString(Some(name));
    if key in db then db else db[key := UserRecord(name, None)]
  }

  /** The register/initiate call for the user stored under `key`. */
  function ChallengeRequest(config: Config, db: Directory, key: string): ApiRequest
    requires key in db && PrintableValue(db[key].skUserId)
  {
    RequestFor(config, Endpoint(db[key].skUserId, RegisterInitiateOp), None)
  }

  /** The provisioning call that creates the service-side user for `name`. */
  function ProvisionRequest(config: Config, name: Value): ApiRequest {
    RequestFor(config, ProvisionPath, Some(Singleton("name", name)))
  }

  /** A parsed answer whose fields can be read: it is not `null`. */
  predicate Answered(answer: Answer) {
    answer.Success? && !answer.value.JNull?
  }

  /** Whether register/initiate for `name` must provision a service-side user. */
  predicate NeedsProvisioning(db: Directory, name: Value)
    requires PrintableValue(name)
  {
    ToJsString(name) !in db || !Provisioned(db[ToJsString(name)])
  }

  /** The last step of register/initiate: interpolate the stored id (inside
      the `try`) and request the challenge. */
  function RequestChallenge(
    config: Config, db: Directory, s: SessionState, key: string,
    calls: seq<ApiRequest>, initiate: Answer): Effect
    requires key in db
  {
    if !PrintableValue(db[key].skUserId) then Effect(db, s, Upstream(NotPrimitive), calls)
    else Effect(db, s, Relay(initiate), calls + [ChallengeRequest(config, db, key)])
  }

  /** POST /register/initiate (server/index.js:12-54). */
  function RegisterInitiate(
    config: Config, db: Directory, s: SessionState, body: Json,
    provision: Answer, initiate: Answer): (e: Effect)
    requires RequestBody(body)
    // an empty name is refused before anything changes
    ensures e.reply == BadRequest(EmptyNameMessage) <==> !Truthy(Field(body, "name"))
    ensures !Truthy(Field(body, "name")) ==> e.db == db && e.session == s && e.calls == []
    // otherwise the session is bound first, whatever happens next
    ensures Truthy(Field(body, "name")) ==> e.session == Bind(s, Field(body, "name"))
    // a name that cannot be a key throws at the lookup: no reply, no call, db as it was
    ensures e.reply == NoResponse <==> Truthy(Field(body, "name")) && !PrintableValue(Field(body, "name"))
    ensures e.reply == NoResponse ==> e.db == db && e.calls == []
    ensures |e.calls| <= 2
    // the directory gains at most the name's key and changes no other entry;
    // the record's id becomes the `userId` of a readable provisioning answer
    // when provisioning was needed, and is otherwise kept
    ensures Truthy(Field(body, "name")) && PrintableValue(Field(body, "name")) ==>
      var name := Field(body, "name");
      var key := ToJsString(name);
      && e.db.Keys == db.Keys + {key}
      && (forall k :: k in db && k != key ==> e.db[k] == db[k])
      && e.db[key].name == (if key in db then db[key].name else name.value)
      && e.db[key].skUserId ==
           (if NeedsProvisioning(db, name) && Answered(provision) then Field(provision.value, "userId")
            else if key in db then db[key].skUserId
            else None)
  {
    var name := Field(body, "name");
    if !Truthy(name) then Effect(db, s, BadRequest(EmptyNameMessage), [])
    else
      var session := Bind(s, name);
      if !PrintableValue(name) then Effect(db, session, NoResponse, [])
      else
        var key := ToJsString(name);
        var db1 := GetOrCreate(db, name.value);
        if Provisioned(db1[key]) then
          RequestChallenge(config, db1, session, key, [], initiate)
        else
          var call := ProvisionRequest(config, name);
          match provision
          case Failure(f) => Effect(db1, session, Upstream(f), [call])
          case Success(JNull) => Effect(db1, session, Upstream(NullProperty("userId")), [call])
          case Success(p) =>
            var db2 := db1[key := db1[key].(skUserId := Field(p, "userId"))];
            RequestChallenge(config, db2, session, key, [call], initiate)
  }

  /** Provisioning is the first call, made exactly when the name is a valid
      key whose record has no service id; a failed or `null` provisioning
      answer is relayed and ends the handler. Otherwise the stored id is
      interpolated and the challenge requested for it; only then can the reply
      be a 200, and it relays the service's answer. */
  lemma RegisterInitiateCalls(
    config: Config, db: Directory, s: SessionState, body: Json,
    provision: Answer, initiate: Answer)
    requires RequestBody(body)
    ensures var e := RegisterInitiate(config, db, s, body, provision, initiate);
      var name := Field(body, "name");
      var valid := Truthy(name) && PrintableValue(name);
      var needs := valid && NeedsProvisioning(db, name);
      var reached := valid && (!NeedsProvisioning(db, name) || Answered(provision));
      && ((|e.calls| >= 1 && e.calls[0] == ProvisionRequest(config, name)) <==> needs)
      && (needs && provision.Failure? ==> e.reply == Upstream(provision.error) && |e.calls| == 1)
      && (needs && provision == Success(JNull) ==> e.reply == Upstream(NullProperty("userId")) && |e.calls| == 1)
      && (reached ==>
            var key := ToJsString(name);
            && key in e.db
            && (PrintableValue(e.db[key].skUserId) ==>
                  e.reply == Relay(initiate)
                  && e.calls == (if needs then [e.calls[0]] else []) + [ChallengeRequest(config, e.db, key)])
            && (!PrintableValue(e.db[key].skUserId) ==>
                  e.reply == Upstream(NotPrimitive) && |e.calls| == (if needs then 1 else 0)))
      && (!reached ==> !e.reply.Ok? && |e.calls| <= 1)
  {
  }

  /** After a register/initiate that provisioned a service user and read a
      truthy `userId` from the answer, that id is stored, and a second valid
      register/initiate for the same key makes no provisioning call, leaves
      the directory as it is, and requests the challenge for that same id at
      the same endpoint as the first (or fails at once if the id cannot be
      interpolated). */
  lemma {:induction false} ReRegisterReusesId(
    config: Config, db: Directory, s: SessionState, body: Json, provision: Answer, initiate: Answer,
    s2: SessionState, body2: Json, provision2: Answer, initiate2: Answer)
    requires RequestBody(body) && RequestBody(body2)
    requires Truthy(Field(body, "name")) && PrintableValue(Field(body, "name"))
    requires NeedsProvisioning(db, Field(body, "name"))
    requires Answered(provision) && Truthy(Field(provision.value, "userId"))
    requires Truthy(Field(body2, "name")) && PrintableValue(Field(body2, "name"))
    requires ToJsString(Field(body2, "name")) == ToJsString(Field(body, "name"))
    ensures var e := RegisterInitiate(config, db, s, body, provision, initiate);
      var e2 := RegisterInitiate(config, e.db, s2, body2, provision2, initiate2);
      var id := Field(provision.value, "userId");
      && e.db[ToJsString(Field(body, "name"))].skUserId == id
      && e2.db == e.db
      && (PrintableValue(id) ==>
            var challenge := RequestFor(config, Endpoint(id, RegisterInitiateOp), None);
            && e.calls == [ProvisionRequest(config, Field(body, "name")), challenge]
            && e2.calls == [challenge]
            && e2.reply == Relay(initiate2))
      && (!PrintableValue(id) ==> e2.calls == [] && e2.reply == Upstream(NotPrimitive))
  {
    var e := RegisterInitiate(config, db, s, body, provision, initiate);
    var key := ToJsString(Field(body, "name"));
    RegisterInitiateCalls(config, db, s, body, provision, initiate);
    assert !NeedsProvisioning(e.db, Field(body2, "name"));
    RegisterInitiateCalls(config, e.db, s2, body2, provision2, initiate2);
  }

  /** `db[name]` finds a record whose id can be interpolated into an
      endpoint: a complete or auth step for `name` reaches the service. */
  predicate Routable(db: Directory, name: Value) {
    Resolves(db, name) && PrintableValue(db[ToJsString(name)].skUserId)
  }

  /** The FIDO2 endpoint of operation `op` for the user found under `name`. */
  function UserEndpoint(db: Directory, name: Value, op: string): string
    requires Routable(db, name)
  {
    Endpoint(db[ToJsString(name)].skUserId, op)
  }

  /** POST /register/complete (server/index.js:60-78): forwards the browser's
      credential to the service for the session's user; never changes state. */
  function RegisterComplete(config: Config, db: Directory, s: SessionState, body: Json, answer: Answer): (e: Effect)
    requires RequestBody(body)
    ensures e.db == db && e.session == s
    ensures e.reply == NoResponse <==> !PrintableValue(s.name)
    ensures e.reply == BadRequest(NoUserMessage) <==> PrintableValue(s.name) && !Resolves(db, s.name)
    ensures !Routable(db, s.name) ==> e.calls == []
    ensures Resolves(db, s.name) && !Routable(db, s.name) ==> e.reply == Upstream(NotPrimitive)
    ensures Routable(db, s.name) ==>
      && e.reply == Relay(answer)
      && e.calls == [RequestFor(config, UserEndpoint(db, s.name, RegisterCompleteOp), Some(body))]
      && e.calls[0].body == Some(body)
  {
    if !PrintableValue(s.name) then Effect(db, s, NoResponse, [])
    else
      var key := ToJsString(s.name);
      if key !in db then Effect(db, s, BadRequest(NoUserMessage), [])
      else if !PrintableValue(db[key].skUserId) then Effect(db, s, Upstream(NotPrimitive), [])
      else
        var call := RequestFor(config, Endpoint(db[key].skUserId, RegisterCompleteOp), Some(body));
        Effect(db, s, Relay(answer), [call])
  }

  /** POST /auth/initiate (server/index.js:83-106): a name with no record is
      refused with nothing changed; otherwise the session is bound to the
      name, logged out, even when the record has no service id yet. */
  function AuthInitiate(config: Config, db: Directory, s: SessionState, body: Json, answer: Answer): (e: Effect)
    requires RequestBody(body)
    ensures e.db == db
    ensures e.reply == NoResponse <==> !PrintableValue(Field(body, "name"))
    ensures e.reply == BadRequest(RegisterFirstMessage) <==>
      PrintableValue(Field(body, "name")) && !Resolves(db, Field(body, "name"))
    ensures !Resolves(db, Field(body, "name")) ==> e.session == s && e.calls == []
    ensures Resolves(db, Field(body, "name")) ==> e.session == Bind(s, Field(body, "name"))
    ensures Resolves(db, Field(body, "name")) && !Routable(db, Field(body, "name")) ==>
      e.reply == Upstream(NotPrimitive) && e.calls == []
    ensures Routable(db, Field(body, "name")) ==>
      && e.reply == Relay(answer)
      && e.calls == [RequestFor(config, UserEndpoint(db, Field(body, "name"), AuthInitiateOp),
                                Some(Singleton("name", Field(body, "name"))))]
  {
    var name := Field(body, "name");
    if !PrintableValue(name) then Effect(db, s, NoResponse, [])
    else
      var key := ToJsString(name);
      if key !in db then Effect(db, s, BadRequest(RegisterFirstMessage), [])
      else if !PrintableValue(db[key].skUserId) then Effect(db, Bind(s, name), Upstream(NotPrimitive), [])
      else
        var call := RequestFor(config, Endpoint(db[key].skUserId, AuthInitiateOp), Some(Singleton("name", name)));
        Effect(db, Bind(s, name), Relay(answer), [call])
  }

  /** The service confirmed an assertion: it answered, and the answer's
      `success` field is truthy. */
  predicate LoginConfirmed(answer: Answer) {
    Answered(answer) && Truthy(Field(answer.value, "success"))
  }

  /** POST /auth/complete (server/index.js:111-133): `isLoggedIn` becomes true
      exactly when the session's user is reached and the service confirms the
      assertion, and no other session field ever changes; any readable
      answer is relayed in full with a 200, whatever its `success` says. */
  function AuthComplete(config: Config, db: Directory, s: SessionState, body: Json, answer: Answer): (e: Effect)
    requires RequestBody(body)
    ensures e.db == db
    ensures e.session == if Routable(db, s.name) && LoginConfirmed(answer) then s.(isLoggedIn := Some(true)) else s
    ensures e.reply == NoResponse <==> !PrintableValue(s.name)
    ensures e.reply == BadRequest(RegisterFirstMessage) <==> PrintableValue(s.name) && !Resolves(db, s.name)
    ensures Resolves(db, s.name) && !Routable(db, s.name) ==> e.reply == Upstream(NotPrimitive)
    ensures e.reply.Ok? <==> Routable(db, s.name) && Answered(answer)
    ensures e.reply.Ok? ==> e.reply.payload == answer.value
    ensures Routable(db, s.name) && answer.Failure? ==> e.reply == Upstream(answer.error)
    ensures Routable(db, s.name) && answer == Success(JNull) ==> e.reply == Upstream(NullProperty("success"))
    ensures !Routable(db, s.name) ==> e.calls == []
    ensures Routable(db, s.name) ==>
      e.calls == [RequestFor(config, UserEndpoint(db, s.name, AuthCompleteOp), Some(body))]
  {
    if !PrintableValue(s.name) then Effect(db, s, NoResponse, [])
    else
      var key := ToJsString(s.name);
      if key !in db then Effect(db, s, BadRequest(RegisterFirstMessage), [])
      else if !PrintableValue(db[key].skUserId) then Effect(db, s, Upstream(NotPrimitive), [])
      else
        var call := RequestFor(config, Endpoint(db[key].skUserId, AuthCompleteOp), Some(body));
        match answer
        case Failure(f) => Effect(db, s, Upstream(f), [call])
        case Success(JNull) => Effect(db, s, Upstream(NullProperty("success")), [call])
        case Success(p) =>
          var session := if Truthy(Field(p, "success")) then s.(isLoggedIn := Some(true)) else s;
          Effect(db, session, Ok(p), [call])
  }

  /** The reply to a logout. */
  const LogoutPayload := JObj(map["success" := JBool(true)])

  /** GET /logout (server/index.js:135-143): always answers `{success: true}`,
      unbinds the session and writes `loggedIn`, a field no handler reads;
      `isLoggedIn` keeps its value. */
  function Logout(db: Directory, s: SessionState): (e: Effect)
    ensures e.db == db && e.calls == [] && e.reply == Ok(LogoutPayload)
    ensures e.session.name == None && e.session.loggedIn == Some(false)
    ensures e.session.isLoggedIn == s.isLoggedIn
  {
    Effect(db, s.(loggedIn := Some(false), name := None), Ok(LogoutPayload), [])
  }

  /** A session that authenticated stays `isLoggedIn` after logging out,
      while no longer bound to any name. */
  lemma LogoutKeepsLogin(config: Config, db: Directory, s: SessionState, body: Json, answer: Answer)
    requires RequestBody(body) && Routable(db, s.name) && LoginConfirmed(answer)
    ensures var e := AuthComplete(config, db, s, body, answer);
      var out := Logout(e.db, e.session);
      out.session.isLoggedIn == Some(true) && out.session.name == None
  {
  }

  /** A session bound to no name resolves to the record stored under the key
      "undefined": the complete steps are refused exactly when no one has
      registered that name, and otherwise act on that user's endpoints. */
  lemma UnboundSession(config: Config, db: Directory, s: SessionState, body: Json, answer: Answer)
    requires RequestBody(body) && s.name == None
    ensures var rc := RegisterComplete(config, db, s, body, answer);
      var ac := AuthComplete(config, db, s, body, answer);
      && (rc.reply == BadRequest(NoUserMessage) <==> "undefined" !in db)
      && (ac.reply == BadRequest(RegisterFirstMessage) <==> "undefined" !in db)
      && ("undefined" in db && PrintableValue(db["undefined"].skUserId) ==>
            && rc.calls == [RequestFor(config, Endpoint(db["undefined"].skUserId, RegisterCompleteOp), Some(body))]
            && ac.calls == [RequestFor(config, Endpoint(db["undefined"].skUserId, AuthCompleteOp), Some(body))])
  {
    assert ToJsString(s.name) == "undefined";
  }

  /** Registering "alice": the service provisions "u1" and issues challenge
      "c1", which is relayed; a second registration skips provisioning and
      asks for a challenge for "u1" again. */
  lemma AliceRegistersTwice(config: Config, s: SessionState, provision2: Answer, initiate2: Answer)
    ensures var body := JObj(map["name" := JStr("alice")]);
      var challenge := JObj(map["challenge" := JStr("c1")]);
      var e := RegisterInitiate(config, map[], s, body,
                                Success(JObj(map["userId" := JStr("u1")])), Success(challenge));
      var e2 := RegisterInitiate(config, e.db, e.session, body, provision2, initiate2);
      && e.reply == Ok(challenge)
      && e.db == map["alice" := UserRecord(JStr("alice"), Some(JStr("u1")))]
      && e.calls == [ProvisionRequest(config, Some(JStr("alice"))),
                     RequestFor(config, Endpoint(Some(JStr("u1")), RegisterInitiateOp), None)]
      && e2.db == e.db
      && e2.calls == [RequestFor(config, Endpoint(Some(JStr("u1")), RegisterInitiateOp), None)]
  {
    var body := JObj(map["name" := JStr("alice")]);
    var name := Some(JStr("alice"));
    var id := Some(JStr("u1"));
    var challenge := JObj(map["challenge" := JStr("c1")]);
    var reply := JObj(map["userId" := JStr("u1")]);
    assert Field(body, "name") == name && ToJsString(name) == "alice";
    assert Field(reply, "userId") == id;
    var created := GetOrCreate(map[], JStr("alice"));
    assert created == map["alice" := UserRecord(JStr("alice"), None)];
    var stored := created["alice" := UserRecord(JStr("alice"), id)];
    var e := RegisterInitiate(config, map[], s, body, Success(reply), Success(challenge));
    assert e == Effect(stored, Bind(s, name), Ok(challenge),
                       [ProvisionRequest(config, name), ChallengeRequest(config, stored, "alice")]);
    assert Provisioned(stored["alice"]);
  }
}
