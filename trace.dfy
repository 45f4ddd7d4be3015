/**
 * Runs of the relying party: a sequence of requests from many clients,
 * each handled atomically against the shared directory and the requesting
 * client's own session. The lemmas state what holds over any run.
 */
module Trace {
  import opened Wrappers
  import opened Js
  import opened Api
  import opened Ceremony

  /** One inbound request, with the outcomes of the calls its handler may make. */
  datatype Request =
    | RegisterInitiateReq(body: Json, provision: Answer, initiate: Answer)
    | RegisterCompleteReq(body: Json, answer: Answer)
    | AuthInitiateReq(body: Json, answer: Answer)
    | AuthCompleteReq(body: Json, answer: Answer)
    | LogoutReq

  /** Every request body went through `bodyParser.json()`. */
  predicate WellFormed(r: Request) {
    !r.LogoutReq? ==> RequestBody(r.body)
  }

  type ClientId = nat

  datatype Event = Event(client: ClientId, request: Request)

  predicate WellFormedRun(events: seq<Event>) {
    forall i :: 0 <= i < |events| ==> WellFormed(events[i].request)
  }

  /** The clients that send a request in `events`. */
  function Clients(events: seq<Event>): set<ClientId> {
    set i | 0 <= i < |events| :: events[i].client
  }

  /** The process state: the directory and every client's session. */
  datatype World = World(db: Directory, sessions: map<ClientId, SessionState>)

  /** The session a client presents: its stored one, or a new one. */
  function SessionOf(w: World, c: ClientId): SessionState {
    if c in w.sessions then w.sessions[c] else NewSession
  }

  /** Routes a request to its handler. */
  function Handle(config: Config, db: Directory, s: SessionState, r: Request): Effect
    requires WellFormed(r)
  {
    match r
    case RegisterInitiateReq(body, provision, initiate) => RegisterInitiate(config, db, s, body, provision, initiate)
    case RegisterCompleteReq(body, answer) => RegisterComplete(config, db, s, body, answer)
    case AuthInitiateReq(body, answer) => AuthInitiate(config, db, s, body, answer)
    case AuthCompleteReq(body, answer) => AuthComplete(config, db, s, body, answer)
    case LogoutReq => Logout(db, s)
  }

  /** The world after one event. The session cookie is written with the
      response headers, so a handler that sends no response leaves the
      client's stored session as it was. */
  function Step(config: Config, w: World, ev: Event): (w': World)
    requires WellFormed(ev.request)
    ensures w'.db == Handle(config, w.db, SessionOf(w, ev.client), ev.request).db
    ensures SessionOf(w', ev.client) ==
      (var e := Handle(config, w.db, SessionOf(w, ev.client), ev.request);
       if e.reply == NoResponse then SessionOf(w, ev.client) else e.session)
    ensures forall c :: c != ev.client ==> SessionOf(w', c) == SessionOf(w, c)
  {
    var e := Handle(config, w.db, SessionOf(w, ev.client), ev.request);
    if e.reply == NoResponse then World(e.db, w.sessions)
    else World(e.db, w.sessions[ev.client := e.session])
  }

  /** The world after a run of events, in order. */
  function Run(config: Config, w: World, events: seq<Event>): (w': World)
    requires WellFormedRun(events)
    ensures w'.sessions.Keys <= w.sessions.Keys + Clients(events)
    decreases |events|
  {
    if events == [] then w
    else Run(config, Step(config, w, events[0]), events[1..])
  }

  /** `db` never loses a key, never renames a record, and never changes a
      record that has a service id: an id is provisioned at most once. */
  predicate Grows(db: Directory, db': Directory) {
    forall k :: k in db ==>
      && k in db'
      && db'[k].name == db[k].name
      && (Provisioned(db[k]) ==> db'[k] == db[k])
  }

  lemma StepGrows(config: Config, db: Directory, s: SessionState, r: Request)
    requires WellFormed(r)
    ensures Grows(db, Handle(config, db, s, r).db)
  {
  }

  lemma {:induction false} RunGrows(config: Config, w: World, events: seq<Event>)
    requires WellFormedRun(events)
    ensures Grows(w.db, Run(config, w, events).db)
    decreases |events|
  {
    if events != [] {
      var w1 := Step(config, w, events[0]);
      StepGrows(config, w.db, SessionOf(w, events[0].client), events[0].request);
      RunGrows(config, w1, events[1..]);
    }
  }

  /** A request whose handler marks the session logged in. */
  predicate Authenticates(r: Request) {
    r.AuthCompleteReq? && LoginConfirmed(r.answer)
  }

  /** Running a prefix of `j + 1` events is the first step followed by the
      next `j` events. */
  lemma RunPrefix(config: Config, w: World, events: seq<Event>, j: nat)
    requires WellFormedRun(events)
    requires j < |events|
    ensures WellFormedRun(events[..j + 1]) && WellFormedRun(events[1..][..j])
    ensures Run(config, w, events[..j + 1]) == Run(config, Step(config, w, events[0]), events[1..][..j])
  {
    assert events[..j + 1][0] == events[0];
    assert events[..j + 1][1..] == events[1..][..j];
  }

  /** Over any run, a client's session becomes `isLoggedIn` only through an
      auth/complete of that client that the service confirmed, handled at a
      point of the run where the session's user had a record. */
  lemma {:induction false} LoginNeedsConfirmation(config: Config, w: World, events: seq<Event>, c: ClientId)
    requires WellFormedRun(events)
    requires SessionOf(w, c).isLoggedIn != Some(true)
    requires SessionOf(Run(config, w, events), c).isLoggedIn == Some(true)
    ensures exists i ::
      && 0 <= i < |events|
      && events[i].client == c
      && Authenticates(events[i].request)
      && WellFormedRun(events[..i])
      && Routable(Run(config, w, events[..i]).db, SessionOf(Run(config, w, events[..i]), c).name)
    decreases |events|
  {
    var w1 := Step(config, w, events[0]);
    if SessionOf(w1, c).isLoggedIn == Some(true) {
      assert events[..0] == [];
      assert events[0].client == c && Authenticates(events[0].request);
    } else {
      LoginNeedsConfirmation(config, w1, events[1..], c);
      var i :| && 0 <= i < |events[1..]|
               && events[1..][i].client == c
               && Authenticates(events[1..][i].request)
               && WellFormedRun(events[1..][..i])
               && Routable(Run(config, w1, events[1..][..i]).db, SessionOf(Run(config, w1, events[1..][..i]), c).name);
      RunPrefix(config, w, events, i);
      assert events[i + 1] == events[1..][i];
    }
  }

  /** Sessions are isolated: a run with no request from client `c` leaves
      `c`'s session as it was. */
  lemma {:induction false} SessionIsolation(config: Config, w: World, events: seq<Event>, c: ClientId)
    requires WellFormedRun(events)
    requires forall i :: 0 <= i < |events| ==> events[i].client != c
    ensures SessionOf(Run(config, w, events), c) == SessionOf(w, c)
    decreases |events|
  {
    if events != [] {
      var w1 := Step(config, w, events[0]);
      assert SessionOf(w1, c) == SessionOf(w, c);
      SessionIsolation(config, w1, events[1..], c);
    }
  }

  /** Once a name has a record, auth/initiate for it is never again refused,
      whatever happens in between. */
  lemma {:induction false} RegisteredStaysKnown(
    config: Config, w: World, events: seq<Event>, s: SessionState, body: Json, answer: Answer)
    requires WellFormedRun(events) && RequestBody(body)
    requires Resolves(w.db, Field(body, "name"))
    ensures AuthInitiate(config, Run(config, w, events).db, s, body, answer).reply != BadRequest(RegisterFirstMessage)
  {
    RunGrows(config, w, events);
  }

  /** Every stored session's name converts to a key. */
  predicate NamesPrintable(w: World) {
    forall c :: c in w.sessions ==> PrintableValue(w.sessions[c].name)
  }

  /** No stored session ever holds a name that cannot be a key: a handler
      binds such a name only on its way to throwing, and then no session is
      saved. So the complete steps never throw at their lookup over a run. */
  lemma {:induction false} RunKeepsNamesPrintable(config: Config, w: World, events: seq<Event>)
    requires WellFormedRun(events) && NamesPrintable(w)
    ensures NamesPrintable(Run(config, w, events))
    decreases |events|
  {
    if events != [] {
      var ev := events[0];
      RunKeepsNamesPrintable(config, Step(config, w, ev), events[1..]);
    }
  }
}
