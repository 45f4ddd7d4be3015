/**
 * The route handlers as the server runs them: the directory is a field of
 * the relying-party object that handlers update in place, and each request
 * carries a mutable session object whose fields they assign one by one.
 * Every handler is proved to do exactly what its function in `Ceremony`
 * describes, so the properties proved there hold of these methods.
 */
module Server {
  import opened Wrappers
  import opened Js
  import opened Api
  import opened Ceremony

  /** A client's session object (`req.session`). */
  class Session {
    var name: Value
    var isLoggedIn: Option<bool>
    var loggedIn: Option<bool>

    /** The session of a client on first contact: no field set. */
    constructor ()
      ensures State() == NewSession
    {
      name, isLoggedIn, loggedIn := None, None, None;
    }

    function State(): SessionState
      reads this
    {
      SessionState(name, isLoggedIn, loggedIn)
    }
  }

  /** The relying party: its configuration and its user directory. */
  class RelyingParty {
    const config: Config
    var db: Directory

    /** A freshly started process has an empty directory. */
    constructor (config: Config)
      ensures this.config == config && db == map[]
    {
      this.config := config;
      db := map[];
    }

    /** POST /register/initiate. */
    method RegisterInitiate(session: Session, body: Json, provision: Answer, initiate: Answer)
      returns (reply: Reply, calls: seq<ApiRequest>)
      requires RequestBody(body)
      modifies this, session
      ensures var e := Ceremony.RegisterInitiate(config, old(db), old(session.State()), body, provision, initiate);
        db == e.db && session.State() == e.session && reply == e.reply && calls == e.calls
    {
      var name := Field(body, "name");
      if !Truthy(name) {
        return BadRequest(EmptyNameMessage), [];
      }
      session.isLoggedIn := Some(false);
      session.name := name;

      if !PrintableValue(name) {
        // `db[name]` throws outside the `try`: no response is sent
        return NoResponse, [];
      }
      var key := ToJsString(name);
      if key !in db {
        db := db[key := UserRecord(name.value, None)];
      }

      calls := [];
      if !Provisioned(db[key]) {
        var request := BuildRequest(config, ProvisionPath, Some(Singleton("name", name)));
        calls := calls + [request];
        match provision {
          case Failure(f) =>
            return Upstream(f), calls;
          case Success(parsed) =>
            if parsed.JNull? {
              return Upstream(NullProperty("userId")), calls;
            }
            db := db[key := db[key].(skUserId := Field(parsed, "userId"))];
        }
      }

      if !PrintableValue(db[key].skUserId) {
        return Upstream(NotPrimitive), calls;
      }
      var request := BuildRequest(config, Endpoint(db[key].skUserId, RegisterInitiateOp), None);
      calls := calls + [request];
      reply := Relay(initiate);
    }

    /** POST /register/complete; changes no state. */
    method RegisterComplete(session: Session, body: Json, answer: Answer)
      returns (reply: Reply, calls: seq<ApiRequest>)
      requires RequestBody(body)
      ensures var e := Ceremony.RegisterComplete(config, db, session.State(), body, answer);
        reply == e.reply && calls == e.calls
    {
      if !PrintableValue(session.name) {
        return NoResponse, [];
      }
      var key := ToJsString(session.name);
      if key !in db {
        return BadRequest(NoUserMessage), [];
      }
      if !PrintableValue(db[key].skUserId) {
        return Upstream(NotPrimitive), [];
      }
      var request := BuildRequest(config, Endpoint(db[key].skUserId, RegisterCompleteOp), Some(body));
      calls := [request];
      reply := Relay(answer);
    }

    /** POST /auth/initiate; leaves the directory alone. */
    method AuthInitiate(session: Session, body: Json, answer: Answer)
      returns (reply: Reply, calls: seq<ApiRequest>)
      requires RequestBody(body)
      modifies session
      ensures var e := Ceremony.AuthInitiate(config, db, old(session.State()), body, answer);
        session.State() == e.session && reply == e.reply && calls == e.calls
    {
      var name := Field(body, "name");
      if !PrintableValue(name) {
        return NoResponse, [];
      }
      var key := ToJsString(name);
      if key !in db {
        return BadRequest(RegisterFirstMessage), [];
      }
      session.isLoggedIn := Some(false);
      session.name := name;

      if !PrintableValue(db[key].skUserId) {
        return Upstream(NotPrimitive), [];
      }
      var request := BuildRequest(config, Endpoint(db[key].skUserId, AuthInitiateOp), Some(Singleton("name", name)));
      calls := [request];
      reply := Relay(answer);
    }

    /** POST /auth/complete; leaves the directory alone. */
    method AuthComplete(session: Session, body: Json, answer: Answer)
      returns (reply: Reply, calls: seq<ApiRequest>)
      requires RequestBody(body)
      modifies session
      ensures var e := Ceremony.AuthComplete(config, db, old(session.State()), body, answer);
        session.State() == e.session && reply == e.reply && calls == e.calls
    {
      if !PrintableValue(session.name) {
        return NoResponse, [];
      }
      var key := ToJsString(session.name);
      if key !in db {
        return BadRequest(RegisterFirstMessage), [];
      }
      if !PrintableValue(db[key].skUserId) {
        return Upstream(NotPrimitive), [];
      }
      var request := BuildRequest(config, Endpoint(db[key].skUserId, AuthCompleteOp), Some(body));
      calls := [request];
      match answer {
        case Failure(f) =>
          reply := Upstream(f);
        case Success(parsed) =>
          if parsed.JNull? {
            reply := Upstream(NullProperty("success"));
          } else {
            if Truthy(Field(parsed, "success")) {
              session.isLoggedIn := Some(true);
            }
            reply := Ok(parsed);
          }
      }
    }

    /** GET /logout; leaves the directory alone. */
    method Logout(session: Session) returns (reply: Reply)
      modifies session
      ensures var e := Ceremony.Logout(db, old(session.State()));
        session.State() == e.session && reply == e.reply
    {
      session.loggedIn := Some(false);
      session.name := None;
      reply := Ok(LogoutPayload);
    }
  }
}
