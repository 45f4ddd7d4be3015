# WebAuthn relying party: ceremony state machine

This project models the relying party of the Singular Key WebAuthn demo
(`server/index.js`). The relying party keeps an in-memory user directory `db`
and one cookie session per browser. It serves five routes:

- register/initiate, register/complete, auth/initiate and auth/complete each
  check a guard, update `db` and/or the session, call the remote FIDO2
  credential service, and relay its answer;
- logout unbinds the session.

The model proves which guard refuses a request and what each route changes
before and after its remote call. It proves that `db` only grows, and that a
service user id (`skUserId`), once a truthy one is stored, never changes.
It proves that `isLoggedIn` becomes true only when the service confirms an
assertion.

Layout, one module per file:

- `wrappers.dfy`: `Option` (with `None` for JavaScript's `undefined`) and `Result`.
- `js.dfy`: the JavaScript value semantics the routes rely on. It covers JSON
  values, truthiness, and the string coercion that both `${x}` and `db[x]`
  apply (an absent name is the key `"undefined"`; a number is its decimal
  text). That conversion throws for an object with its own `toString` field,
  which JSON can produce. It also covers reading a field and the `{name}`
  object literal.
- `api.dfy`: the credential-service client (`singularKeyAPICall`): the
  endpoint paths, the request options (a body is attached exactly when the
  given one is truthy), and the ways a call fails.
- `ceremony.dfy`: one pure function per route. Each gives the new directory,
  the new session, the reply and the requests sent to the service. The
  properties of each route are its `ensures` clauses and the lemmas beside it.
- `trace.dfy`: runs of many requests from many clients against the shared
  directory, with inductive lemmas over whole runs.
- `server.dfy`: the routes as the server runs them. `RelyingParty` holds
  `db` and updates it in place. A `Session` object holds the session fields
  that the routes assign one at a time. Each method is proved equal in
  effect to its function in `Ceremony`.

The remote service is not modelled. Each route takes the outcome of each call
it may make as a parameter (`Answer = Result<Json, Fault>`). A response that
`JSON.parse` rejects is the fault `Unparsable`. A route that reads `userId`
or `success` from a response that parsed to `null` throws a `TypeError`; the
route relays that as `NullProperty`. A name or id whose string conversion
throws gives `NotPrimitive` when it happens inside a route's `try`, and
`NoResponse` (nothing is sent) when it happens at a `db[name]` lookup outside
it. A session changed by a route that sends no response is not saved, because
the session cookie is written with the response. This reading of a throw
outside a `try` assumes Express 4 on a Node.js that only reports an unhandled
rejection (see "Left out").

Behaviour of the code worth knowing, while no request has named a member
that every object inherits (see "Left out"):

- Logout does not clear the login flag. It writes `loggedIn`, a field no route
  reads, so `isLoggedIn` keeps its value (`Ceremony.LogoutKeepsLogin`). A
  session can therefore stay `isLoggedIn` while bound to no user, or to a user
  whose service id was never stored.
- A session bound to no name is refused by the complete steps only when no
  record is stored under `"undefined"`. Once anyone registers that name, the
  complete steps act on that user (`Ceremony.UnboundSession`).
- A name is converted to a string before it is used as a key, so the name
  `["alice"]` reaches the record of `"alice"` (`Js.SingletonArrayKey`).
- auth/initiate accepts any name with a record, provisioned or not. For a
  user whose id was never stored the endpoint is `/users/undefined/...`
  (`Api.UnprovisionedEndpoint`). A falsy id read from an answer
  (`userId: null`, `""` or `0`) is stored as it is and gives `/users/null/...`,
  `/users//...` or `/users/0/...`.
- A service id can be set more than once. Provisioning is retried whenever the
  stored id is falsy, for example after an answer without `userId`. Once the
  stored id is truthy, it never changes again (`Trace.RunGrows`).

## Model

| member | source | states |
|---|---|---|
| `Js.Truthy` | server/index.js:17 | the falsy values are exactly `undefined`, `null`, `false`, `0` and `""`; every other value, including every array and object, is truthy |
| `Js.Printable` | server/index.js:26 | `null`, booleans, numbers and strings always convert to a string; only objects and arrays can make the conversion throw |
| `Js.ToJsString` | server/index.js:46 | `undefined` converts to "undefined", a string to itself and a number to its decimal text |
| `Js.JsonString` | server/index.js:26 | an object without its own `toString` converts to "[object Object]"; a one-element array converts like its non-null element; an array's text is at least as long as the number of separators between its elements |
| `Js.Join` | server/index.js:26 | joining no elements gives ""; a single element gives its text, or "" for `null`; the text is at least as long as the separators between the elements |
| `Js.Field` | server/index.js:16 | a field read on a non-null value is defined exactly for an object that has the key, and gives that key's value |
| `Js.Singleton` | server/index.js:34 | the literal `{name}` is a truthy object whose `name` reads back the given value; an undefined value leaves no field |
| `Js.NumberStringInjective` | server/index.js:26 | two integers coerced to property keys collide only when they are equal |
| `Js.DigitsRoundTrip` | server/index.js:26 | the decimal text of a natural number reads back as that number |
| `Js.DigitsInjective` | server/index.js:26 | two natural numbers with the same decimal text are equal |
| `Js.ConversionThrows` | server/index.js:26 | an object with its own `toString` field cannot be converted to a key; an object without it converts to "[object Object]" |
| `Js.ArrayThrows` | server/index.js:26 | an array with an element that cannot be converted, at any position, cannot be converted either |
| `Js.SingletonArrayKey` | server/index.js:26 | a one-element array holding a string is the same key as that string |
| `Js.KeyCoercion` | server/index.js:63-65 | `undefined` and `"undefined"` name the same key, as do `null` and `"null"` and a boolean and its name |
| `Js.NumberString` | server/index.js:26 | a number's text is non-empty and starts with a digit exactly when the number is not negative |
| `Api.Endpoint` | server/index.js:46 | for an id that converts, the endpoint is `/users/`, the id as text, `/credentials/fido2/` and the operation, in that order and nothing else |
| `Api.EndpointInjective` | server/index.js:71 | two calls of one operation reach the same endpoint exactly when their ids read the same as text |
| `Api.ProvisionPathIsNoEndpoint` | server/index.js:34 | the provisioning path `/users` is never a FIDO2 endpoint |
| `Api.UnprovisionedEndpoint` | server/index.js:99 | an id that was never stored is interpolated as `undefined` in the endpoint |
| `Api.RequestFor` | server/index.js:148-161 | a request is a POST to base URL plus path, with the JSON content type and the API key, and it carries a body exactly when the given body is truthy |
| `Api.BuildRequest` | server/index.js:149-159 | building the options step by step gives that request, with a body exactly when the given body is truthy |
| `Ceremony.Bind` | server/index.js:22-23 | an initiate step binds the session to the name, not logged in, and touches no other field |
| `Ceremony.Relay` | server/index.js:45-52 | a service answer becomes a 200 with that exact payload; a failure becomes a 400 relaying that exact fault |
| `Ceremony.GetOrCreate` | server/index.js:26-28 | the directory gains the name's key with the record `{name}` only when the key is new; every existing record is kept as is |
| `Ceremony.RegisterInitiate` | server/index.js:12-54 | refused with "Name field cannot be empty" exactly when the name is falsy, and then nothing changes and no call is made. Otherwise the session is bound whatever happens next. A name that cannot be converted to a key throws at the lookup: no response, no call, `db` unchanged. For any other name, the directory gains at most the name's key and keeps all other entries. The record keeps its name. Its id becomes the `userId` of a readable provisioning answer when provisioning was needed, and is otherwise kept. At most two calls are made |
| `Ceremony.RegisterInitiateCalls` | server/index.js:30-52 | the first call is provisioning exactly when the name's record has no truthy id. A failed or `null` provisioning answer is relayed and ends the route. Otherwise the challenge is requested for the id now stored, and its answer relayed; an id that cannot be interpolated gives a 400 with no challenge call. Only then can the reply be a 200 |
| `Ceremony.ReRegisterReusesId` | server/index.js:32-46 | after a provisioning answer with a truthy `userId`, that id is stored; a second valid register/initiate for the same key makes no provisioning call, leaves `db` unchanged and requests the challenge at the same endpoint as the first |
| `Ceremony.AliceRegistersTwice` | server/index.js:26-48 | registering "alice" stores id "u1", relays challenge "c1", and a second registration calls only the register/initiate endpoint of "u1" |
| `Ceremony.RegisterComplete` | server/index.js:60-78 | never changes `db` or the session. A session name that cannot be a key throws (no response). Refused with "User not found" and no call exactly when the name has no record. An id that cannot be interpolated gives a 400 with no call. Otherwise the body is forwarded to that user's register/complete endpoint and the answer relayed |
| `Ceremony.AuthInitiate` | server/index.js:83-106 | never changes `db`. A name that cannot be a key throws before anything changes (no response). A name without a record is refused with nothing changed and no call. Otherwise the session is bound to the name, not logged in, even for an unprovisioned record, and `{name}` is sent to the auth/initiate endpoint |
| `Ceremony.AuthComplete` | server/index.js:111-133 | never changes `db`. `isLoggedIn` becomes true exactly when the session's user is reached and the service confirms with a truthy `success`, and nothing else in the session changes. A readable answer is relayed with a 200 whatever its `success`; a failure is relayed; a `null` answer gives a 400 for reading `success`. Unknown users are refused before any call |
| `Ceremony.Logout` | server/index.js:135-143 | always replies `{success: true}`, never changes `db` and makes no call; unbinds the name and sets `loggedIn` to false, leaving `isLoggedIn` as it was |
| `Ceremony.LogoutKeepsLogin` | server/index.js:139-140 | a session logged in by auth/complete is still `isLoggedIn` after logout while bound to no name |
| `Ceremony.UnboundSession` | server/index.js:115-117 | an unbound session's complete steps are refused exactly when no record is stored under "undefined", and otherwise call that record's endpoints |
| `Trace.Step` | app.js:13 | one request changes `db` as its route does; the requesting client's saved session becomes the route's new session only when a response is sent, and every other client's session is unchanged |
| `Trace.Run` | server/index.js:7 | handling requests one after another against the single directory gives a session only to clients that sent a request |
| `Trace.RunPrefix` | server/index.js:7 | running the first `j + 1` requests is the first request followed by the next `j` |
| `Trace.StepGrows` | server/index.js:26-36 | no route removes a key, renames a record or changes a provisioned record |
| `Trace.RunGrows` | server/index.js:7 | over any run of requests from any clients, `db` only grows and a truthy `skUserId` never changes |
| `Trace.LoginNeedsConfirmation` | server/index.js:125-127 | over any run, a client's session becomes `isLoggedIn` only through an auth/complete of that client that the service confirmed, handled at a point of the run where that session's user had a record whose service id could be interpolated into an endpoint |
| `Trace.SessionIsolation` | app.js:13 | a run with no request from a client leaves that client's session as it was |
| `Trace.RunKeepsNamesPrintable` | server/index.js:22-26 | over any run, no saved session holds a name that cannot be a key, so the complete steps never throw at their lookup |
| `Trace.RegisteredStaysKnown` | server/index.js:89-91 | once a name has a record, auth/initiate for it is never refused again |
| `Server.Session.constructor` | app.js:13 | a new client's session has no field set |
| `Server.RelyingParty.constructor` | server/index.js:7 | the process starts with an empty directory |
| `Server.RelyingParty.RegisterInitiate` | server/index.js:12-54 | updating the session, then `db`, then calling the service gives exactly the effect of `Ceremony.RegisterInitiate` |
| `Server.RelyingParty.RegisterComplete` | server/index.js:60-78 | the reply and calls are those of `Ceremony.RegisterComplete`, and no state changes |
| `Server.RelyingParty.AuthInitiate` | server/index.js:83-106 | the new session, reply and calls are those of `Ceremony.AuthInitiate`, and `db` is untouched |
| `Server.RelyingParty.AuthComplete` | server/index.js:111-133 | the new session, reply and calls are those of `Ceremony.AuthComplete`, and `db` is untouched |
| `Server.RelyingParty.Logout` | server/index.js:135-143 | the new session and reply are those of `Ceremony.Logout`, and `db` is untouched |

## Left out

- HTTP plumbing: Express routing, `console.log`, and rendering a reply as a status with a JSON body. A reply is the tagged value `Ok`, `BadRequest` or `Upstream`.
- The network call made by `request-promise`, and its status handling. Each outcome is a parameter.
- `JSON.stringify` of request bodies and `JSON.parse` of responses are not modelled as text. A parse failure is the fault `Unparsable`. What a relayed error object serialises to is not modelled.
- Interleaving across `await`s: each route runs as one atomic step, so two register/initiate calls for one name cannot race past the provisioning check.
- The routes are `async` handlers under Express 4. A throw outside a `try` is taken to be an unhandled promise rejection that is only reported: the process keeps running, `db` is unchanged, and no response or cookie is sent. On Node.js 15 or later the process would exit instead, losing `db` and every session, because the cookie keys are random per start. Under Express 5 a 500 would be sent and the session saved. Neither outcome is modelled.
- app.js: the Express, cookie-session and static-file wiring, the random cookie keys and `app.listen`. Sessions appear only as one state per client. The cookie's JSON encoding is not modelled.
- Configuration (base URL, API key, port) is the parameter `Config`. The config file is not part of this model.
- The directory is a plain map. In the source it is an object literal, so a name that names an inherited `Object.prototype` member (`constructor`, `toString`, `__proto__`, ...) reads that member, and the model does not capture what follows. The damage reaches other users:
  - register/initiate with the name `"__proto__"` finds `Object.prototype`, which is truthy, so no record is created (server/index.js:26). Storing the id (:36) then writes `skUserId` onto `Object.prototype`.
  - From then on, every record without an id of its own reads that inherited id (:32, :46, :71, :99, :123). That includes every `{name}` record created later (:27). Those users are never provisioned and all share the service id of the `"__proto__"` registration.
  - A name never registered but inherited, such as `"toString"` or `"hasOwnProperty"`, reads a function, which is truthy. It therefore passes every `!db[name]` guard (:65, :89, :117).
  - Once such a name has been used, the behaviour bullets above on `/users/undefined/...` and on retried provisioning no longer hold in the source.
- JSON numbers are exact integers in this model. Fractions and the exponent form JavaScript prints for very large numbers are not modelled. Nor is the rounding `JSON.parse` applies beyond 2^53, so two such integers that are one key in the source are two keys here.
- Js.NumberStringInjective: holds for exact integers only; with the rounding above, two distinct large integers can give the same key in the source.
