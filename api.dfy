/**
 * The client of the remote FIDO credential service (`singularKeyAPICall`).
 * The network call itself is not modelled: a handler receives the call's
 * outcome as a parameter. What is modelled is the request the relying party
 * builds, its endpoint paths, and the ways a call can fail.
 */
module Api {
  import opened Wrappers
  import opened Js

  /** External configuration: the service's base URL and its API key. */
  datatype Config = Config(baseUrl: string, apiKey: string)

  /** The `options` object handed to the HTTP client. */
  datatype ApiRequest = ApiRequest(
    verb: string,
    uri: string,
    headers: map<string, string>,
    body: Option<Json>)

  /** Why a call produced no parsed response, relayed to the browser as a 400. */
  datatype Fault =
    | Rejected(statusCode: int, message: string) // transport failure or non-2xx status
    | Unparsable(text: string)                  // `JSON.parse` threw on the response text
    | NullProperty(key: string)                 // the response parsed to `null` and a field of it was read
    | NotPrimitive                              // a value whose string conversion throws was interpolated

  /** The outcome of one call to the service, already parsed. */
  type Answer = Result<Json, Fault>

  const ProvisionPath := "/users"
  const RegisterInitiateOp := "register/initiate"
  const RegisterCompleteOp := "register/complete"
  const AuthInitiateOp := "auth/initiate"
  const AuthCompleteOp := "auth/complete"

  const UsersPrefix := "/users/"
  const Fido2Infix := "/credentials/fido2/"

  /** The FIDO2 endpoint of operation `op` for the service-side user `skUserId`.
      An unset identifier is interpolated as the text "undefined". */
  function Endpoint(skUserId: Value, op: string): (path: string)
    requires PrintableValue(skUserId)
    ensures |path| == |UsersPrefix| + |ToJsString(skUserId)| + |Fido2Infix| + |op|
    ensures path[..|UsersPrefix|] == UsersPrefix
    ensures path[|UsersPrefix|..|UsersPrefix| + |ToJsString(skUserId)|] == ToJsString(skUserId)
    ensures path[|UsersPrefix| + |ToJsString(skUserId)|..|path| - |op|] == Fido2Infix
    ensures path[|path| - |op|..] == op
  {
    UsersPrefix + ToJsString(skUserId) + Fido2Infix + op
  }

  /** Two calls of the same operation reach the same endpoint exactly when
      the two identifiers read the same as text. */
  lemma EndpointInjective(a: Value, b: Value, op: string)
    requires PrintableValue(a) && PrintableValue(b)
    ensures Endpoint(a, op) == Endpoint(b, op) <==> ToJsString(a) == ToJsString(b)
  {
    if Endpoint(a, op) == Endpoint(b, op) {
      var p := Endpoint(a, op);
      assert ToJsString(a) == p[|UsersPrefix|..|UsersPrefix| + |ToJsString(a)|];
    }
  }

  /** The provisioning path and every FIDO2 endpoint are distinct. */
  lemma ProvisionPathIsNoEndpoint(skUserId: Value, op: string)
    requires PrintableValue(skUserId)
    ensures Endpoint(skUserId, op) != ProvisionPath
  {
    assert |Endpoint(skUserId, op)| > |ProvisionPath|;
  }

  /** The endpoint of a user for whom no id was ever stored names the user
      "undefined". */
  lemma UnprovisionedEndpoint(op: string)
    ensures Endpoint(None, op) == "/users/undefined/credentials/fido2/" + op
  {
  }

  /** The request options for a call to `path` (`singularKeyAPICall`): always a
      POST to the base URL followed by the path with the JSON content type and
      the API key, and a body attached exactly when the given one is truthy. */
  function RequestFor(config: Config, path: string, body: Value): (r: ApiRequest)
    ensures r.verb == "POST" && r.uri == config.baseUrl + path
    ensures r.headers.Keys == {"Content-type", "X-SK-API-KEY"}
    ensures r.headers["Content-type"] == "application/json"
    ensures r.headers["X-SK-API-KEY"] == config.apiKey
    ensures r.body.Some? <==> Truthy(body)
    ensures r.body.Some? ==> r.body == body
  {
    var headers := map["Content-type" := "application/json", "X-SK-API-KEY" := config.apiKey];
    ApiRequest("POST", config.baseUrl + path, headers, if Truthy(body) then body else None)
  }

  /** Builds the request options step by step, as the client does: the fixed
      part first, then the body only when one is supplied. */
  method BuildRequest(config: Config, path: string, body: Value) returns (options: ApiRequest)
    ensures options == RequestFor(config, path, body)
    ensures options.body.Some? <==> Truthy(body)
  {
    options := ApiRequest(
      "POST",
      config.baseUrl + path,
      map["Content-type" := "application/json", "X-SK-API-KEY" := config.apiKey],
      None);
    if Truthy(body) {
      options := options.(body := body);
    }
  }
}
