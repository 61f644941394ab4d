/** The wire vocabulary the client exchanges with the configuration service:
    JSON values, response bodies, responses, and the two requests it sends. */
module Http {
  import opened Wrappers

  /** A decoded JSON value. Numbers are integers in this model. */
  datatype Json =
    | JNull
    | JBool(b: bool)
    | JNumber(n: int)
    | JString(s: string)
    | JArray(items: seq<Json>)
    | JObject(members: map<string, Json>)

  /** A response body: structured JSON, or text that is not JSON. */
  datatype Body = JsonBody(json: Json) | TextBody(text: string)

  datatype Response = Response(status: int, body: Body)

  /** The requests the client issues. */
  datatype Request =
      /** `POST <host>/token`, carrying the client's identity. */
    | TokenRequest(host: string, clientId: string, sharedKey: string)
      /** `GET <host><target>` with the bearer token attached. */
    | ConfigRequest(host: string, target: string, bearer: string)

  /** The transport: the reply the service gives to a request, or None when
      no reply arrives at all. */
  type Transport = Request -> Option<Response>
}
