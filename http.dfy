/** The request records the core hands to the HTTP transport, and what the
    transport gives back. The transport itself is not modelled. */
module Http {
  import opened JsonValues

  /** The `suppaApi` credentials: `baseUrl` ends with a slash. */
  datatype Credentials = Credentials(baseUrl: string, apiKey: string)

  datatype Method = GET | POST | PUT | DELETE

  /** No body, an object the transport serialises, or text already
      serialised by the caller. */
  datatype Body = NoBody | JsonBody(value: Json) | TextBody(text: string)

  datatype Request = Request(verb: Method, url: string, headers: map<string, string>, body: Body)

  /** A value thrown or rejected with: an Error with its message, or any
      other value (`null`, `undefined`, a string, a plain object …). */
  datatype Thrown = ErrorObject(message: string) | NonError(value: Json)

  /** The settled outcome of `httpRequest`. */
  datatype Response = Resolved(value: Json) | Rejected(reason: Thrown)

  function AuthHeaders(creds: Credentials): (h: map<string, string>)
    ensures h.Keys == {"Authorization"}
    ensures h["Authorization"] == "Bearer " + creds.apiKey
  {
    map["Authorization" := "Bearer " + creds.apiKey]
  }

  function JsonHeaders(creds: Credentials): (h: map<string, string>)
    ensures h.Keys == {"Authorization", "Content-Type"}
    ensures h["Authorization"] == "Bearer " + creds.apiKey
    ensures h["Content-Type"] == "application/json"
  {
    AuthHeaders(creds)["Content-Type" := "application/json"]
  }
}
