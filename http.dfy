/** What the client hands to Apache HttpClient, and what it gets back: the
    request (method, URL, body encoding, proxy route and credentials) and the
    reply. Executing a request is a parameter of the operations that need it. */
module Http {
  import opened Wrappers
  import opened OrgJson

  /** An `HttpHost`: where the proxy listens. */
  datatype HttpHost = HttpHost(hostname: Option<string>, port: int)

  /** Basic credentials and the host/port pair (`AuthScope`) they apply to. */
  datatype Credentials = Credentials(scopeHost: Option<string>, scopePort: int, user: Option<string>, password: Option<string>)

  /** The HTTP client's configuration: whether the TLS handshake is pinned to
      version 1.2 (with host-name verification off), the proxy route and the
      default credentials provider. */
  datatype Transport = Transport(tlsPinned: bool, proxy: Option<HttpHost>, credentials: Option<Credentials>)

  datatype Method = Get | Post | Delete

  /** A part of a multipart entity; `JsonTextPart` is a text part holding the
      serialised form of a JSONObject (`data.toString()`). */
  datatype Part =
    | BinaryPart(name: string, file: string)
    | TextPart(name: string, text: string)
    | JsonTextPart(name: string, payload: Object)

  /** The request entity: none, a JSON document (sent with content type
      application/json), a multipart form, or URL-encoded name/value pairs. */
  datatype Body =
    | NoBody
    | JsonBody(payload: Object)
    | Multipart(parts: seq<Part>)
    | Form(pairs: seq<(string, Json)>)

  datatype Request = Request(verb: Method, url: string, body: Body, transport: Transport)

  /** The outcome of executing a request: the status line and the body text
      (its lines concatenated, without line terminators), or an I/O failure. */
  datatype Reply =
    | Reply(statusCode: int, reason: string, body: string)
    | Unreachable(message: string)
}
