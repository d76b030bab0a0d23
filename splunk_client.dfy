/** The Splunk HTTP Event Collector client: validation of its settings, the
    rewrite of the collector URL to the event endpoint, and the request that
    `Send` puts on the wire. URL parsing and certificate loading are library
    calls and enter as function parameters; the request is a value. */
module SplunkClient {
  import opened Wrappers
  import opened Analytics

  /** The collector's event-ingestion path that replaces the URL path. */
  const DefaultPath: string := "/services/collector/event/1.0"
  /** Header that carries the credential, as passed to `Header.Add`. */
  const AuthHeaderName: string := "authorization"
  /** Authentication scheme prefix of the credential, including its space. */
  const AuthHeaderPrefix: string := "Splunk "

  /** A parsed URL (`url.URL`), reduced to the components the client keeps
      apart: the path is the one it rewrites. */
  datatype Url = Url(scheme: string, host: string, path: string, rawQuery: string)

  /** A certificate/key pair as loaded by `tls.LoadX509KeyPair`. */
  datatype Certificate = Certificate(certPem: string, keyPem: string)

  /** The TLS settings installed for the client's transport. */
  datatype TlsConfig = TlsConfig(
    insecureSkipVerify: bool,
    certificates: seq<Certificate>,
    serverName: string)

  /** A constructed client (`SplunkClient`). */
  datatype Client = Client(
    token: string,
    collectorUrl: Url,
    tlsSkipVerify: bool,
    tls: TlsConfig)

  /** Why construction failed: `errInvalidSettings`, the error of
      `url.Parse`, or the error of `tls.LoadX509KeyPair`. */
  datatype ClientError = InvalidSettings | InvalidUrl | TlsSetupError

  /** The result of `NewSplunkClient`: a client, or an error and no client. */
  datatype Outcome = Built(client: Client) | Failed(error: ClientError) {
    /** The client pointer Go hands back: `nil` on failure. */
    function ToOption(): (r: Option<Client>)
      ensures r.Some? <==> Built?
      ensures Built? ==> r.value == client
    {
      match this
      case Built(c) => Some(c)
      case Failed(_) => None
    }
  }

  /** `NewSplunkClient`: validates the settings in the order the source does
      (empty token or URL, then URL syntax, then the certificate pair when
      verification is on) and builds the client with the URL path replaced by
      `DefaultPath`. `parse` stands for `url.Parse` and `loadKeyPair` for
      `tls.LoadX509KeyPair`. */
  function NewSplunkClient(
    token: string, collectorUrl: string, skipVerify: bool,
    certFile: string, keyFile: string, serverName: string,
    parse: string -> Option<Url>,
    loadKeyPair: (string, string) -> Option<Certificate>): (r: Outcome)
    ensures r == Failed(InvalidSettings) <==> token == "" || collectorUrl == ""
    ensures r == Failed(InvalidUrl) <==>
      token != "" && collectorUrl != "" && parse(collectorUrl).None?
    ensures r == Failed(TlsSetupError) <==>
      token != "" && collectorUrl != "" && parse(collectorUrl).Some? &&
      !skipVerify && loadKeyPair(certFile, keyFile).None?
    ensures r.Built? ==>
      && r.client.token == token
      && r.client.collectorUrl.path == DefaultPath
      && r.client.collectorUrl == parse(collectorUrl).value.(path := DefaultPath)
      && !r.client.tlsSkipVerify
    ensures r.Built? && skipVerify ==>
      r.client.tls == TlsConfig(true, [], "")
    ensures r.Built? && !skipVerify ==>
      r.client.tls == TlsConfig(false, [loadKeyPair(certFile, keyFile).value], serverName)
  {
    if token == "" || collectorUrl == "" then
      Failed(InvalidSettings)
    else
      match parse(collectorUrl)
      case None => Failed(InvalidUrl)
      case Some(u) =>
        var tls :=
          if skipVerify then Some(TlsConfig(true, [], ""))
          else match loadKeyPair(certFile, keyFile)
            case None => None
            case Some(cert) => Some(TlsConfig(false, [cert], serverName));
        match tls
        case None => Failed(TlsSetupError)
        case Some(config) =>
          // The `TLSSkipVerify` field of the client is never assigned, so it
          // keeps Go's zero value `false`.
          Built(Client(token, u.(path := DefaultPath), false, config))
  }

  /** Whatever path the collector URL carries, the client is the same: only
      the path differs between two URLs that parse to the same other parts. */
  lemma ClientIgnoresInputPath(
    token: string, url1: string, url2: string, skipVerify: bool,
    certFile: string, keyFile: string, serverName: string,
    parse: string -> Option<Url>,
    loadKeyPair: (string, string) -> Option<Certificate>)
    requires url1 != "" && url2 != ""
    requires parse(url1).Some? && parse(url2).Some?
    requires parse(url1).value.(path := "") == parse(url2).value.(path := "")
    ensures NewSplunkClient(token, url1, skipVerify, certFile, keyFile, serverName, parse, loadKeyPair)
         == NewSplunkClient(token, url2, skipVerify, certFile, keyFile, serverName, parse, loadKeyPair)
  {
  }

  /** One HTTP header line as added to the request. */
  datatype Header = Header(name: string, value: string)

  /** The JSON body: `{"time": <unix seconds>, "event": {...}}`. */
  datatype Envelope = Envelope(time: int, event: map<string, Value>)

  /** The request `Send` hands to the HTTP client. */
  datatype Request = Request(
    httpMethod: string,
    url: Url,
    headers: seq<Header>,
    body: Envelope)

  /** The credential value of the authorization header for `token`. */
  function Authorization(token: string): (v: string)
    ensures |v| == |AuthHeaderPrefix| + |token|
    ensures v[..|AuthHeaderPrefix|] == AuthHeaderPrefix
    ensures v[|AuthHeaderPrefix|..] == token
  {
    AuthHeaderPrefix + token
  }

  /** Reads the token back from an authorization value that starts with the
      exact prefix `AuthHeaderPrefix`: the inverse of `Authorization`. */
  function TokenOf(v: string): (r: Option<string>)
    ensures r.Some? <==> |v| >= |AuthHeaderPrefix| && v[..|AuthHeaderPrefix|] == AuthHeaderPrefix
    ensures r.Some? ==> v == AuthHeaderPrefix + r.value
  {
    if |v| >= |AuthHeaderPrefix| && v[..|AuthHeaderPrefix|] == AuthHeaderPrefix then
      Some(v[|AuthHeaderPrefix|..])
    else
      None
  }

  /** The collector recovers exactly the client's token from the header. */
  lemma TokenRoundTrip(token: string)
    ensures TokenOf(Authorization(token)) == Some(token)
  {
  }

  /** `Send`, up to handing the request to the HTTP client: a POST of the
      wrapped event to the collector URL with the `Splunk` credential. */
  function Send(c: Client, event: map<string, Value>, ts: Instant): (req: Request)
    ensures req.httpMethod == "POST" && req.url == c.collectorUrl
    ensures req.body.event == event
    ensures req.body.time * NanosPerSecond <= ts.nanos < (req.body.time + 1) * NanosPerSecond
    ensures |req.headers| == 1 && req.headers[0].name == AuthHeaderName
    ensures TokenOf(req.headers[0].value) == Some(c.token)
  {
    Request("POST", c.collectorUrl, [Header(AuthHeaderName, Authorization(c.token))],
            Envelope(UnixSeconds(ts), event))
  }
}
