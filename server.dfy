/**
 * The forwarding proxy's request handler and its start/stop lifecycle.
 *
 * The handler object holds the process-wide request counter, the request
 * options template with the builder mode chosen at start-up, and the server
 * (present while started). Each client request gets the next id, its
 * outbound options are built, and exactly one response is written: the
 * transport's response verbatim on success, or a framed status-500 error on
 * failure.
 */
module ProxyServer {
  import opened Wrappers
  import opened RequestOptionsBuilder
  import opened ErrorFraming

  /** What the transport collaborator reports for one forwarded request. */
  datatype Outcome =
    | Success(statusCode: int, headers: Headers, data: string)
    | Failure(customTopic: string, message: string)

  /** A response body: passed through verbatim, or the JSON serialization of an error body. */
  datatype Payload = Verbatim(data: string) | JsonOf(errorData: ErrorBody)

  /** One call made on the client response: `writeHead` (with or without headers), or `end`. */
  datatype Write = HeadWritten(statusCode: int, headers: Option<Headers>) | BodyEnded(payload: Payload)

  /**
   * The calls the handler makes on the client response for one transport
   * outcome: one head and one body, the upstream response passed through on
   * success, a framed status-500 error without headers on failure.
   */
  function ResponseFor(outcome: Outcome, attempted: RequestOptions, reqFailedMsg: string): (w: seq<Write>)
    requires attempted.path.Some?  // the framer reads the attempted path
    ensures |w| == 2 && w[0].HeadWritten? && w[1].BodyEnded?
    ensures outcome.Success? ==>
              && w[0] == HeadWritten(outcome.statusCode, Some(outcome.headers))
              && w[1] == BodyEnded(Verbatim(outcome.data))
    ensures outcome.Failure? ==> w[0] == HeadWritten(ERROR_STATUS_CODE, None) && w[1].payload.JsonOf?
    ensures outcome.Failure? ==>
              && w[1].payload.errorData.Message() == outcome.message + ". " + reqFailedMsg
              && w[1].payload.errorData.Error() == reqFailedMsg
              && (w[1].payload.errorData.SessionScoped? <==> exists i: nat :: MatchesAt(attempted.path.value, i))
              && w[1].payload == JsonOf(FrameErrorResponse(attempted.path.value, outcome.message, reqFailedMsg).data)
  {
    match outcome
    case Success(statusCode, headers, data) =>
      [HeadWritten(statusCode, Some(headers)), BodyEnded(Verbatim(data))]
    case Failure(_, message) =>
      var errorResponse := FrameErrorResponse(attempted.path.value, message, reqFailedMsg);
      [HeadWritten(errorResponse.statusCode, None), BodyEnded(JsonOf(errorResponse.data))]
  }

  /** The listening server, reduced to the port it was asked to listen on. */
  datatype Server = Server(port: nat)

  /** The `(error, value)` pair a lifecycle callback is called with. */
  datatype Callback<T> = Callback(err: Option<string>, value: Option<T>)

  /** How `listen` ends: the 'listening' event, or an error (emitted, or thrown while setting up). */
  datatype ListenOutcome = Listening | ListenFailed(message: string)

  /** The callback `startProxy` makes: the port once listening, the error otherwise. */
  function StartCallback(port: nat, listen: ListenOutcome): (cb: Callback<nat>)
    ensures cb.err.Some? <==> listen.ListenFailed?
    ensures cb.err.Some? <==> cb.value.None?
    ensures listen.ListenFailed? ==> cb.err == Some(listen.message)
    ensures listen.Listening? ==> cb.value == Some(port)
  {
    match listen
    case Listening => Callback(None, Some(port))
    case ListenFailed(message) => Callback(Some(message), None)
  }

  /**
   * `stopProxy` as a state transition: the server afterwards and the callback.
   * Stopping succeeds and leaves no server unless closing a present server
   * throws, in which case the server stays assigned and the error is reported.
   */
  function StopResult(server: Option<Server>, closeError: Option<string>): (r: (Option<Server>, Callback<bool>))
    ensures r.1.err.Some? <==> server.Some? && closeError.Some?
    ensures r.1.err.None? ==> r.0.None? && r.1.value == Some(true)
    ensures r.1.err.Some? ==> r.0 == server && r.1 == Callback(closeError, None)
  {
    if server.Some? && closeError.Some? then (server, Callback(closeError, None))
    else (None, Callback(None, Some(true)))
  }

  /**
   * Stopping a server that was never started, or stopping again after a
   * successful stop, is a successful no-op whatever `close` would do.
   */
  lemma StopIsIdempotent(server: Option<Server>, closeError: Option<string>, again: Option<string>)
    requires StopResult(server, closeError).1.err.None?
    ensures StopResult(StopResult(server, closeError).0, again) == StopResult(server, closeError)
    ensures StopResult(None, again) == (None, Callback(None, Some(true)))
  {
  }

  /**
   * The request counter is a JavaScript number (an IEEE double): `++` is exact
   * up to 2^53, and at 2^53 adding one rounds back to 2^53, so a counter that
   * starts at 0 climbs to 2^53 and stays there.
   */
  const MAX_EXACT_COUNTER: nat := 9007199254740992

  /** `++` on the counter, as the double arithmetic computes it. */
  function CounterIncrement(n: nat): (m: nat)
    requires n <= MAX_EXACT_COUNTER
    ensures n <= m <= MAX_EXACT_COUNTER
    ensures m == n <==> n == MAX_EXACT_COUNTER
    ensures m != n ==> m == n + 1
  {
    if n < MAX_EXACT_COUNTER then n + 1 else n
  }

  /**
   * The id handed to the request at position `k` (from 0) of a run starting
   * from a fresh counter: `k + 1`, capped at 2^53.
   */
  function IdAt(k: nat): (id: nat)
    ensures 1 <= id <= MAX_EXACT_COUNTER
    ensures k < MAX_EXACT_COUNTER <==> id == k + 1
  {
    if k + 1 < MAX_EXACT_COUNTER then k + 1 else MAX_EXACT_COUNTER
  }

  /** The incoming client request; the direct-mode builder writes into its headers. */
  class ClientRequest {
    const httpMethod: string
    const url: string
    var headers: Headers
    var id: nat

    constructor (httpMethod: string, url: string, headers: Headers)
      ensures this.httpMethod == httpMethod && this.url == url && this.headers == headers && id == 0
    {
      this.httpMethod := httpMethod;
      this.url := url;
      this.headers := headers;
      id := 0;
    }
  }

  /** The client response, recorded as the calls made on it. */
  class ClientResponse {
    var writes: seq<Write>

    constructor ()
      ensures writes == []
    {
      writes := [];
    }

    method WriteHead(statusCode: int, headers: Option<Headers>)
      modifies this
      ensures writes == old(writes) + [HeadWritten(statusCode, headers)]
    {
      writes := writes + [HeadWritten(statusCode, headers)];
    }

    method End(payload: Payload)
      modifies this
      ensures writes == old(writes) + [BodyEnded(payload)]
    {
      writes := writes + [BodyEnded(payload)];
    }
  }

  /**
   * The handler object. The URL parser, the Basic-credential encoder and the
   * fixed request-failed text are collaborators fixed at construction.
   */
  class NwtHandler {
    var requestCounter: nat
    /** Every request id handed out so far, in order. */
    ghost var issuedIds: seq<nat>
    var template: RequestOptions
    /** The bound builder; None until the template has been generated. */
    var mode: Option<Mode>
    var server: Option<Server>
    const parseUrl: string -> ParsedUrl
    const encodeAuth: Credentials -> string
    const reqFailedMsg: string

    /**
     * The k-th id handed out is IdAt(k) and the counter is the last one (0
     * before any); so ids are 1, 2, ... until 2^53 and 2^53 from then on. The template is the
     * one generated for the bound mode; a server exists only after generation.
     */
    ghost predicate Valid()
      reads this
    {
      && requestCounter == (if |issuedIds| < MAX_EXACT_COUNTER then |issuedIds| else MAX_EXACT_COUNTER)
      && (forall k :: 0 <= k < |issuedIds| ==> issuedIds[k] == IdAt(k))
      && (mode.Some? ==> template == TemplateFor(mode.value, encodeAuth))
      && (server.Some? ==> mode.Some?)
    }

    constructor (parseUrl: string -> ParsedUrl, encodeAuth: Credentials -> string, reqFailedMsg: string)
      ensures Valid()
      ensures requestCounter == 0 && issuedIds == [] && mode.None? && server.None?
      ensures this.parseUrl == parseUrl && this.encodeAuth == encodeAuth && this.reqFailedMsg == reqFailedMsg
    {
      requestCounter := 0;
      issuedIds := [];
      template := EMPTY_TEMPLATE;
      mode := None;
      server := None;
      this.parseUrl := parseUrl;
      this.encodeAuth := encodeAuth;
      this.reqFailedMsg := reqFailedMsg;
    }

    /** `generatorForRequestOptionsObject`: builds the template and binds the builder for the configuration. */
    method GenerateRequestOptionsTemplate(proxy: Option<ProxyConfig>)
      requires Valid()
      modifies this`template, this`mode
      ensures Valid()
      ensures mode == Some(ModeFor(proxy)) && template == TemplateFor(ModeFor(proxy), encodeAuth)
    {
      template := EMPTY_TEMPLATE;
      if proxy.Some? {
        var p := proxy.value;
        template := template.(host := Some(p.host), port := Some(p.port));
        if Truthy(p.username) && Truthy(p.password) {
          template := template.(headers := template.headers[PROXY_AUTHORIZATION := encodeAuth(ProxyCredentials(p))]);
        }
        mode := Some(ViaProxy(p));
      } else {
        mode := Some(Direct);
      }
    }

    /**
     * The bound builder applied to one client request. It never changes the
     * template; in direct mode the returned headers are the client's own
     * headers object, so an `authorization` header added for URL credentials
     * is added to the client request as well.
     */
    method GenerateRequestOptions(req: ClientRequest) returns (opts: RequestOptions)
      requires Valid() && mode.Some?
      modifies req`headers
      ensures opts == BuildOptions(mode.value, template, encodeAuth, req.httpMethod, old(req.headers), parseUrl(req.url))
      ensures req.headers == HeadersAfterBuild(mode.value, old(req.headers), parseUrl(req.url), encodeAuth)
      ensures mode.value.Direct? ==> req.headers == opts.headers
    {
      var url := parseUrl(req.url);
      match mode.value
      case ViaProxy(_) =>
        var headersCopy := req.headers + template.headers;
        opts := template.(path := Some(url.href), httpMethod := Some(req.httpMethod), headers := headersCopy);
      case Direct =>
        opts := template.(host := url.hostname,
                          port := Some(if url.port.Some? then url.port.value else DEFAULT_PORT),
                          path := Some(url.path),
                          httpMethod := Some(req.httpMethod));
        if Truthy(url.auth) {
          req.headers := req.headers[AUTHORIZATION := encodeAuth(UrlCredentials(url.auth.value))];
        }
        opts := opts.(headers := req.headers);
    }

    /**
     * `requestHandler`: the request gets the next id, its options are built,
     * and one head and one body are written for the transport's outcome.
     */
    method HandleRequest(req: ClientRequest, res: ClientResponse, outcome: Outcome)
      requires Valid() && mode.Some?
      modifies this`requestCounter, this`issuedIds, req, res
      ensures Valid()
      ensures requestCounter == CounterIncrement(old(requestCounter))
      ensures req.id == requestCounter && issuedIds == old(issuedIds) + [req.id]
      ensures forall earlier :: earlier in old(issuedIds) ==> earlier <= req.id
      ensures old(requestCounter) < MAX_EXACT_COUNTER ==>
                forall earlier :: earlier in old(issuedIds) ==> earlier < req.id
      ensures var opts := BuildOptions(mode.value, template, encodeAuth, req.httpMethod, old(req.headers), parseUrl(req.url));
              && res.writes == old(res.writes) + ResponseFor(outcome, opts, reqFailedMsg)
              && req.headers == HeadersAfterBuild(mode.value, old(req.headers), parseUrl(req.url), encodeAuth)
    {
      if requestCounter < MAX_EXACT_COUNTER {
        requestCounter := requestCounter + 1;
      }
      issuedIds := issuedIds + [requestCounter];
      req.id := requestCounter;
      var opts := GenerateRequestOptions(req);
      match outcome
      case Success(statusCode, headers, data) =>
        res.WriteHead(statusCode, Some(headers));
        res.End(Verbatim(data));
      case Failure(_, message) =>
        var errorResponse := FrameErrorResponse(opts.path.value, message, reqFailedMsg);
        res.WriteHead(errorResponse.statusCode, None);
        res.End(JsonOf(errorResponse.data));
    }

    /**
     * `startProxy`: generates the template for the configuration, creates the
     * server (it stays assigned even when listening fails) and reports the
     * port or the error.
     */
    method StartProxy(port: nat, proxy: Option<ProxyConfig>, listen: ListenOutcome) returns (cb: Callback<nat>)
      requires Valid()
      modifies this`template, this`mode, this`server
      ensures Valid()
      ensures mode == Some(ModeFor(proxy)) && template == TemplateFor(ModeFor(proxy), encodeAuth)
      ensures server == Some(Server(port))
      ensures cb == StartCallback(port, listen)
    {
      GenerateRequestOptionsTemplate(proxy);
      server := Some(Server(port));
      match listen
      case Listening =>
        cb := Callback(None, Some(port));
      case ListenFailed(message) =>
        cb := Callback(Some(message), None);
    }

    /** `stopProxy`: closes and forgets the server if there is one, then reports success. */
    method StopProxy(closeError: Option<string>) returns (cb: Callback<bool>)
      requires Valid()
      modifies this`server
      ensures Valid()
      ensures (server, cb) == StopResult(old(server), closeError)
    {
      if server.Some? {
        if closeError.Some? {
          cb := Callback(closeError, None);
          return;
        }
        server := None;
      }
      cb := Callback(None, Some(true));
    }
  }
}
