/** `doHttpRequest`: assembles the form POST, picks the HTTP version and the
    SSL context, sends the request once and classifies what comes back.
    Sending is a parameter (`Network`), as is what the JDK client does when
    it is handed a null SSL context. */
module Client {
  import opened Results
  import opened Messages
  import opened Requests
  import opened Tls

  const HTTP_2: string := "HTTP_2"

  datatype HttpVersion = Http11 | Http2

  /** `getHttpVersion`: HTTP/2 only for the exact name `HTTP_2`. */
  function HttpVersionOf(name: string): (v: HttpVersion)
    ensures v == Http2 <==> name == HTTP_2
  {
    if name == HTTP_2 then Http2 else Http11
  }

  /** The entries of the client configuration the call reads. */
  datatype ClientConfig = ClientConfig(
    customPayload: Option<string>,
    customHeaders: Option<seq<Header>>,
    httpVersion: Option<string>,
    secureSocket: Option<SecureSocket>)

  function CustomHeaders(config: ClientConfig): seq<Header> {
    if config.customHeaders.Some? then config.customHeaders.value else []
  }

  // ---------------------------------------------------------------------
  // The request

  /** The request `doHttpRequest` builds: the body with the custom payload
      appended, the flattened headers then custom headers, and the overload
      without headers when that list is empty. */
  function AssembledRequest(url: string, config: ClientConfig, headers: seq<Header>,
                            payload: string): HttpRequest
  {
    var all := headers + CustomHeaders(config);
    var body := Body(payload, config.customPayload);
    if Flatten(all) == [] then BuildHttpRequestPlain(url, body)
    else
      UnflattenFlatten(all);
      BuildHttpRequestWithHeaders(url, Flatten(all), body)
  }

  /** The assembled request is a POST of the (possibly extended) payload; it
      comes from the overload without headers exactly when neither header
      map has an entry; its Content-Type is the form encoding alone, and every
      other header carries the values of `headers` followed by those of the
      custom headers, duplicates included. */
  lemma AssembledRequestShape(url: string, config: ClientConfig, headers: seq<Header>,
                              payload: string, n: string)
    ensures var r := AssembledRequest(url, config, headers, payload);
      && r.uri == url && r.httpMethod == POST
      && r.body == Body(payload, config.customPayload)
      && (r.builder == WithoutHeaders <==> headers == [] && CustomHeaders(config) == [])
      && ValuesOf(r.headers, n)
         == if SameName(CONTENT_TYPE, n) then [APPLICATION_FORM_URLENCODED]
            else ValuesOf(headers, n) + ValuesOf(CustomHeaders(config), n)
  {
    var all := headers + CustomHeaders(config);
    FlattenLength(all);
    UnflattenFlatten(all);
    ValuesOfAppend(headers, CustomHeaders(config), n);
    if all == [] {
      assert headers == [] && CustomHeaders(config) == [];
      assert ValuesOf([Header(CONTENT_TYPE, APPLICATION_FORM_URLENCODED)], n)
          == ValuesOf([], n) + (if SameName(CONTENT_TYPE, n) then [APPLICATION_FORM_URLENCODED] else []);
    }
  }

  /** The first half of `doHttpRequest`: the payload is extended in place,
      the flat header list is filled by two loops, and one of the two
      request builders is called. */
  method BuildRequest(url: string, config: ClientConfig, headers: seq<Header>, payload: string)
    returns (request: HttpRequest)
    ensures request == AssembledRequest(url, config, headers, payload)
  {
    var textPayload := payload;
    if config.customPayload.Some? {
      textPayload := textPayload + "&" + config.customPayload.value;
    }

    var headersList: seq<string> := [];
    var i := 0;
    while i < |headers|
      invariant 0 <= i <= |headers|
      invariant headersList == Flatten(headers[..i])
    {
      headersList := headersList + [headers[i].name];
      headersList := headersList + [headers[i].value];
      assert headers[..i + 1][..i] == headers[..i];
      i := i + 1;
    }
    assert headers[..i] == headers;

    if config.customHeaders.Some? {
      var custom := config.customHeaders.value;
      var j := 0;
      while j < |custom|
        invariant 0 <= j <= |custom|
        invariant headersList == Flatten(headers) + Flatten(custom[..j])
      {
        headersList := headersList + [custom[j].name];
        headersList := headersList + [custom[j].value];
        assert custom[..j + 1][..j] == custom[..j];
        j := j + 1;
      }
      assert custom[..j] == custom;
    }
    FlattenAppend(headers, CustomHeaders(config));
    assert headersList == Flatten(headers + CustomHeaders(config));
    assert textPayload == Body(payload, config.customPayload);

    if headersList == [] {
      request := BuildHttpRequestPlain(url, textPayload);
    } else {
      UnflattenFlatten(headers + CustomHeaders(config));
      request := BuildHttpRequestWithHeaders(url, headersList, textPayload);
    }
  }

  // ---------------------------------------------------------------------
  // Sending and classifying

  datatype HttpClient = HttpClient(version: HttpVersion, sslContext: Option<SslContext>)

  /** What one send can end in: a response, or an I/O failure or interruption. */
  datatype SendResult = Response(status: nat, body: string) | IoFailure(message: string)

  datatype Network = Network(
    send: (HttpClient, HttpRequest) -> SendResult,
    withNullContext: (HttpVersion, HttpRequest) -> Result<string>)

  /** The classification in `callEndpoint`: only status 200 is a success,
      and it yields the body unchanged; any other status is the endpoint
      error for that status and body, from which both can be read back; an
      I/O failure is reported with its message under the send prefix. */
  function ClassifyResponse(response: SendResult): (r: Result<string>)
    ensures r.Ok? <==> response.Response? && response.status == 200
    ensures r.Ok? ==> r.value == response.body
    ensures response.IoFailure? ==>
      r == Err(SEND_PREFIX + response.message) && PhaseOf(r.message) == Transport
    ensures response.Response? && response.status != 200 ==>
      r == Err(EndpointError(response.status, response.body))
      && PhaseOf(r.message) == Endpoint
      && ParseEndpointError(r.message) == Some((response.status, response.body))
  {
    match response
    case Response(status, body) =>
      if status == 200 then Ok(body)
      else
        EndpointErrorRoundTrip(status, body);
        EndpointErrorPhase(status, body);
        Err(EndpointError(status, body))
    case IoFailure(m) =>
      PhasesDistinct(m);
      Err(SEND_PREFIX + m)
  }

  /** `callEndpoint`: one send, then the classification. */
  function CallEndpoint(net: Network, client: HttpClient, request: HttpRequest): Result<string> {
    ClassifyResponse(net.send(client, request))
  }

  // ---------------------------------------------------------------------
  // The whole call

  /** Where the call goes once the request is built: the TLS set-up fails
      with a cause, the JDK client is handed a null SSL context, or the
      request is sent on a client of the configured version, plain when there
      is no secure socket and bound to the SSL context otherwise. */
  datatype Route = SslFailed(cause: string) | NullContext | SendOn(client: HttpClient)

  function RouteOf(config: ClientConfig, crypto: Crypto): Route
    requires config.httpVersion.Some?
  {
    var version := HttpVersionOf(config.httpVersion.value);
    match config.secureSocket
    case None => SendOn(HttpClient(version, None))
    case Some(s) =>
      match SslContextOf(s, crypto)
      case Err(m) => SslFailed(m)
      case Ok(None) => NullContext
      case Ok(Some(ctx)) => SendOn(HttpClient(version, Some(ctx)))
  }

  /** The second half of `doHttpRequest`: a TLS set-up failure is wrapped
      under the SSL prefix, and otherwise the request is sent once. */
  function Dispatch(request: HttpRequest, config: ClientConfig, crypto: Crypto, net: Network): Result<string>
    requires config.httpVersion.Some?
  {
    match RouteOf(config, crypto)
    case SslFailed(m) => Err(SSL_INIT_PREFIX + m)
    case NullContext => net.withNullContext(HttpVersionOf(config.httpVersion.value), request)
    case SendOn(client) => CallEndpoint(net, client, request)
  }

  /** What `doHttpRequest` returns.  `httpVersion` must be present: the
      original dereferences it unconditionally. */
  function RequestOutcome(url: string, config: ClientConfig, headers: seq<Header>, payload: string,
                          crypto: Crypto, net: Network): Result<string>
    requires config.httpVersion.Some?
  {
    Dispatch(AssembledRequest(url, config, headers, payload), config, crypto, net)
  }

  /** `doHttpRequest`. */
  method DoHttpRequest(url: string, config: ClientConfig, headers: seq<Header>, payload: string,
                       crypto: Crypto, net: Network) returns (r: Result<string>)
    requires config.httpVersion.Some?
    ensures r == RequestOutcome(url, config, headers, payload, crypto, net)
  {
    var request := BuildRequest(url, config, headers, payload);
    r := Send(request, config, crypto, net);
  }

  /** The second half of `doHttpRequest`, statement by statement: without a
      secure socket the response of one plain send is classified; with one,
      a set-up failure is wrapped under the SSL prefix, a null context goes
      to the JDK client as it is, and a context gets one send bound to it. */
  method Send(request: HttpRequest, config: ClientConfig, crypto: Crypto, net: Network)
    returns (r: Result<string>)
    requires config.httpVersion.Some?
    ensures var version := HttpVersionOf(config.httpVersion.value);
      config.secureSocket.None? ==>
        r == ClassifyResponse(net.send(HttpClient(version, None), request))
    ensures var version := HttpVersionOf(config.httpVersion.value);
      config.secureSocket.Some? ==>
        match SslContextOf(config.secureSocket.value, crypto)
        case Err(m) => r == Err(SSL_INIT_PREFIX + m)
        case Ok(None) => r == net.withNullContext(version, request)
        case Ok(Some(ctx)) => r == ClassifyResponse(net.send(HttpClient(version, Some(ctx)), request))
  {
    var version := HttpVersionOf(config.httpVersion.value);
    if config.secureSocket.Some? {
      var context := SslContextOf(config.secureSocket.value, crypto);
      if context.Err? {
        return Err(SSL_INIT_PREFIX + context.message);
      }
      if context.value.None? {
        return net.withNullContext(version, request);
      }
      return CallEndpoint(net, HttpClient(version, context.value), request);
    }
    r := CallEndpoint(net, HttpClient(version, None), request);
  }

  // ---------------------------------------------------------------------
  // Properties of the whole call

  /** A failure to set up TLS is reported under the SSL prefix, and the
      outcome does not depend on the network: nothing is sent. */
  lemma SslFailureSendsNothing(url: string, config: ClientConfig, headers: seq<Header>, payload: string,
                               crypto: Crypto, net1: Network, net2: Network)
    requires config.httpVersion.Some? && config.secureSocket.Some?
    requires SslContextOf(config.secureSocket.value, crypto).Err?
    ensures RequestOutcome(url, config, headers, payload, crypto, net1)
         == RequestOutcome(url, config, headers, payload, crypto, net2)
         == Err(SSL_INIT_PREFIX + SslContextOf(config.secureSocket.value, crypto).message)
    ensures PhaseOf(RequestOutcome(url, config, headers, payload, crypto, net1).message) == SslInit
  {
  }

  /** When the request is sent, it is sent once, on the client of the
      configured version: succeeding exactly on status 200 with the body
      verbatim, otherwise failing with an error whose prefix names the
      failing phase. */
  lemma SentRequestOutcome(url: string, config: ClientConfig, headers: seq<Header>, payload: string,
                           crypto: Crypto, net: Network, client: HttpClient)
    requires config.httpVersion.Some?
    requires RouteOf(config, crypto) == SendOn(client)
    ensures client.version == HttpVersionOf(config.httpVersion.value)
    ensures var response := net.send(client, AssembledRequest(url, config, headers, payload));
      var r := RequestOutcome(url, config, headers, payload, crypto, net);
      && (r.Ok? <==> response.Response? && response.status == 200)
      && (r.Ok? ==> r.value == response.body)
      && (r.Err? && PhaseOf(r.message) == Transport <==> response.IoFailure?)
      && (r.Err? && PhaseOf(r.message) == Endpoint <==> response.Response? && response.status != 200)
  {
  }

  /** Certificate checking is switched off only by an explicit `disable`. */
  lemma InsecureOnlyWhenDisabled(config: ClientConfig, crypto: Crypto, ctx: SslContext)
    requires config.httpVersion.Some?
    requires RouteOf(config, crypto).SendOn?
    requires RouteOf(config, crypto).client.sslContext == Some(ctx)
    ensures ctx.trustManagers == AcceptAnyServer <==>
      config.secureSocket.Some? && config.secureSocket.value.disable
  {
  }
}
