/** The client: default request options, request validators and a transport,
    and `Do`, which builds a request from the defaults followed by the call's
    options, runs the validators, sends the request once and classifies the
    answer.

    `ClientConfig`, `ApplyClientOptions`, `FirstRejection`, `Classify` and
    `DoSpec` say on values what the client's methods do; the methods are
    proved against them. */
module ClientPipeline {
  import opened GoTypes
  import opened StatusErrors
  import opened RequestBuilder

  /** The part of an `*http.Response` the pipeline looks at. */
  datatype RawResponse = RawResponse(statusCode: int, header: Header, body: Stream)

  /** The package's `Response`, which wraps the transport's response. */
  datatype Response = Response(raw: RawResponse)

  /** A `RequestValidatorFunc`: nil accepts the request, an error rejects it. */
  type Validator = HttpRequest -> Option<Error>

  /** An `*http.Client`. What the network answers to a request is the
      function `exchange`; `calls` counts the requests sent through it. */
  class HttpClient {
    const exchange: HttpRequest -> Result<RawResponse>
    var calls: nat

    constructor (exchange: HttpRequest -> Result<RawResponse>)
      ensures this.exchange == exchange && calls == 0
    {
      this.exchange := exchange;
      calls := 0;
    }

    /** `httpClient.Do(req)`: one exchange with the network. */
    method Do(req: HttpRequest) returns (res: Result<RawResponse>)
      modifies this
      ensures res == exchange(req)
      ensures calls == old(calls) + 1
    {
      res := exchange(req);
      calls := calls + 1;
    }
  }

  /** The dumps `Do` writes and whether writing them fails: the outgoing
      request to the process-wide logger, the response to the response
      logger set by `WithResponseLogger`. */
  datatype Sinks = Sinks(
    dumpRequest: HttpRequest -> Option<Error>,
    dumpResponse: (Writer, RawResponse) -> Option<Error>)

  /** The package's client options, each with its argument. */
  datatype ClientOption =
    | WithHTTPClient(httpClient: HttpClient?)
    | WithDefaultOptions(opts: seq<RequestOption>)
    | WithRequestValidation(fn: Validator)

  /** The fields of a `Client` as a value. */
  datatype ClientConfig = ClientConfig(
    httpClient: HttpClient?,
    defaultOptions: seq<RequestOption>,
    requestValidators: seq<Validator>)

  /** The client `NewClient` starts from: no transport, no defaults, no validators. */
  const EMPTY_CONFIG: ClientConfig := ClientConfig(null, [], [])

  /** What one client option does: set the transport, or append to a list. */
  function ApplyClientOption(c: ClientConfig, opt: ClientOption): ClientConfig {
    match opt
    case WithHTTPClient(hc) => c.(httpClient := hc)
    case WithDefaultOptions(opts) => c.(defaultOptions := c.defaultOptions + opts)
    case WithRequestValidation(fn) => c.(requestValidators := c.requestValidators + [fn])
  }

  /** The client options applied left to right (the last one is applied last). */
  function ApplyClientOptions(c: ClientConfig, opts: seq<ClientOption>): ClientConfig
    decreases |opts|
  {
    if opts == [] then c
    else ApplyClientOption(ApplyClientOptions(c, opts[..|opts| - 1]), opts[|opts| - 1])
  }

  /** `NewClient(opts...)`, on values: the options, then the default
      transport if none was set. */
  function NewClientConfig(opts: seq<ClientOption>, defaultClient: HttpClient): ClientConfig {
    var c := ApplyClientOptions(EMPTY_CONFIG, opts);
    if c.httpClient == null then c.(httpClient := defaultClient) else c
  }

  /** The answer of the first validator that rejects the request, or None. */
  function FirstRejection(validators: seq<Validator>, req: HttpRequest): Option<Error>
    decreases |validators|
  {
    if validators == [] then None
    else if validators[0](req).Some? then validators[0](req)
    else FirstRejection(validators[1..], req)
  }

  /** The loop over the validators in registration order, stopping at the first rejection. */
  method RunValidators(validators: seq<Validator>, req: HttpRequest) returns (err: Option<Error>)
    ensures err == FirstRejection(validators, req)
  {
    var i := 0;
    while i < |validators|
      invariant 0 <= i <= |validators|
      invariant FirstRejection(validators, req) == FirstRejection(validators[i..], req)
    {
      assert validators[i..][1..] == validators[i + 1..];
      var e := validators[i](req);
      if e.Some? {
        return e;
      }
      i := i + 1;
    }
    return None;
  }

  const BAD_STATUS_PREFIX: GoString := Ascii("bad status code (")
  const BAD_STATUS_SUFFIX: GoString := Ascii(")")

  /** The bad-status message: the status in decimal, in parentheses. */
  function BadStatusMessage(status: int): GoString {
    BAD_STATUS_PREFIX + Decimal(status) + BAD_STATUS_SUFFIX
  }

  /** The final check on a response that arrived: statuses 200 to 299 are
      success, any other is a bad-status error carrying the status. */
  function Classify(status: int): Option<Error> {
    if status < 200 || status > 299 then Some(StatusError(CODE_BAD_RESPONSE_STATUS, status, BadStatusMessage(status)))
    else None
  }

  /** What one `Do` call returns, and whether it reached the transport. */
  datatype DoResult = DoResult(response: Option<Response>, err: Option<Error>, sent: bool)

  /** `Do(opts...)`, on values. */
  function DoSpec(c: ClientConfig, opts: seq<RequestOption>, env: Collaborators, sinks: Sinks): DoResult
    requires c.httpClient != null
  {
    match Build(c.defaultOptions + opts, env)
    case Err(e) => DoResult(None, Some(e), false)
    case Ok(built) =>
      match FirstRejection(c.requestValidators, built.request)
      case Some(e) => DoResult(None, Some(e), false)
      case None =>
        match sinks.dumpRequest(built.request)
        case Some(e) => DoResult(None, Some(e), false)
        case None =>
          match c.httpClient.exchange(built.request)
          case Err(e) => DoResult(None, Some(e), true)
          case Ok(raw) =>
            if built.draft.respLogger.Some? && sinks.dumpResponse(built.draft.respLogger.value, raw).Some? then
              DoResult(None, sinks.dumpResponse(built.draft.respLogger.value, raw), true)
            else
              DoResult(Some(Response(raw)), Classify(raw.statusCode), true)
  }

  /** A client: its transport, its default request options and its request validators. */
  class Client {
    var httpClient: HttpClient?
    var defaultOptions: seq<RequestOption>
    var requestValidators: seq<Validator>

    constructor ()
      ensures Config() == EMPTY_CONFIG
    {
      httpClient := null;
      defaultOptions := [];
      requestValidators := [];
    }

    function Config(): ClientConfig
      reads this
    {
      ClientConfig(httpClient, defaultOptions, requestValidators)
    }

    /** Runs one client option's closure on this client. */
    method Apply(opt: ClientOption)
      modifies this
      ensures Config() == ApplyClientOption(old(Config()), opt)
    {
      match opt
      case WithHTTPClient(hc) => httpClient := hc;
      case WithDefaultOptions(opts) => defaultOptions := defaultOptions + opts;
      case WithRequestValidation(fn) => requestValidators := requestValidators + [fn];
    }

    /** `Do(opts...)`: build, validate, dump, send, dump, classify. The
        transport is used once if the request gets that far, and not at all
        otherwise. */
    method Do(opts: seq<RequestOption>, env: Collaborators, sinks: Sinks)
      returns (resp: Option<Response>, err: Option<Error>)
      requires httpClient != null
      modifies httpClient
      ensures var o := DoSpec(Config(), opts, env, sinks);
        && resp == o.response && err == o.err
        && httpClient.calls == old(httpClient.calls) + (if o.sent then 1 else 0)
    {
      var all := defaultOptions + opts;
      var req, e := NewRequest(all, env);
      if e.Some? {
        return None, e;
      }
      var request := req.request.value;

      e := RunValidators(requestValidators, request);
      if e.Some? {
        return None, e;
      }

      e := sinks.dumpRequest(request);
      if e.Some? {
        return None, e;
      }

      var res := httpClient.Do(request);
      if res.Err? {
        return None, Some(res.error);
      }
      var raw := res.value;

      if req.respLogger.Some? {
        e := sinks.dumpResponse(req.respLogger.value, raw);
        if e.Some? {
          return None, e;
        }
      }

      // The transport's error was returned above, so only the status decides from here.
      return Some(Response(raw)), Classify(raw.statusCode);
    }
  }

  /** `NewClient(opts...)`: a fresh client, the options in order, then the
      default transport if no option set one. */
  method NewClient(opts: seq<ClientOption>, defaultClient: HttpClient) returns (c: Client)
    ensures fresh(c)
    ensures c.Config() == NewClientConfig(opts, defaultClient)
    ensures c.httpClient != null
  {
    c := new Client();
    var i := 0;
    while i < |opts|
      invariant 0 <= i <= |opts|
      invariant c.Config() == ApplyClientOptions(EMPTY_CONFIG, opts[..i])
    {
      assert opts[..i + 1][..i] == opts[..i];
      c.Apply(opts[i]);
      i := i + 1;
    }
    assert opts[..i] == opts;
    if c.httpClient == null {
      c.httpClient := defaultClient;
    }
  }
}
