/** The request builder: a `Request` draft that request options update in
    place, and `NewRequest`, which applies the options left to right and then
    finalizes the draft into a transport request.

    The draft's pure counterpart is the value `Draft`; `ApplyOption`,
    `ApplyAll`, `Prepare` and `Build` say on values what the options and the
    builder do to the draft, and the methods are proved against them. */
module RequestBuilder {
  import opened GoTypes
  import opened StatusErrors

  type Stream = seq<byte>

  /** `http.Header` and `url.Values`: a key maps to its list of values. */
  type Header = map<GoString, seq<GoString>>
  type Values = map<GoString, seq<GoString>>

  /** The dynamic value behind a Go `interface{}` argument (a body, a form, a
      value to encode): one case per type the package tests for, and one for
      every other type. */
  datatype Any =
    | Nil
    | Reader(content: Stream)           // any io.Reader, known by what it yields
    | Buffer(content: Stream)           // a *bytes.Buffer, also an io.Reader
    | Text(text: GoString)              // a string
    | ByteSlice(bytes: Stream)          // a []byte
    | FormValues(values: Values)        // a url.Values
    | OtherValue(typeName: GoString)    // a value of any other type

  datatype Context = Background | Supplied(id: nat)

  datatype Writer = Writer(id: nat)

  /** The part of `*url.URL` the builder touches: the raw query string. The
      rest of the parsed address stays whatever the transport library made of it. */
  datatype Url = Url(location: GoString, rawQuery: GoString)

  /** The `*http.Request` built by the transport library. */
  datatype HttpRequest = HttpRequest(
    ctx: Context, httpMethod: GoString, url: Url, header: Header, body: Option<Stream>)

  /** Library code the builder calls but does not define: the JSON and XML
      encoders, `url.Values.Encode`, and `http.NewRequestWithContext`. */
  datatype Collaborators = Collaborators(
    encodeJson: Any -> Result<Stream>,
    encodeXml: Any -> Result<Stream>,
    encodeValues: Values -> GoString,
    newRequest: (Context, GoString, GoString, Option<Stream>) -> Result<HttpRequest>)

  /** The package's request options, `With*`, each with its argument. */
  datatype RequestOption =
    | WithMethod(httpMethod: GoString)
    | WithHost(host: GoString)
    | WithPath(path: GoString)
    | WithURL(url: GoString)
    | WithHeader(header: map<GoString, GoString>)
    | WithQuery(query: Values)
    | WithBody(body: Any)
    | WithForm(form: Any)
    | WithJSON(json: Any)
    | WithXML(xml: Any)
    | WithContext(ctx: Option<Context>)
    | WithRequestLogger(reqLogger: Option<Writer>)
    | WithResponseLogger(respLogger: Option<Writer>)

  /** The fields of a `Request` draft other than the built request. */
  datatype Draft = Draft(
    ctx: Option<Context>,
    httpMethod: GoString,
    host: GoString,
    path: GoString,
    url: GoString,
    header: Header,
    query: Values,
    body: Any,
    reqLogger: Option<Writer>,
    respLogger: Option<Writer>)

  /** The draft `NewRequest` starts from: empty header and query maps, every other field unset. */
  const EMPTY_DRAFT: Draft := Draft(None, [], [], [], [], map[], map[], Nil, None, None)

  const METHOD_GET: GoString := Ascii("GET")
  const CONTENT_TYPE: GoString := Ascii("Content-Type")
  const APPLICATION_JSON: GoString := Ascii("application/json")
  const APPLICATION_XML: GoString := Ascii("application/xml")
  const AMPERSAND: GoString := Ascii("&")

  const MISSING_URL_ERROR: Error := StatusError(CODE_MISSING_URL, CODE_UNKNOWN as int, Ascii("no host/url defined"))
  const INVALID_BODY_ERROR: Error := StatusError(CODE_INVALID_BODY, CODE_UNKNOWN as int, Ascii("invalid body type"))
  const INVALID_FORM_ERROR: Error :=
    StatusError(CODE_INVALID_FORM, CODE_UNKNOWN as int, Ascii("invalid form type, must be of type url.Values"))

  // ---------------------------------------------------------------------------
  // Per-key map writes

  /** `base` after writing every entry of `top` into it: a key of `top` takes
      `top`'s value, every other key keeps its own. */
  function Overlay<K, V>(base: map<K, V>, top: map<K, V>): (r: map<K, V>)
    ensures r.Keys == base.Keys + top.Keys
    ensures forall k :: k in top ==> r[k] == top[k]
    ensures forall k :: k in base && k !in top ==> r[k] == base[k]
  {
    base + top
  }

  /** The loop `for k, v := range top { base[k] = v }`, in whatever order the keys come. */
  method OverlayKeys<K, V>(base: map<K, V>, top: map<K, V>) returns (r: map<K, V>)
    ensures r == Overlay(base, top)
  {
    r := base;
    var pending := top.Keys;
    while pending != {}
      invariant pending <= top.Keys
      invariant r.Keys == base.Keys + (top.Keys - pending)
      invariant forall k :: k in top && k !in pending ==> r[k] == top[k]
      invariant forall k :: k in base && (k !in top || k in pending) ==> r[k] == base[k]
      decreases pending
    {
      var k :| k in pending;
      r := r[k := top[k]];
      pending := pending - {k};
    }
  }

  /** What `header.Set(k, v)` writes for every entry of a `map[string]string`:
      the one-element value list `[v]`. */
  function SingleValued(h: map<GoString, GoString>): (r: Header)
    ensures r.Keys == h.Keys
    ensures forall k :: k in h ==> r[k] == [h[k]]
  {
    map k | k in h :: [h[k]]
  }

  // ---------------------------------------------------------------------------
  // Options, on values

  /** What one option does to the draft: a field write, or a failure that
      leaves the draft as it was. */
  function ApplyOption(d: Draft, opt: RequestOption, env: Collaborators): Result<Draft> {
    match opt
    case WithMethod(m) => Ok(d.(httpMethod := m))
    case WithHost(h) => Ok(d.(host := h))
    case WithPath(p) => Ok(d.(path := p))
    case WithURL(u) => Ok(d.(url := u))
    case WithHeader(h) => Ok(d.(header := Overlay(d.header, SingleValued(h))))
    case WithQuery(q) => Ok(d.(query := Overlay(d.query, q)))
    case WithBody(v) => Ok(d.(body := v))
    case WithForm(v) =>
      if v.FormValues? then Ok(d.(body := Buffer(env.encodeValues(v.values)))) else Err(INVALID_FORM_ERROR)
    case WithJSON(v) =>
      (match env.encodeJson(v)
       case Err(e) => Err(e)
       case Ok(bytes) => Ok(d.(header := d.header[CONTENT_TYPE := [APPLICATION_JSON]], body := Buffer(bytes))))
    case WithXML(v) =>
      (match env.encodeXml(v)
       case Err(e) => Err(e)
       case Ok(bytes) => Ok(d.(header := d.header[CONTENT_TYPE := [APPLICATION_XML]], body := Buffer(bytes))))
    case WithContext(c) => Ok(d.(ctx := c))
    case WithRequestLogger(w) => Ok(d.(reqLogger := w))
    case WithResponseLogger(w) => Ok(d.(respLogger := w))
  }

  /** The options applied left to right; the first failure is the result. */
  function ApplyAll(d: Draft, opts: seq<RequestOption>, env: Collaborators): Result<Draft>
    decreases |opts|
  {
    if opts == [] then Ok(d)
    else match ApplyOption(d, opts[0], env)
      case Err(e) => Err(e)
      case Ok(d') => ApplyAll(d', opts[1..], env)
  }

  // ---------------------------------------------------------------------------
  // Finalizing the draft, on values

  /** The body switch: nil gives no body; a reader (a buffer among them), a
      string or a byte slice gives the bytes it holds; anything else is refused. */
  function ResolveBody(v: Any): (r: Result<Option<Stream>>)
    ensures r.Err? <==> v.FormValues? || v.OtherValue?
    ensures r.Err? ==> r.error == INVALID_BODY_ERROR
    ensures v.Nil? <==> r == Ok(None)
    ensures v.Text? ==> r == Ok(Some(v.text))
    ensures v.ByteSlice? ==> r == Ok(Some(v.bytes))
    ensures v.Reader? || v.Buffer? ==> r == Ok(Some(v.content))
  {
    match v
    case Nil => Ok(None)
    case Reader(content) => Ok(Some(content))
    case Buffer(content) => Ok(Some(content))
    case Text(text) => Ok(Some(text))
    case ByteSlice(bytes) => Ok(Some(bytes))
    case FormValues(_) => Err(INVALID_BODY_ERROR)
    case OtherValue(_) => Err(INVALID_BODY_ERROR)
  }

  /** The draft after defaulting, the address and the body stream handed to the transport library. */
  datatype Prepared = Prepared(draft: Draft, uri: GoString, body: Option<Stream>)

  /** The checks and defaults before the transport library is called: the
      method defaults to GET, a draft without host and url is refused before
      its body is looked at, the body is resolved, the address is the url or
      else host and path joined as they are, and the context defaults to
      the background context. */
  function Prepare(d: Draft): Result<Prepared> {
    var d1 := d.(httpMethod := if d.httpMethod == [] then METHOD_GET else d.httpMethod);
    if d1.host == [] && d1.url == [] then Err(MISSING_URL_ERROR)
    else match ResolveBody(d1.body)
      case Err(e) => Err(e)
      case Ok(body) =>
        var uri := if d1.url != [] then d1.url else d1.host + d1.path;
        Ok(Prepared(d1.(ctx := Some(d1.ctx.GetOr(Background))), uri, body))
  }

  /** The raw query after the encoded draft query is appended to it. */
  function AppendRawQuery(raw: GoString, encoded: GoString): (r: GoString)
    ensures |r| == |raw| + (if raw == [] then 0 else 1) + |encoded|
    ensures r[..|raw|] == raw
    ensures r[|r| - |encoded|..] == encoded
    ensures raw != [] ==> r[|raw|] == AMPERSAND[0]
  {
    (if raw == [] then raw else raw + AMPERSAND) + encoded
  }

  /** The built request after the draft's headers are written into it key by
      key and, when the draft has query values, their encoding is appended to
      the raw query. */
  function Decorate(req: HttpRequest, d: Draft, env: Collaborators): HttpRequest {
    var req1 := req.(header := Overlay(req.header, d.header));
    if |d.query| > 0 then req1.(url := req1.url.(rawQuery := AppendRawQuery(req1.url.rawQuery, env.encodeValues(d.query))))
    else req1
  }

  /** What `NewRequest` returns on success: the finalized draft and its transport request. */
  datatype Built = Built(draft: Draft, request: HttpRequest)

  function Finalize(d: Draft, env: Collaborators): Result<Built> {
    match Prepare(d)
    case Err(e) => Err(e)
    case Ok(p) =>
      match env.newRequest(p.draft.ctx.value, p.draft.httpMethod, p.uri, p.body)
      case Err(e) => Err(StatusError(CODE_UNKNOWN, CODE_UNKNOWN as int, ErrorText(e)))
      case Ok(req) => Ok(Built(p.draft, Decorate(req, p.draft, env)))
  }

  /** `NewRequest(opts...)`, on values. */
  function Build(opts: seq<RequestOption>, env: Collaborators): Result<Built> {
    match ApplyAll(EMPTY_DRAFT, opts, env)
    case Err(e) => Err(e)
    case Ok(d) => Finalize(d, env)
  }

  /** Applying `a + b` is applying `a`, then `b` to what `a` left, unless `a` failed. */
  lemma {:induction false} ApplyAllAppend(d: Draft, a: seq<RequestOption>, b: seq<RequestOption>, env: Collaborators)
    ensures ApplyAll(d, a + b, env) ==
      match ApplyAll(d, a, env)
      case Err(e) => Err(e)
      case Ok(d') => ApplyAll(d', b, env)
    decreases |a|
  {
    if a == [] {
      assert a + b == b;
    } else {
      assert (a + b)[0] == a[0];
      assert (a + b)[1..] == a[1..] + b;
      match ApplyOption(d, a[0], env)
      case Err(e) =>
      case Ok(d') => ApplyAllAppend(d', a[1..], b, env);
    }
  }

  // ---------------------------------------------------------------------------
  // The draft object

  /** A request under construction, updated in place by the options, and the
      finalized request once `NewRequest` succeeds. */
  class Request {
    var request: Option<HttpRequest>
    var ctx: Option<Context>
    var httpMethod: GoString
    var host: GoString
    var path: GoString
    var url: GoString
    var header: Header
    var query: Values
    var body: Any
    var reqLogger: Option<Writer>
    var respLogger: Option<Writer>

    constructor ()
      ensures request == None && Snapshot() == EMPTY_DRAFT
    {
      request := None;
      ctx := None;
      httpMethod, host, path, url := [], [], [], [];
      header, query := map[], map[];
      body := Nil;
      reqLogger, respLogger := None, None;
    }

    /** The draft fields as a value. */
    function Snapshot(): Draft
      reads this
    {
      Draft(ctx, httpMethod, host, path, url, header, query, body, reqLogger, respLogger)
    }

    /** Runs one option's closure on this draft. */
    method Apply(opt: RequestOption, env: Collaborators) returns (err: Option<Error>)
      modifies this
      ensures request == old(request)
      ensures ApplyOption(old(Snapshot()), opt, env).Ok? ==>
        err == None && Snapshot() == ApplyOption(old(Snapshot()), opt, env).value
      ensures ApplyOption(old(Snapshot()), opt, env).Err? ==>
        err == Some(ApplyOption(old(Snapshot()), opt, env).error) && Snapshot() == old(Snapshot())
    {
      err := None;
      match opt
      case WithMethod(m) => httpMethod := m;
      case WithHost(h) => host := h;
      case WithPath(p) => path := p;
      case WithURL(u) => url := u;
      case WithHeader(h) => header := OverlayKeys(header, SingleValued(h));
      case WithQuery(q) => query := OverlayKeys(query, q);
      case WithBody(v) => body := v;
      case WithForm(v) =>
        if !v.FormValues? {
          return Some(INVALID_FORM_ERROR);
        }
        body := Buffer(env.encodeValues(v.values));
      case WithJSON(v) =>
        var encoded := env.encodeJson(v);
        if encoded.Err? {
          return Some(encoded.error);
        }
        header := header[CONTENT_TYPE := [APPLICATION_JSON]];
        body := Buffer(encoded.value);
      case WithXML(v) =>
        var encoded := env.encodeXml(v);
        if encoded.Err? {
          return Some(encoded.error);
        }
        header := header[CONTENT_TYPE := [APPLICATION_XML]];
        body := Buffer(encoded.value);
      case WithContext(c) => ctx := c;
      case WithRequestLogger(w) => reqLogger := w;
      case WithResponseLogger(w) => respLogger := w;
    }

    /** The checks and defaults of `NewRequest` after the options, up to the
        call of the transport library: on success, the address and the body stream. */
    method Resolve() returns (res: Result<(GoString, Option<Stream>)>)
      modifies this
      ensures request == old(request)
      ensures Prepare(old(Snapshot())).Err? ==> res == Err(Prepare(old(Snapshot())).error)
      ensures Prepare(old(Snapshot())).Ok? ==>
        && Snapshot() == Prepare(old(Snapshot())).value.draft
        && res == Ok((Prepare(old(Snapshot())).value.uri, Prepare(old(Snapshot())).value.body))
    {
      if httpMethod == [] {
        httpMethod := METHOD_GET;
      }
      if host == [] && url == [] {
        return Err(MISSING_URL_ERROR);
      }

      var stream: Option<Stream>;
      match body {
        case Nil => stream := None;
        case Reader(content) => stream := Some(content);
        case Buffer(content) => stream := Some(content);
        case Text(text) => stream := Some(text);
        case ByteSlice(bytes) => stream := Some(bytes);
        case FormValues(_) => return Err(INVALID_BODY_ERROR);
        case OtherValue(_) => return Err(INVALID_BODY_ERROR);
      }

      var uri := url;
      if uri == [] {
        uri := host + path;
      }

      if ctx == None {
        ctx := Some(Background);
      }
      return Ok((uri, stream));
    }

    /** The steps of `NewRequest` after the options: defaults and checks, the
        transport library's constructor, then the draft's headers and query. */
    method Finish(env: Collaborators) returns (err: Option<Error>)
      modifies this
      ensures Finalize(old(Snapshot()), env).Err? ==> err == Some(Finalize(old(Snapshot()), env).error)
      ensures Finalize(old(Snapshot()), env).Ok? ==>
        && err == None
        && Snapshot() == Finalize(old(Snapshot()), env).value.draft
        && request == Some(Finalize(old(Snapshot()), env).value.request)
    {
      var resolved := Resolve();
      if resolved.Err? {
        return Some(resolved.error);
      }
      var (uri, stream) := resolved.value;

      var built := env.newRequest(ctx.value, httpMethod, uri, stream);
      if built.Err? {
        return Some(StatusError(CODE_UNKNOWN, CODE_UNKNOWN as int, ErrorText(built.error)));
      }
      var req := built.value;

      var merged := OverlayKeys(req.header, header);
      req := req.(header := merged);

      if |query| > 0 {
        var raw := req.url.rawQuery;
        ghost var raw0 := raw;
        if |raw| > 0 {
          raw := raw + AMPERSAND;
        }
        raw := raw + env.encodeValues(query);
        assert raw == AppendRawQuery(raw0, env.encodeValues(query));
        req := req.(url := req.url.(rawQuery := raw));
      }
      assert req == Decorate(built.value, Snapshot(), env);

      request := Some(req);
      return None;
    }
  }

  /** `NewRequest(opts...)`: a fresh draft, the options in order (the first
      failure is returned as it is), then the finalizing steps. */
  method NewRequest(opts: seq<RequestOption>, env: Collaborators) returns (r: Request?, err: Option<Error>)
    ensures Build(opts, env).Err? ==> r == null && err == Some(Build(opts, env).error)
    ensures Build(opts, env).Ok? ==>
      && r != null && fresh(r) && err == None
      && r.Snapshot() == Build(opts, env).value.draft
      && r.request == Some(Build(opts, env).value.request)
  {
    var d := new Request();
    var i := 0;
    while i < |opts|
      invariant 0 <= i <= |opts|
      invariant ApplyAll(EMPTY_DRAFT, opts[..i], env) == Ok(d.Snapshot())
    {
      var e := d.Apply(opts[i], env);
      ApplyAllAppend(EMPTY_DRAFT, opts[..i], [opts[i]], env);
      assert opts[..i + 1] == opts[..i] + [opts[i]];
      if e.Some? {
        ApplyAllAppend(EMPTY_DRAFT, opts[..i], opts[i..], env);
        assert opts[..i] + opts[i..] == opts;
        return null, e;
      }
      i := i + 1;
    }
    assert opts[..i] == opts;
    err := d.Finish(env);
    r := if err == None then d else null;
  }
}
