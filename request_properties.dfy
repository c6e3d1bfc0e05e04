/** What the request builder promises about option order, overriding,
    addressing, bodies, headers, queries and its errors, proved of the value
    model in `RequestBuilder` (which `NewRequest` and the draft's methods are
    proved against). */
module RequestProperties {
  import opened GoTypes
  import opened StatusErrors
  import opened RequestBuilder

  /** The draft after the options, before finalizing. */
  function Folded(opts: seq<RequestOption>, env: Collaborators): Result<Draft> {
    ApplyAll(EMPTY_DRAFT, opts, env)
  }

  // ---------------------------------------------------------------------------
  // Order and failure

  /** The first failing option decides: its error, unchanged, is the result
      of `NewRequest`, whatever options come after it. */
  lemma FirstFailureAborts(opts: seq<RequestOption>, i: nat, rest: seq<RequestOption>, env: Collaborators)
    requires i < |opts|
    requires Folded(opts[..i], env).Ok?
    requires ApplyOption(Folded(opts[..i], env).value, opts[i], env).Err?
    ensures Build(opts[..i + 1] + rest, env) == Err(ApplyOption(Folded(opts[..i], env).value, opts[i], env).error)
  {
    ApplyAllAppend(EMPTY_DRAFT, opts[..i], [opts[i]] + rest, env);
    assert opts[..i + 1] + rest == opts[..i] + ([opts[i]] + rest);
  }

  /** A successful fold of `a + b` passes through a successful fold of `a`. */
  lemma PrefixSucceeds(d: Draft, a: seq<RequestOption>, b: seq<RequestOption>, env: Collaborators)
    requires ApplyAll(d, a + b, env).Ok?
    ensures ApplyAll(d, a, env).Ok?
    ensures ApplyAll(ApplyAll(d, a, env).value, b, env) == ApplyAll(d, a + b, env)
  {
    ApplyAllAppend(d, a, b, env);
  }

  // ---------------------------------------------------------------------------
  // Scalar fields: the last write wins

  datatype Field = MethodField | HostField | PathField | UrlField | BodyField

  datatype FieldValue = Str(s: GoString) | Payload(v: Any)

  function Get(d: Draft, f: Field): FieldValue {
    match f
    case MethodField => Str(d.httpMethod)
    case HostField => Str(d.host)
    case PathField => Str(d.path)
    case UrlField => Str(d.url)
    case BodyField => Payload(d.body)
  }

  /** Whether an option may write field `f`. */
  predicate Touches(opt: RequestOption, f: Field) {
    match f
    case MethodField => opt.WithMethod?
    case HostField => opt.WithHost?
    case PathField => opt.WithPath?
    case UrlField => opt.WithURL?
    case BodyField => opt.WithBody? || opt.WithForm? || opt.WithJSON? || opt.WithXML?
  }

  /** The value an option writes to `f` when that value is its argument. */
  function Assigned(opt: RequestOption, f: Field): Option<FieldValue> {
    match opt
    case WithMethod(m) => if f == MethodField then Some(Str(m)) else None
    case WithHost(h) => if f == HostField then Some(Str(h)) else None
    case WithPath(p) => if f == PathField then Some(Str(p)) else None
    case WithURL(u) => if f == UrlField then Some(Str(u)) else None
    case WithBody(v) => if f == BodyField then Some(Payload(v)) else None
    case _ => None
  }

  /** Options that do not touch a field leave it as it was. */
  lemma {:induction false} FieldUntouched(d: Draft, opts: seq<RequestOption>, f: Field, env: Collaborators)
    requires forall j :: 0 <= j < |opts| ==> !Touches(opts[j], f)
    requires ApplyAll(d, opts, env).Ok?
    ensures Get(ApplyAll(d, opts, env).value, f) == Get(d, f)
    decreases |opts|
  {
    if opts != [] {
      var d' := ApplyOption(d, opts[0], env).value;
      assert !Touches(opts[0], f);
      assert Get(d', f) == Get(d, f);
      FieldUntouched(d', opts[1..], f, env);
    }
  }

  /** Method, host, path, url and body are overwritten: after a successful
      fold each holds what the last option that wrote it put there. */
  lemma LastWriteWins(d: Draft, opts: seq<RequestOption>, i: nat, f: Field, env: Collaborators)
    requires i < |opts| && Assigned(opts[i], f).Some?
    requires forall j :: i < j < |opts| ==> !Touches(opts[j], f)
    requires ApplyAll(d, opts, env).Ok?
    ensures Get(ApplyAll(d, opts, env).value, f) == Assigned(opts[i], f).value
  {
    assert opts == opts[..i] + [opts[i]] + opts[i + 1..];
    assert opts[..i] + [opts[i]] + opts[i + 1..] == opts[..i] + ([opts[i]] + opts[i + 1..]);
    PrefixSucceeds(d, opts[..i], [opts[i]] + opts[i + 1..], env);
    var di := ApplyAll(d, opts[..i], env).value;
    assert ([opts[i]] + opts[i + 1..])[1..] == opts[i + 1..];
    var di' := ApplyOption(di, opts[i], env).value;
    assert Get(di', f) == Assigned(opts[i], f).value;
    FieldUntouched(di', opts[i + 1..], f, env);
  }

  /** Default options come first: an option of the call beats a default
      option that wrote the same field. */
  lemma CallOptionBeatsDefault(defaults: seq<RequestOption>, opts: seq<RequestOption>, i: nat, f: Field, env: Collaborators)
    requires i < |opts| && Assigned(opts[i], f).Some?
    requires forall j :: i < j < |opts| ==> !Touches(opts[j], f)
    requires Folded(defaults + opts, env).Ok?
    ensures Get(Folded(defaults + opts, env).value, f) == Assigned(opts[i], f).value
  {
    var all := defaults + opts;
    forall j | |defaults| + i < j < |all|
      ensures !Touches(all[j], f)
    {
      assert all[j] == opts[j - |defaults|];
    }
    LastWriteWins(EMPTY_DRAFT, all, |defaults| + i, f, env);
  }

  // ---------------------------------------------------------------------------
  // Method and address

  /** After finalizing, an unset method is GET and a set one is kept. */
  lemma MethodDefaultsToGet(d: Draft)
    requires Prepare(d).Ok?
    ensures d.httpMethod == [] ==> Prepare(d).value.draft.httpMethod == METHOD_GET
    ensures d.httpMethod != [] ==> Prepare(d).value.draft.httpMethod == d.httpMethod
    ensures |Prepare(d).value.draft.httpMethod| > 0
  {
  }

  /** Options that never set a host or a url make `NewRequest` fail with the
      missing-url error, whatever body they set. */
  lemma NoAddressFails(opts: seq<RequestOption>, env: Collaborators)
    requires forall j :: 0 <= j < |opts| ==> !opts[j].WithHost? && !opts[j].WithURL?
    requires Folded(opts, env).Ok?
    ensures Build(opts, env) == Err(MISSING_URL_ERROR)
  {
    assert forall j :: 0 <= j < |opts| ==> !Touches(opts[j], HostField);
    FieldUntouched(EMPTY_DRAFT, opts, HostField, env);
    assert forall j :: 0 <= j < |opts| ==> !Touches(opts[j], UrlField);
    FieldUntouched(EMPTY_DRAFT, opts, UrlField, env);
  }

  /** A non-empty url set by the last `WithURL` is the address, whatever
      hosts and paths were set before or after it; the url check never fails then. */
  lemma UrlTakesPrecedence(opts: seq<RequestOption>, i: nat, env: Collaborators)
    requires i < |opts| && opts[i].WithURL? && opts[i].url != []
    requires forall j :: i < j < |opts| ==> !opts[j].WithURL?
    requires Folded(opts, env).Ok?
    ensures Prepare(Folded(opts, env).value).Err? ==> Prepare(Folded(opts, env).value).error == INVALID_BODY_ERROR
    ensures Prepare(Folded(opts, env).value).Ok? ==> Prepare(Folded(opts, env).value).value.uri == opts[i].url
  {
    LastWriteWins(EMPTY_DRAFT, opts, i, UrlField, env);
  }

  /** Without a url, the address is host and path joined as they are, with no
      slash added or removed. */
  lemma HostPathAddress(opts: seq<RequestOption>, env: Collaborators)
    requires forall j :: 0 <= j < |opts| ==> !opts[j].WithURL?
    requires Folded(opts, env).Ok? && Folded(opts, env).value.host != []
    ensures Prepare(Folded(opts, env).value).Ok? ==>
      Prepare(Folded(opts, env).value).value.uri == Folded(opts, env).value.host + Folded(opts, env).value.path
  {
    assert forall j :: 0 <= j < |opts| ==> !Touches(opts[j], UrlField);
    FieldUntouched(EMPTY_DRAFT, opts, UrlField, env);
  }

  /** Method, host and path alone always build: the address is host then path. */
  lemma MethodHostPathBuilds(m: GoString, h: GoString, p: GoString, env: Collaborators)
    requires h != []
    ensures Folded([WithMethod(m), WithHost(h), WithPath(p)], env).Ok?
    ensures var d := Folded([WithMethod(m), WithHost(h), WithPath(p)], env).value;
      Prepare(d).Ok? && Prepare(d).value.uri == h + p && Prepare(d).value.body == None
  {
    var d1 := EMPTY_DRAFT.(httpMethod := m);
    var d2 := d1.(host := h);
    var d3 := d2.(path := p);
    assert ApplyAll(d3, [], env) == Ok(d3);
    assert [WithPath(p)][1..] == [];
    assert ApplyAll(d2, [WithPath(p)], env) == Ok(d3);
    assert [WithHost(h), WithPath(p)][1..] == [WithPath(p)];
    assert ApplyAll(d1, [WithHost(h), WithPath(p)], env) == Ok(d3);
    assert [WithMethod(m), WithHost(h), WithPath(p)][1..] == [WithHost(h), WithPath(p)];
    assert Folded([WithMethod(m), WithHost(h), WithPath(p)], env) == Ok(d3);
  }

  // ---------------------------------------------------------------------------
  // Body

  /** The last `WithBody` decides the body stream: nil gives none, a reader,
      a string or a byte slice gives exactly its bytes, any other value is
      refused with the invalid-body error. */
  lemma LastBodyDecidesStream(opts: seq<RequestOption>, i: nat, env: Collaborators)
    requires i < |opts| && opts[i].WithBody?
    requires forall j :: i < j < |opts| ==> !Touches(opts[j], BodyField)
    requires Folded(opts, env).Ok?
    requires Folded(opts, env).value.host != [] || Folded(opts, env).value.url != []
    ensures Prepare(Folded(opts, env).value).Ok? <==> ResolveBody(opts[i].body).Ok?
    ensures Prepare(Folded(opts, env).value).Err? ==> Prepare(Folded(opts, env).value).error == INVALID_BODY_ERROR
    ensures opts[i].body.Text? ==> Prepare(Folded(opts, env).value).value.body == Some(opts[i].body.text)
    ensures opts[i].body.ByteSlice? ==> Prepare(Folded(opts, env).value).value.body == Some(opts[i].body.bytes)
    ensures opts[i].body.Nil? ==> Prepare(Folded(opts, env).value).value.body == None
  {
    LastWriteWins(EMPTY_DRAFT, opts, i, BodyField, env);
  }

  /** `WithForm` accepts only `url.Values`; anything else fails and leaves the draft alone. */
  lemma FormNeedsValues(d: Draft, v: Any, env: Collaborators)
    ensures ApplyOption(d, WithForm(v), env).Err? <==> !v.FormValues?
    ensures ApplyOption(d, WithForm(v), env).Err? ==> ApplyOption(d, WithForm(v), env).error == INVALID_FORM_ERROR
    ensures v.FormValues? ==> ApplyOption(d, WithForm(v), env) == Ok(d.(body := Buffer(env.encodeValues(v.values))))
  {
  }

  // ---------------------------------------------------------------------------
  // Headers, JSON and XML

  /** `WithJSON` sets the content type and the body when it applies; an
      encoder failure is returned as it is and nothing is written. */
  lemma JsonOption(d: Draft, v: Any, env: Collaborators)
    ensures env.encodeJson(v).Err? ==> ApplyOption(d, WithJSON(v), env) == Err(env.encodeJson(v).error)
    ensures env.encodeJson(v).Ok? ==>
      && ApplyOption(d, WithJSON(v), env).Ok?
      && ApplyOption(d, WithJSON(v), env).value.header[CONTENT_TYPE] == [APPLICATION_JSON]
      && ApplyOption(d, WithJSON(v), env).value.body == Buffer(env.encodeJson(v).value)
      && ApplyOption(d, WithJSON(v), env).value.query == d.query
  {
  }

  /** `WithXML`, likewise with the XML content type. */
  lemma XmlOption(d: Draft, v: Any, env: Collaborators)
    ensures env.encodeXml(v).Err? ==> ApplyOption(d, WithXML(v), env) == Err(env.encodeXml(v).error)
    ensures env.encodeXml(v).Ok? ==>
      && ApplyOption(d, WithXML(v), env).Ok?
      && ApplyOption(d, WithXML(v), env).value.header[CONTENT_TYPE] == [APPLICATION_XML]
      && ApplyOption(d, WithXML(v), env).value.body == Buffer(env.encodeXml(v).value)
  {
  }

  /** The content type is written when the option is applied, so a later
      `WithHeader` that names it wins. */
  lemma LaterHeaderOverridesJson(d: Draft, v: Any, h: map<GoString, GoString>, env: Collaborators)
    requires env.encodeJson(v).Ok? && CONTENT_TYPE in h
    ensures ApplyAll(d, [WithJSON(v), WithHeader(h)], env).Ok?
    ensures CONTENT_TYPE in ApplyAll(d, [WithJSON(v), WithHeader(h)], env).value.header
    ensures ApplyAll(d, [WithJSON(v), WithHeader(h)], env).value.header[CONTENT_TYPE] == [h[CONTENT_TYPE]]
  {
    var d1 := ApplyOption(d, WithJSON(v), env).value;
    var d2 := ApplyOption(d1, WithHeader(h), env).value;
    assert [WithHeader(h)][1..] == [];
    assert ApplyAll(d1, [WithHeader(h)], env) == Ok(d2);
    assert [WithJSON(v), WithHeader(h)][1..] == [WithHeader(h)];
    assert ApplyAll(d, [WithJSON(v), WithHeader(h)], env) == Ok(d2);
  }

  /** `WithHeader` replaces the value list of each key it names with that one
      value and leaves the other keys alone. */
  lemma HeaderOption(d: Draft, h: map<GoString, GoString>, env: Collaborators)
    ensures ApplyOption(d, WithHeader(h), env).Ok?
    ensures var r := ApplyOption(d, WithHeader(h), env).value.header;
      && r.Keys == d.header.Keys + h.Keys
      && (forall k :: k in h ==> r[k] == [h[k]])
      && (forall k :: k in d.header && k !in h ==> r[k] == d.header[k])
  {
  }

  /** `WithQuery` replaces the whole value list of each key it names and
      leaves the other keys alone. */
  lemma QueryOption(d: Draft, q: Values, env: Collaborators)
    ensures ApplyOption(d, WithQuery(q), env).Ok?
    ensures var r := ApplyOption(d, WithQuery(q), env).value.query;
      && r.Keys == d.query.Keys + q.Keys
      && (forall k :: k in q ==> r[k] == q[k])
      && (forall k :: k in d.query && k !in q ==> r[k] == d.query[k])
  {
  }

  /** Two `WithQuery` options naming the same key do not accumulate: the second list replaces the first. */
  lemma QueryDoesNotAccumulate(d: Draft, k: GoString, a: GoString, b: GoString, env: Collaborators)
    ensures ApplyAll(d, [WithQuery(map[k := [a]]), WithQuery(map[k := [b]])], env).Ok?
    ensures k in ApplyAll(d, [WithQuery(map[k := [a]]), WithQuery(map[k := [b]])], env).value.query
    ensures ApplyAll(d, [WithQuery(map[k := [a]]), WithQuery(map[k := [b]])], env).value.query[k] == [b]
  {
    var d1 := ApplyOption(d, WithQuery(map[k := [a]]), env).value;
    var d2 := ApplyOption(d1, WithQuery(map[k := [b]]), env).value;
    assert [WithQuery(map[k := [b]])][1..] == [];
    assert ApplyAll(d1, [WithQuery(map[k := [b]])], env) == Ok(d2);
    assert [WithQuery(map[k := [a]]), WithQuery(map[k := [b]])][1..] == [WithQuery(map[k := [b]])];
    assert ApplyAll(d, [WithQuery(map[k := [a]]), WithQuery(map[k := [b]])], env) == Ok(d2);
  }

  // ---------------------------------------------------------------------------
  // Finalizing the transport request

  /** The draft's headers overwrite the transport request's per key and leave
      its other keys; an empty draft query leaves the raw query as it was,
      any other is appended to it, after an `&` only if it was not empty. */
  lemma DecorateMergesHeadersAndQuery(req: HttpRequest, d: Draft, env: Collaborators)
    ensures var r := Decorate(req, d, env);
      && (forall k :: k in d.header ==> k in r.header && r.header[k] == d.header[k])
      && (forall k :: k in req.header && k !in d.header ==> k in r.header && r.header[k] == req.header[k])
      && (forall k :: k in r.header ==> k in req.header || k in d.header)
      && (|d.query| == 0 ==> r.url == req.url)
      && (|d.query| > 0 ==> r.url.rawQuery == AppendRawQuery(req.url.rawQuery, env.encodeValues(d.query)))
      && r.ctx == req.ctx && r.httpMethod == req.httpMethod && r.body == req.body
  {
  }

  // ---------------------------------------------------------------------------
  // Errors of the builder

  /** Encoders that report their own errors, never the package's. */
  ghost predicate ForeignEncoders(env: Collaborators) {
    && (forall v :: env.encodeJson(v).Err? ==> env.encodeJson(v).error.ForeignError?)
    && (forall v :: env.encodeXml(v).Err? ==> env.encodeXml(v).error.ForeignError?)
  }

  /** An option fails with the invalid-form error or with an encoder's own error. */
  lemma {:induction false} FoldErrors(d: Draft, opts: seq<RequestOption>, env: Collaborators)
    requires ForeignEncoders(env)
    requires ApplyAll(d, opts, env).Err?
    ensures ApplyAll(d, opts, env).error == INVALID_FORM_ERROR || ApplyAll(d, opts, env).error.ForeignError?
    decreases |opts|
  {
    match ApplyOption(d, opts[0], env)
    case Err(e) =>
    case Ok(d') => FoldErrors(d', opts[1..], env);
  }

  /** With encoders that report their own errors, `NewRequest` fails only
      with the missing-url, invalid-body, invalid-form or unknown code: it
      never reports a bad status, and never the encoding-error code. */
  lemma BuildErrorCodes(opts: seq<RequestOption>, env: Collaborators)
    requires ForeignEncoders(env)
    requires Build(opts, env).Err?
    ensures var c := Code(Some(Build(opts, env).error));
      c == CODE_MISSING_URL || c == CODE_INVALID_BODY || c == CODE_INVALID_FORM || c == CODE_UNKNOWN
  {
    if Folded(opts, env).Err? {
      FoldErrors(EMPTY_DRAFT, opts, env);
    }
  }
}
