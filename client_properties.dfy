/** What the client promises: how client options accumulate, in which order
    the pipeline's stages run and stop, and how a response is classified,
    proved of the value model in `ClientPipeline`. */
module ClientProperties {
  import opened GoTypes
  import opened StatusErrors
  import opened RequestBuilder
  import opened ClientPipeline

  // ---------------------------------------------------------------------------
  // NewClient

  /** With several `WithHTTPClient` options, the last one decides the transport. */
  lemma {:induction false} LastHttpClientWins(opts: seq<ClientOption>, i: nat, defaultClient: HttpClient)
    requires i < |opts| && opts[i].WithHTTPClient? && opts[i].httpClient != null
    requires forall j :: i < j < |opts| ==> !opts[j].WithHTTPClient?
    ensures NewClientConfig(opts, defaultClient).httpClient == opts[i].httpClient
    decreases |opts|
  {
    if i < |opts| - 1 {
      var init := opts[..|opts| - 1];
      assert forall j :: i < j < |init| ==> init[j] == opts[j];
      LastHttpClientWins(init, i, defaultClient);
    } else {
      assert opts[|opts| - 1] == opts[i];
    }
  }

  /** Without a `WithHTTPClient`, the client uses the default transport. */
  lemma {:induction false} DefaultTransportWhenUnset(opts: seq<ClientOption>, defaultClient: HttpClient)
    requires forall j :: 0 <= j < |opts| ==> !opts[j].WithHTTPClient?
    ensures ApplyClientOptions(EMPTY_CONFIG, opts).httpClient == null
    ensures NewClientConfig(opts, defaultClient).httpClient == defaultClient
    decreases |opts|
  {
    if opts != [] {
      var init := opts[..|opts| - 1];
      assert forall j :: 0 <= j < |init| ==> init[j] == opts[j];
      DefaultTransportWhenUnset(init, defaultClient);
    }
  }

  /** The validators registered by the options, in the order of the options. */
  function ValidatorsOf(opts: seq<ClientOption>): seq<Validator>
    decreases |opts|
  {
    if opts == [] then []
    else (if opts[0].WithRequestValidation? then [opts[0].fn] else []) + ValidatorsOf(opts[1..])
  }

  /** The default options registered by the options, list after list, in the order of the options. */
  function DefaultOptionsOf(opts: seq<ClientOption>): seq<RequestOption>
    decreases |opts|
  {
    if opts == [] then []
    else (if opts[0].WithDefaultOptions? then opts[0].opts else []) + DefaultOptionsOf(opts[1..])
  }

  lemma {:induction false} ValidatorsOfSnoc(opts: seq<ClientOption>, last: ClientOption)
    ensures ValidatorsOf(opts + [last]) ==
      ValidatorsOf(opts) + (if last.WithRequestValidation? then [last.fn] else [])
    decreases |opts|
  {
    if opts == [] {
      assert [last][1..] == [];
    } else {
      var s := opts + [last];
      assert s[0] == opts[0] && s[1..] == opts[1..] + [last];
      var head := if opts[0].WithRequestValidation? then [opts[0].fn] else [];
      var tail := if last.WithRequestValidation? then [last.fn] else [];
      ValidatorsOfSnoc(opts[1..], last);
      assert ValidatorsOf(s) == head + (ValidatorsOf(opts[1..]) + tail);
      assert ValidatorsOf(opts) == head + ValidatorsOf(opts[1..]);
    }
  }

  lemma {:induction false} DefaultOptionsOfSnoc(opts: seq<ClientOption>, last: ClientOption)
    ensures DefaultOptionsOf(opts + [last]) ==
      DefaultOptionsOf(opts) + (if last.WithDefaultOptions? then last.opts else [])
    decreases |opts|
  {
    if opts == [] {
      assert [last][1..] == [];
    } else {
      var s := opts + [last];
      assert s[0] == opts[0] && s[1..] == opts[1..] + [last];
      var head := if opts[0].WithDefaultOptions? then opts[0].opts else [];
      var tail := if last.WithDefaultOptions? then last.opts else [];
      DefaultOptionsOfSnoc(opts[1..], last);
      assert DefaultOptionsOf(s) == head + (DefaultOptionsOf(opts[1..]) + tail);
      assert DefaultOptionsOf(opts) == head + DefaultOptionsOf(opts[1..]);
    }
  }

  /** `WithDefaultOptions` and `WithRequestValidation` append: the client
      ends up with every registration, earlier ones first. */
  lemma {:induction false} RegistrationsAppend(opts: seq<ClientOption>, defaultClient: HttpClient)
    ensures NewClientConfig(opts, defaultClient).requestValidators == ValidatorsOf(opts)
    ensures NewClientConfig(opts, defaultClient).defaultOptions == DefaultOptionsOf(opts)
    decreases |opts|
  {
    if opts != [] {
      var init := opts[..|opts| - 1];
      RegistrationsAppend(init, defaultClient);
      assert opts == init + [opts[|opts| - 1]];
      ValidatorsOfSnoc(init, opts[|opts| - 1]);
      DefaultOptionsOfSnoc(init, opts[|opts| - 1]);
    }
  }

  // ---------------------------------------------------------------------------
  // Validators

  /** The first rejection is the answer of a validator that rejects, with
      every validator before it accepting; there is none exactly when every
      validator accepts. */
  lemma {:induction false} FirstRejectionIsFirst(validators: seq<Validator>, req: HttpRequest)
    ensures FirstRejection(validators, req).None? <==> forall i :: 0 <= i < |validators| ==> validators[i](req).None?
    ensures FirstRejection(validators, req).Some? ==>
      exists i :: 0 <= i < |validators| && validators[i](req) == FirstRejection(validators, req)
        && forall j :: 0 <= j < i ==> validators[j](req).None?
    decreases |validators|
  {
    if validators != [] {
      FirstRejectionIsFirst(validators[1..], req);
      if validators[0](req).None? && FirstRejection(validators, req).Some? {
        var k :| 0 <= k < |validators[1..]| && validators[1..][k](req) == FirstRejection(validators, req)
          && forall j :: 0 <= j < k ==> validators[1..][j](req).None?;
        assert validators[k + 1](req) == FirstRejection(validators, req);
        assert forall j :: 0 <= j < k + 1 ==> validators[j](req).None? by {
          forall j | 0 <= j < k + 1 ensures validators[j](req).None? {
            if j > 0 { assert validators[j] == validators[1..][j - 1]; }
          }
        }
      }
      if forall i :: 0 <= i < |validators| ==> validators[i](req).None? {
        assert forall i :: 0 <= i < |validators[1..]| ==> validators[1..][i](req).None?;
      }
    }
  }

  // ---------------------------------------------------------------------------
  // The stages of Do

  /** A build failure is returned as it is, with no response, before any
      validator or the transport runs. */
  lemma BuildFailureStops(c: ClientConfig, opts: seq<RequestOption>, env: Collaborators, sinks: Sinks)
    requires c.httpClient != null
    requires Build(c.defaultOptions + opts, env).Err?
    ensures DoSpec(c, opts, env, sinks) == DoResult(None, Some(Build(c.defaultOptions + opts, env).error), false)
  {
  }

  /** The first validator that rejects the built request decides: its error is
      returned as it is, with no response, and the transport is not used. */
  lemma ValidatorRejectionStops(c: ClientConfig, opts: seq<RequestOption>, env: Collaborators, sinks: Sinks, i: nat)
    requires c.httpClient != null
    requires Build(c.defaultOptions + opts, env).Ok?
    requires i < |c.requestValidators|
    requires c.requestValidators[i](Build(c.defaultOptions + opts, env).value.request).Some?
    requires forall j :: 0 <= j < i ==> c.requestValidators[j](Build(c.defaultOptions + opts, env).value.request).None?
    ensures DoSpec(c, opts, env, sinks) ==
      DoResult(None, c.requestValidators[i](Build(c.defaultOptions + opts, env).value.request), false)
  {
    var req := Build(c.defaultOptions + opts, env).value.request;
    FirstRejectionIsFirst(c.requestValidators, req);
    var k :| 0 <= k < |c.requestValidators| && c.requestValidators[k](req) == FirstRejection(c.requestValidators, req)
      && forall j :: 0 <= j < k ==> c.requestValidators[j](req).None?;
    assert k == i;
  }

  /** A transport error is returned as it is, with no response; the transport's
      own errors therefore read as CODE_UNKNOWN. */
  lemma TransportErrorReturned(c: ClientConfig, opts: seq<RequestOption>, env: Collaborators, sinks: Sinks)
    requires c.httpClient != null
    requires Build(c.defaultOptions + opts, env).Ok?
    requires forall j :: 0 <= j < |c.requestValidators| ==> c.requestValidators[j](Build(c.defaultOptions + opts, env).value.request).None?
    requires sinks.dumpRequest(Build(c.defaultOptions + opts, env).value.request).None?
    requires c.httpClient.exchange(Build(c.defaultOptions + opts, env).value.request).Err?
    ensures DoSpec(c, opts, env, sinks) ==
      DoResult(None, Some(c.httpClient.exchange(Build(c.defaultOptions + opts, env).value.request).error), true)
    ensures c.httpClient.exchange(Build(c.defaultOptions + opts, env).value.request).error.ForeignError? ==>
      Code(DoSpec(c, opts, env, sinks).err) == CODE_UNKNOWN
  {
    FirstRejectionIsFirst(c.requestValidators, Build(c.defaultOptions + opts, env).value.request);
  }

  /** A response that arrives (and whose dump, if any, is written) is
      returned wrapped, with nil for a 2xx status and a bad-status error
      carrying the status otherwise. */
  lemma ResponseClassified(c: ClientConfig, opts: seq<RequestOption>, env: Collaborators, sinks: Sinks)
    requires c.httpClient != null
    requires Build(c.defaultOptions + opts, env).Ok?
    requires forall j :: 0 <= j < |c.requestValidators| ==> c.requestValidators[j](Build(c.defaultOptions + opts, env).value.request).None?
    requires sinks.dumpRequest(Build(c.defaultOptions + opts, env).value.request).None?
    requires c.httpClient.exchange(Build(c.defaultOptions + opts, env).value.request).Ok?
    requires var lg := Build(c.defaultOptions + opts, env).value.draft.respLogger;
      lg.None? || sinks.dumpResponse(lg.value, c.httpClient.exchange(Build(c.defaultOptions + opts, env).value.request).value).None?
    ensures var raw := c.httpClient.exchange(Build(c.defaultOptions + opts, env).value.request).value;
      var o := DoSpec(c, opts, env, sinks);
      && o.sent && o.response == Some(Response(raw))
      && (o.err.None? <==> 200 <= raw.statusCode <= 299)
      && (o.err.Some? ==> Code(o.err) == CODE_BAD_RESPONSE_STATUS && o.err.value.statusCode == raw.statusCode)
  {
    FirstRejectionIsFirst(c.requestValidators, Build(c.defaultOptions + opts, env).value.request);
  }

  /** A response logger whose dump fails turns the answer into that error:
      the response that arrived is dropped and its status is not looked at. */
  lemma ResponseDumpFailureStops(c: ClientConfig, opts: seq<RequestOption>, env: Collaborators, sinks: Sinks)
    requires c.httpClient != null
    requires Build(c.defaultOptions + opts, env).Ok?
    requires forall j :: 0 <= j < |c.requestValidators| ==> c.requestValidators[j](Build(c.defaultOptions + opts, env).value.request).None?
    requires sinks.dumpRequest(Build(c.defaultOptions + opts, env).value.request).None?
    requires c.httpClient.exchange(Build(c.defaultOptions + opts, env).value.request).Ok?
    requires var lg := Build(c.defaultOptions + opts, env).value.draft.respLogger;
      lg.Some? && sinks.dumpResponse(lg.value, c.httpClient.exchange(Build(c.defaultOptions + opts, env).value.request).value).Some?
    ensures var lg := Build(c.defaultOptions + opts, env).value.draft.respLogger;
      DoSpec(c, opts, env, sinks) ==
        DoResult(None, sinks.dumpResponse(lg.value, c.httpClient.exchange(Build(c.defaultOptions + opts, env).value.request).value), true)
  {
    FirstRejectionIsFirst(c.requestValidators, Build(c.defaultOptions + opts, env).value.request);
  }

  /** Whatever the outcome, a `Do` that did not reach the transport returned no response. */
  lemma NoResponseWithoutTransport(c: ClientConfig, opts: seq<RequestOption>, env: Collaborators, sinks: Sinks)
    requires c.httpClient != null
    ensures !DoSpec(c, opts, env, sinks).sent ==> DoSpec(c, opts, env, sinks).response.None? && DoSpec(c, opts, env, sinks).err.Some?
    ensures DoSpec(c, opts, env, sinks).response.None? ==> DoSpec(c, opts, env, sinks).err.Some?
  {
  }

  // ---------------------------------------------------------------------------
  // Status classification

  /** Statuses 200 to 299 are success; any other gives a bad-status error
      that carries the status and names it in its message. */
  lemma ClassifyStatus(status: int)
    ensures Classify(status).None? <==> 200 <= status <= 299
    ensures Classify(status).Some? ==>
      && Classify(status).value.StatusError?
      && Code(Classify(status)) == CODE_BAD_RESPONSE_STATUS
      && Classify(status).value.statusCode == status
      && ParseDecimal(Classify(status).value.message[|BAD_STATUS_PREFIX|..|Classify(status).value.message| - 1]) == Some(status)
  {
    if Classify(status).Some? {
      var m := BadStatusMessage(status);
      assert m[|BAD_STATUS_PREFIX|..|m| - 1] == Decimal(status);
      DecimalRoundTrip(status);
    }
  }

  /** 204 is success. */
  lemma NoContentSucceeds()
    ensures Classify(204) == None
  {
  }

  /** 404 is a bad-status error carrying 404. */
  lemma NotFoundFails()
    ensures Classify(404).Some? && Code(Classify(404)) == CODE_BAD_RESPONSE_STATUS
    ensures Classify(404).value.statusCode == 404
  {
  }
}
