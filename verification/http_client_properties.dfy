/** Properties of the HTTP client that relate several calls, concrete
    scenarios, and the server-side decoding the request shapes pair with. */
module HttpClientProperties {
  import opened Wrappers
  import opened Js
  import JsObject
  import opened HttpClient

  // ---------------------------------------------------------------------
  // Callbacks and normalisation
  // ---------------------------------------------------------------------

  /** With both callbacks configured, exactly one fires on every path, and
      `onError` receives the very error the call throws. */
  lemma ExactlyOneCallback(opts: Options, t: TransportResult)
    requires opts.hasOnSuccess && opts.hasOnError
    ensures var h := HandleResponse(opts, t);
      && |h.events| == 1
      && (h.events[0].OnSuccess? <==> h.outcome.Returned?)
      && (h.events[0].OnError? ==> h.events[0].error == h.outcome.error)
  {
  }

  /** `onSuccess` and `onError` never both fire in one call, whatever is
      configured. */
  lemma NeverBothCallbacks(opts: Options, t: TransportResult)
    ensures var h := HandleResponse(opts, t);
      forall i, j :: 0 <= i < |h.events| && 0 <= j < |h.events| ==>
        !(h.events[i].OnSuccess? && h.events[j].OnError?)
  {
  }

  /** Normalising an error that normalisation produced returns it unchanged,
      whatever `res` and `json` are captured the second time. */
  lemma NormalizeIdempotent(e: Exception, res: Option<Response>, json: Option<Json>,
                            res': Option<Response>, json': Option<Json>)
    ensures var err := Normalize(e, res, json);
      Normalize(ClientException(err), res', json') == err
  {
  }

  /** An `HTTPClientError` thrown by the transport or by the body parse
      reaches the caller as it is: nothing is attached to it. */
  lemma ClientErrorPassesThrough(opts: Options, err: ClientError, res: Response)
    ensures HandleResponse(opts, Rejected(ClientException(err))).outcome == Raised(err)
    ensures HandleResponse(opts, Resolved(res, BodyRejected(ClientException(err)))).outcome == Raised(err)
  {
  }

  /** The client wraps only non-client failures: a raised error with an
      `originalError` is either an `HTTPClientError` that was thrown to it
      and passed on, or the wrapper of the failure that was caught. */
  lemma OriginalErrorSource(opts: Options, t: TransportResult)
    ensures var h := HandleResponse(opts, t);
      h.outcome.Raised? && h.outcome.error.originalError.Some? ==>
        (t.Rejected? && t.reason == ClientException(h.outcome.error))
        || (t.Resolved? && t.body.BodyRejected? && t.body.reason == ClientException(h.outcome.error))
        || (t.Rejected? && t.reason == OtherException(h.outcome.error.originalError.value))
        || (t.Resolved? && t.body.BodyRejected? && t.body.reason == OtherException(h.outcome.error.originalError.value))
        || (t.Resolved? && t.body.BodyParsed? && Classify(t) in {Malformed, UnconvertibleMessage})
  {
  }

  /** The HTTP status is never consulted: two responses that differ only in
      status give the same outcome, up to the attached `res` (an error the
      body parse throws as an `HTTPClientError` is passed on untouched). */
  lemma StatusIgnored(opts: Options, s1: int, s2: int, body: BodyResult)
    ensures var h1 := HandleResponse(opts, Resolved(Response(s1), body));
      var h2 := HandleResponse(opts, Resolved(Response(s2), body));
      && (h1.outcome.Returned? <==> h2.outcome.Returned?)
      && (h1.outcome.Returned? ==> h1 == h2)
      && (h1.outcome.Raised? && !(body.BodyRejected? && body.reason.ClientException?) ==>
            && h1.outcome.error.res == Some(Response(s1))
            && h2.outcome.error == h1.outcome.error.(res := Some(Response(s2))))
  {
  }

  // ---------------------------------------------------------------------
  // Concrete scenarios
  // ---------------------------------------------------------------------

  /** `{ ok: false, error: { message: "boom" } }` raises an error whose
      message is "boom", with the envelope and response attached. */
  lemma ServerErrorBoom(opts: Options, res: Response)
    ensures var env := JObj(map["ok" := JBool(false), "error" := JObj(map["message" := JStr("boom")])]);
      HandleResponse(opts, Resolved(res, BodyParsed(env))).outcome
        == Raised(ClientError(Some(JStr("boom")), Some(env), Some(res), None))
  {
  }

  /** `{ ok: "true" }` is not a success envelope: only the boolean counts,
      and with no `error` the call fails reading `message` of undefined. */
  lemma StringOkIsMalformed(opts: Options, res: Response)
    ensures var env := JObj(map["ok" := JStr("true"), "data" := JNum(1)]);
      var h := HandleResponse(opts, Resolved(res, BodyParsed(env)));
      && h.outcome.Raised?
      && h.outcome.error.originalError == Some(NullAccessError(Undefined, "message"))
      && h.outcome.error.json == Some(env)
  {
  }

  /** `{ ok: false, error: { message: { toString: 1 } } }`: the message
      cannot be converted to a string, so building the client error throws
      a `TypeError`, which is wrapped with the envelope and response. */
  lemma UnconvertibleMessageWrapped(opts: Options, res: Response)
    ensures var env := JObj(map["ok" := JBool(false),
                                "error" := JObj(map["message" := JObj(map["toString" := JNum(1)])])]);
      HandleResponse(opts, Resolved(res, BodyParsed(env))).outcome
        == Raised(ClientError(Some(JStr("Cannot convert object to primitive value")), Some(env), Some(res), Some(ConversionError())))
  {
  }

  /** A body that parses to `null` fails reading `ok`, with `json` null. */
  lemma NullBodyIsMalformed(opts: Options, res: Response)
    ensures var h := HandleResponse(opts, Resolved(res, BodyParsed(JNull)));
      && h.outcome.Raised?
      && h.outcome.error == ClientError(Some(JStr(NullAccessError(Null, "ok").message)), None, Some(res), Some(NullAccessError(Null, "ok")))
  {
  }

  /** A producer returning `{ "x-api-key": "k", "content-type": "text/plain" }`
      yields headers that keep the key and force JSON. */
  lemma HeaderOverrideExample(opts: Options)
    requires opts.getHeaders == Some(() => [("x-api-key", Some("k")), ("content-type", Some("text/plain"))])
    ensures GetHeaders(opts) == [("x-api-key", Some("k")), ("content-type", Some("application/json"))]
  {
  }

  /** Object keys are case-sensitive: a producer's `Content-Type` is not
      overridden by the forced `content-type`, and both reach the transport. */
  lemma MixedCaseContentTypeKept(opts: Options)
    requires opts.getHeaders == Some(() => [("Content-Type", Some("text/plain"))])
    ensures JsObject.Lookup(GetHeaders(opts), "Content-Type") == Some(Some("text/plain"))
    ensures JsObject.Keys(GetHeaders(opts)) == ["Content-Type", "content-type"]
  {
  }

  // ---------------------------------------------------------------------
  // Server-side decoding of the two request shapes
  // ---------------------------------------------------------------------

  /** The argument list a server reads from a query target: none when the
      target is the bare endpoint, otherwise the JSON array carried by the
      `args` parameter. */
  function QueryArgs(codec: Codec, endpoint: string, target: string): Option<seq<Json>>
  {
    var start := |endpoint| + |ArgsParam|;
    if target == endpoint then Some([])
    else if start <= |target| && target[..start] == endpoint + ArgsParam then
      match codec.parse(codec.decodeUriComponent(target[start..]))
      case Some(JArr(xs)) => Some(xs)
      case _ => None
    else None
  }

  /** The argument list a server reads from a mutation body. */
  function MutateArgs(codec: Codec, body: string): Option<seq<Json>>
  {
    match codec.parse(body)
    case Some(JObj(fields)) =>
      if "args" in fields && fields["args"].JArr? then Some(fields["args"].items) else None
    case _ => None
  }

  /** A query's target decodes back to exactly its argument list. */
  lemma QueryArgsRoundTrip(opts: Options, codec: Codec, path: string, args: seq<Json>)
    requires Lawful(codec)
    ensures QueryArgs(codec, Endpoint(opts, path), QueryRequest(opts, codec, path, args).target) == Some(args)
  {
  }

  /** A mutation's body decodes back to exactly its argument list, and its
      target carries no query string of the client's making. */
  lemma MutateArgsRoundTrip(opts: Options, codec: Codec, path: string, args: seq<Json>)
    requires Lawful(codec)
    ensures var req := MutateRequest(opts, codec, path, args);
      req.init.body.Some? && MutateArgs(codec, req.init.body.value) == Some(args)
      && QueryArgs(codec, Endpoint(opts, path), req.target) == Some([])
  {
  }
}
