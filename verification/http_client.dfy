/** The client side of the JSON envelope RPC protocol: the error record it
    raises, the response classification of `handleResponse`, the header
    merge of `getHeaders`, and the requests `query` and `mutate` issue.
    The transport and the JSON/URI library functions are inputs. */
module HttpClient {
  import opened Wrappers
  import opened Js
  import JsObject

  // ---------------------------------------------------------------------
  // Transport outcome and the error record
  // ---------------------------------------------------------------------

  /** The raw response object. The client attaches it to errors but never
      inspects it: its status in particular plays no part in classification. */
  datatype Response = Response(status: int)

  /** `HTTPClientError`: a message and three optional attachments. The
      message is whatever value the constructor was given, so it is a
      JavaScript value rather than always a string. */
  datatype ClientError = ClientError(
    message: Value,
    json: Option<Json>,
    res: Option<Response>,
    originalError: Option<JsError>)

  /** A thrown value: an `HTTPClientError`, or any other `Error`. */
  datatype Exception = ClientException(error: ClientError) | OtherException(failure: JsError)

  /** How `res.json()` settles. */
  datatype BodyResult = BodyRejected(reason: Exception) | BodyParsed(value: Json)

  /** How the promise returned by the transport settles, together with the
      body parse of the response when it resolves. */
  datatype TransportResult =
    | Rejected(reason: Exception)
    | Resolved(res: Response, body: BodyResult)

  // ---------------------------------------------------------------------
  // Configuration, requests and the observable result of a call
  // ---------------------------------------------------------------------

  /** The options a fetch-like transport receives. `method` (here `httpMethod`) is absent for a
      query, so the transport's default (GET) applies. */
  datatype RequestInit = RequestInit(httpMethod: Option<string>, body: Option<string>, headers: JsObject.Object)

  datatype Request = Request(target: string, init: RequestInit)

  /** The transport: request in, settled outcome out. */
  type Fetch = (string, RequestInit) -> TransportResult

  /** `CreateHttpClientOptions`. `getHeaders` is a header producer; the two
      callbacks are represented by whether they are configured, their calls
      being recorded as events. */
  datatype Options = Options(
    url: string,
    fetch: Fetch,
    getHeaders: Option<() -> JsObject.Object>,
    hasOnSuccess: bool,
    hasOnError: bool)

  /** A callback invocation: `onSuccess` receives the whole envelope,
      `onError` the error about to be thrown. */
  datatype Event = OnSuccess(envelope: Json) | OnError(error: ClientError)

  /** What the caller sees: a resolved payload or a thrown error. */
  datatype Outcome = Returned(data: Value) | Raised(error: ClientError)

  datatype Handled = Handled(outcome: Outcome, events: seq<Event>)

  // ---------------------------------------------------------------------
  // The envelope protocol, stated on the JSON value directly
  // ---------------------------------------------------------------------

  /** `{ ok: true, ... }`: `ok` is exactly the boolean `true`. */
  predicate IsSuccessEnvelope(j: Json)
  {
    j.JObj? && "ok" in j.fields && j.fields["ok"] == JBool(true)
  }

  /** The envelope carries an `error` that is neither absent nor `null`, so
      `error.message` can be read. */
  predicate HasErrorDetail(j: Json)
  {
    j.JObj? && "error" in j.fields && j.fields["error"] != JNull
  }

  /** The payload of an object envelope (`undefined` when it has no `data`). */
  function DataOf(j: Json): Value
  {
    if j.JObj? && "data" in j.fields then Some(j.fields["data"]) else None
  }

  /** `error.message` of an envelope with error detail. */
  function ErrorMessage(j: Json): Value
    requires HasErrorDetail(j)
  {
    var e := j.fields["error"];
    if e.JObj? && "message" in e.fields then Some(e.fields["message"]) else None
  }

  /** Whether a message value can be handed to the error constructor, which
      converts any defined message to a string. */
  predicate MessageConvertible(message: Value)
  {
    message.None? || !ToStringThrows(message.value)
  }

  /** The six ways a call can end, told apart by the shape of the input. */
  datatype Case =
    | TransportRejected
    | BodyUnparsable
    | Succeeded
    | ServerReported
    | UnconvertibleMessage
    | Malformed

  function Classify(t: TransportResult): Case
  {
    match t
    case Rejected(_) => TransportRejected
    case Resolved(_, BodyRejected(_)) => BodyUnparsable
    case Resolved(_, BodyParsed(j)) =>
      if IsSuccessEnvelope(j) then Succeeded
      else if HasErrorDetail(j) then
        if MessageConvertible(ErrorMessage(j)) then ServerReported else UnconvertibleMessage
      else Malformed
  }

  /** The `TypeError` a malformed envelope makes the client raise: reading
      `ok` of `null`, or reading `message` of a missing or null `error`. */
  function MalformedAccessError(j: Json): JsError
  {
    if j == JNull then NullAccessError(Null, "ok")
    else if j.JObj? && "error" in j.fields then NullAccessError(Null, "message")
    else NullAccessError(Undefined, "message")
  }

  // ---------------------------------------------------------------------
  // handleResponse
  // ---------------------------------------------------------------------

  /** How the `try` block of `handleResponse` is left: by returning the
      payload, or by a throw together with the values `res` and `json`
      held at that moment. */
  datatype TryExit =
    | Completed(data: Value, envelope: Json)
    | Threw(exception: Exception, res: Option<Response>, json: Option<Json>)

  /** The `try` block, step by step: await the transport, await the body,
      read `ok`, then either read `data` or build an error from
      `error.message`. */
  function TryBlock(t: TransportResult): TryExit
  {
    match t
    case Rejected(e) => Threw(e, None, None)
    case Resolved(res, BodyRejected(e)) => Threw(e, Some(res), None)
    case Resolved(res, BodyParsed(j)) =>
      var json := Nullable(j);
      match Get(Some(j), "ok")
      case Throws(f) => Threw(OtherException(f), Some(res), json)
      case Read(ok) =>
        if ok == Some(JBool(true)) then
          ReadData(j, res)
        else
          RaiseFromEnvelope(j, res)
  }

  /** The success exit: the envelope's `data` is read and becomes the result. */
  function ReadData(j: Json, res: Response): TryExit
  {
    match Get(Some(j), "data")
    case Throws(f) => Threw(OtherException(f), Some(res), Nullable(j))
    case Read(data) => Completed(data, j)
  }

  /** The server-error exit: the message is read from the envelope's
      `error`, and a client error carrying it, the envelope and the
      response is thrown. A missing or null `error` makes the read throw,
      and a message that cannot be converted to a string makes the error
      constructor throw before anything is thrown by the client. */
  function RaiseFromEnvelope(j: Json, res: Response): TryExit
  {
    var json := Nullable(j);
    match Get(Some(j), "error")
    case Throws(f) => Threw(OtherException(f), Some(res), json)
    case Read(error) =>
      match Get(error, "message")
      case Throws(f) => Threw(OtherException(f), Some(res), json)
      case Read(message) =>
        if message.Some? && ToStringThrows(message.value) then
          Threw(OtherException(ConversionError()), Some(res), json)
        else
          Threw(ClientException(ClientError(message, json, Some(res), None)), Some(res), json)
  }

  /** The `catch` block's normalisation: an `HTTPClientError` is kept as it
      is; anything else is wrapped with its message, the captured `res` and
      `json`, and itself as `originalError`. */
  function Normalize(e: Exception, res: Option<Response>, json: Option<Json>): ClientError
  {
    match e
    case ClientException(err) => err
    case OtherException(f) => ClientError(Some(JStr(f.message)), json, res, Some(f))
  }

  /** The callbacks fired for an outcome: `onSuccess` with the envelope when
      the call returns, `onError` with the thrown error otherwise, each only
      when configured. */
  function Callbacks(opts: Options, outcome: Outcome, envelope: Json): seq<Event>
  {
    match outcome
    case Returned(_) => if opts.hasOnSuccess then [OnSuccess(envelope)] else []
    case Raised(err) => if opts.hasOnError then [OnError(err)] else []
  }

  /** `handleResponse`: a call returns exactly when the body is a success
      envelope, and then returns its `data`; every other case raises one
      error, shaped by the case; the callbacks fired match the outcome. */
  function HandleResponse(opts: Options, t: TransportResult): (h: Handled)
    ensures h.outcome.Returned? <==> Classify(t) == Succeeded
    ensures h.outcome.Returned? ==> h.outcome.data == DataOf(t.body.value)
    ensures h.outcome.Returned? ==> h.events == (if opts.hasOnSuccess then [OnSuccess(t.body.value)] else [])
    ensures h.outcome.Raised? ==> h.events == (if opts.hasOnError then [OnError(h.outcome.error)] else [])
    ensures Classify(t) == ServerReported ==>
      h.outcome.error == ClientError(ErrorMessage(t.body.value), Some(t.body.value), Some(t.res), None)
    ensures Classify(t) == TransportRejected && t.reason.OtherException? ==>
      h.outcome.error == ClientError(Some(JStr(t.reason.failure.message)), None, None, Some(t.reason.failure))
    ensures Classify(t) == BodyUnparsable && t.body.reason.OtherException? ==>
      h.outcome.error == ClientError(Some(JStr(t.body.reason.failure.message)), None, Some(t.res), Some(t.body.reason.failure))
    ensures Classify(t) == UnconvertibleMessage ==>
      h.outcome.error == ClientError(Some(JStr(ConversionError().message)), Some(t.body.value), Some(t.res), Some(ConversionError()))
    ensures Classify(t) == Malformed ==>
      var f := MalformedAccessError(t.body.value);
      h.outcome.error == ClientError(Some(JStr(f.message)), Nullable(t.body.value), Some(t.res), Some(f))
  {
    match TryBlock(t)
    case Completed(data, envelope) =>
      var outcome := Returned(data);
      Handled(outcome, Callbacks(opts, outcome, envelope))
    case Threw(e, res, json) =>
      var outcome := Raised(Normalize(e, res, json));
      Handled(outcome, Callbacks(opts, outcome, JNull))
  }

  // ---------------------------------------------------------------------
  // getHeaders
  // ---------------------------------------------------------------------

  const ContentType := "content-type"
  const ApplicationJson := "application/json"

  /** What the configured producer returns for this call, or `{}`. */
  function UserHeaders(opts: Options): JsObject.Object
  {
    match opts.getHeaders
    case Some(produce) => produce()
    case None => []
  }

  /** The producer's headers copied into a fresh object, followed by a JSON
      content type: the forced entry always wins, every other user entry is kept with its value and
      position, and without a producer only the forced entry remains. */
  function GetHeaders(opts: Options): (h: JsObject.Object)
    ensures JsObject.Lookup(h, ContentType) == Some(Some(ApplicationJson))
    ensures forall k :: k != ContentType ==> JsObject.Lookup(h, k) == JsObject.Lookup(UserHeaders(opts), k)
    ensures var keys := JsObject.Keys(UserHeaders(opts));
      JsObject.Keys(h) == if ContentType in keys then keys else keys + [ContentType]
    ensures opts.getHeaders.None? ==> h == [(ContentType, Some(ApplicationJson))]
  {
    var user := UserHeaders(opts);
    JsObject.CopyIntoFresh([], user);
    assert [] + user == user;
    JsObject.Assign(JsObject.CopyInto([], user), ContentType, Some(ApplicationJson))
  }

  // ---------------------------------------------------------------------
  // query and mutate
  // ---------------------------------------------------------------------

  const ArgsParam := "?args="

  /** `${url}/${path}`. */
  function Endpoint(opts: Options, path: string): string
  {
    opts.url + "/" + path
  }

  /** The request `query(path, ...args)` hands to the transport: no method
      (so GET) and no body; the argument list travels in the query string
      exactly when it is non-empty. */
  function QueryRequest(opts: Options, codec: Codec, path: string, args: seq<Json>): (req: Request)
    ensures req.init == RequestInit(None, None, GetHeaders(opts))
    ensures |args| == 0 <==> req.target == Endpoint(opts, path)
    ensures |args| > 0 ==>
      req.target == Endpoint(opts, path) + ArgsParam + codec.encodeUriComponent(codec.stringify(JArr(args)))
  {
    var endpoint := Endpoint(opts, path);
    var target := if |args| > 0
      then endpoint + ArgsParam + codec.encodeUriComponent(codec.stringify(JArr(args)))
      else endpoint;
    Request(target, RequestInit(None, None, GetHeaders(opts)))
  }

  /** The body `mutate` sends: the serialisation of an object whose one
      field `args` holds the argument list as an array. */
  function MutateBody(codec: Codec, args: seq<Json>): string
  {
    codec.stringify(JObj(map["args" := JArr(args)]))
  }

  /** The request `mutate(path, ...args)` hands to the transport: a POST to
      the bare endpoint carrying the argument list in the body. */
  function MutateRequest(opts: Options, codec: Codec, path: string, args: seq<Json>): (req: Request)
    ensures req.target == Endpoint(opts, path)
    ensures req.init.httpMethod == Some("post")
    ensures req.init.body == Some(MutateBody(codec, args))
    ensures req.init.headers == GetHeaders(opts)
  {
    Request(Endpoint(opts, path), RequestInit(Some("post"), Some(MutateBody(codec, args)), GetHeaders(opts)))
  }

  /** `query(path, ...args)`: issue the query request and handle what the
      transport settles to. */
  function Query(opts: Options, codec: Codec, path: string, args: seq<Json>): (h: Handled)
    ensures var req := QueryRequest(opts, codec, path, args);
      h.outcome.Returned? <==> Classify(opts.fetch(req.target, req.init)) == Succeeded
    ensures |h.events| <= 1
  {
    var req := QueryRequest(opts, codec, path, args);
    HandleResponse(opts, opts.fetch(req.target, req.init))
  }

  /** `mutate(path, ...args)`: issue the mutation request and handle what
      the transport settles to. */
  function Mutate(opts: Options, codec: Codec, path: string, args: seq<Json>): (h: Handled)
    ensures var req := MutateRequest(opts, codec, path, args);
      h.outcome.Returned? <==> Classify(opts.fetch(req.target, req.init)) == Succeeded
    ensures |h.events| <= 1
  {
    var req := MutateRequest(opts, codec, path, args);
    HandleResponse(opts, opts.fetch(req.target, req.init))
  }
}
