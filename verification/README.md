# HTTP RPC client envelope protocol — Dafny model

This project models the client side of the small JSON envelope RPC protocol in
`createHttpClient.ts`. A client is configured with a base `url`, a fetch-like
transport, an optional `getHeaders` producer, and optional `onSuccess` and
`onError` callbacks. It offers two verbs:

- `query(path, ...args)` sends a GET to `{url}/{path}`. When the argument list
  is non-empty, it is JSON-serialised and URI-encoded into `?args=…`.
- `mutate(path, ...args)` sends a POST to `{url}/{path}` with body
  `JSON.stringify({ args })`.

Both verbs hand the transport's promise to `handleResponse`. The server answers
with an envelope: `{ ok: true, data }` or `{ ok: false, error: { message } }`.
`handleResponse` returns `data` for a success envelope. Otherwise it raises a
single `HTTPClientError` whose optional `json`, `res` and `originalError`
fields show which case happened.

Modules:

- `Wrappers` (`wrappers.dfy`): `Option`.
- `Js` (`js.dfy`): the JavaScript the client relies on.
  - JSON values, and property reads that throw a `TypeError` on `null` or `undefined`.
  - `Error` objects.
  - A `Codec` datatype that holds `JSON.stringify`, `JSON.parse`,
    `encodeURIComponent` and `decodeURIComponent` as function values.
    `Lawful` states that parsing undoes stringifying and decoding undoes encoding.
- `JsObject` (`js_object.dfy`): plain objects whose own properties keep their
  creation order (array-index keys, which JavaScript lists first, are not
  modelled). Property assignment and object spread are defined as
  operations on these objects.
- `HttpClient` (`http_client.dfy`): the parts of the client itself.
  - The error record and the transport outcome.
  - `handleResponse`, written as its `try` block (`TryBlock`) and its
    `catch` normalisation (`Normalize`).
  - An independent classification of the input into six cases (`Classify`).
  - `getHeaders`, and the request shapes and verbs.
- `HttpClientProperties` (`http_client_properties.dfy`): lemmas that relate
  several calls, concrete scenarios, and the server-side decoders that
  invert the two request shapes.

The transport is an input. A call's transport outcome is the datatype
`TransportResult`: rejected, or resolved with a response and the result of
`res.json()`. The callbacks are recorded as a list of `Event`s, so "exactly one
callback, never both" can be stated as a postcondition. A thrown value is an
`HTTPClientError` or some other `Error`. A transport, a body parse or a
malformed envelope can each throw.

Where the envelope protocol as documented and the code differ, the model
follows the code:

- The error's `message` is whatever `error.message` holds. If that is absent
  it is `undefined`, and it may be a non-string. So `ClientError.message` is a
  JavaScript value, not a string. The `Error` constructor still converts a
  defined message to a string. For an object with a `toString` key, or an
  array holding one, that conversion throws a `TypeError`, and the client
  wraps that error instead (`UnconvertibleMessageWrapped`).
- A body that parses to JSON `null` counts as malformed: reading `ok` throws.
  The wrapped error then has `json` null, not set.
- `onSuccess` and `onError` fire only when they are configured. "Exactly one
  callback" holds when both are configured (`ExactlyOneCallback`), for the
  thrown values modelled here (see "## Left out" for a `null` rejection). "Never
  both" holds whenever the callbacks return normally (`NeverBothCallbacks`);
  an `onSuccess` that throws breaks it (see "## Left out").
- The forced `content-type` wins only over a key spelled exactly
  `content-type`. Object keys are case-sensitive, so a producer's
  `Content-Type` stays next to the forced entry (`MixedCaseContentTypeKept`).
  How the transport then merges the two is outside this model.

## Model

| member | source | states |
|---|---|---|
| HttpClient.HandleResponse | examples/playground/lib/client/createHttpClient.ts:51-75 | A call returns exactly when the body is a success envelope (`ok` is the boolean `true`), and then returns its `data` and fires `onSuccess` with the whole envelope. Every other case raises one error, and `onError` gets that same error. A server-reported error has `error.message`, `json` and `res`, and no `originalError`. If that message cannot be converted to a string, the conversion's `TypeError` is wrapped instead, with `json` and `res` attached. A transport rejection has the failure's message and the failure as `originalError`, with no `res` or `json`. A body-parse failure has `res` and the failure, with no `json`. A malformed envelope has `res`, the parsed `json` and the `TypeError` of the failing property read. |
| Js.Get | examples/playground/lib/client/createHttpClient.ts:58-62 | A property read on a parsed body throws exactly when the receiver is `null` or `undefined`. Otherwise it yields the object's value for a key the object has, and `undefined` for any other key or a non-object receiver. |
| HttpClientProperties.ExactlyOneCallback | examples/playground/lib/client/createHttpClient.ts:58-73 | With both callbacks configured, exactly one fires on every path. `onSuccess` fires exactly when the call returns, and `onError` gets the error that is thrown. |
| HttpClientProperties.NeverBothCallbacks | examples/playground/lib/client/createHttpClient.ts:58-73 | Whatever is configured, and with callbacks that return normally, `onSuccess` and `onError` never both fire in one call. |
| HttpClientProperties.NormalizeIdempotent | examples/playground/lib/client/createHttpClient.ts:63-71 | Normalising an error that normalisation produced returns it unchanged, whatever `res` and `json` are captured. |
| HttpClientProperties.ClientErrorPassesThrough | examples/playground/lib/client/createHttpClient.ts:63-73 | An `HTTPClientError` thrown by the transport or by the body parse reaches the caller as it is, with nothing attached. |
| HttpClientProperties.OriginalErrorSource | examples/playground/lib/client/createHttpClient.ts:52-71 | A raised error with an `originalError` either is an `HTTPClientError` that was thrown to the client and passed on, or wraps the non-client failure that was caught: a transport rejection, a body-parse failure, the read failure of a malformed envelope, or the failed conversion of an error message. |
| HttpClientProperties.StatusIgnored | examples/playground/lib/client/createHttpClient.ts:51-62 | Two responses that differ only in HTTP status give the same outcome, apart from the attached `res`. |
| HttpClientProperties.ServerErrorBoom | examples/playground/lib/client/createHttpClient.ts:62 | `{ ok: false, error: { message: "boom" } }` raises an error with message "boom", the envelope as `json`, the response as `res`, and no `originalError`. |
| HttpClientProperties.StringOkIsMalformed | examples/playground/lib/client/createHttpClient.ts:58-70 | `ok: "true"` is not success. With no `error`, the call fails reading `message` of undefined, and that `TypeError` is wrapped with the envelope attached. |
| HttpClientProperties.UnconvertibleMessageWrapped | examples/playground/lib/client/createHttpClient.ts:29-30 | `{ ok: false, error: { message: { toString: 1 } } }` makes the error constructor's string conversion throw. The client wraps that `TypeError`, attaching the envelope and the response. |
| HttpClientProperties.NullBodyIsMalformed | examples/playground/lib/client/createHttpClient.ts:56-70 | A body that parses to `null` fails reading `ok`. The wrapped error has `res` set, `json` null, and the `TypeError` as `originalError`. |
| JsObject.Assign | examples/playground/lib/client/createHttpClient.ts:79 | Defining a data property sets that key and leaves every other key's value unchanged. An existing key keeps its position, and a new key is appended. |
| JsObject.CopyInto | examples/playground/lib/client/createHttpClient.ts:78 | After a spread, every key of the source has the source's value, and every other key keeps the target's value. |
| JsObject.CopyIntoFresh | examples/playground/lib/client/createHttpClient.ts:78 | Spreading an object whose keys are all new appends its properties unchanged and in order. So `{...user}` is a copy of `user`. |
| HttpClient.GetHeaders | examples/playground/lib/client/createHttpClient.ts:76-81 | The merged headers always map `content-type` to `application/json`. Every other key of the producer's result keeps its value, and the keys keep their order. With no producer, the result is exactly the `content-type` entry. |
| HttpClientProperties.HeaderOverrideExample | examples/playground/lib/client/createHttpClient.ts:76-81 | A producer returning `{ "x-api-key": "k", "content-type": "text/plain" }` yields `{ "x-api-key": "k", "content-type": "application/json" }`. |
| HttpClientProperties.MixedCaseContentTypeKept | examples/playground/lib/client/createHttpClient.ts:76-81 | A producer's `Content-Type` is not overridden, and both spellings are in the headers passed to the transport. |
| HttpClient.QueryRequest | examples/playground/lib/client/createHttpClient.ts:82-89 | A query sets no method (so GET) and no body, and uses the merged headers. Its target is the bare `{url}/{path}` if and only if the argument list is empty. Otherwise `?args=` and the URI-encoded JSON array of the arguments are appended. |
| HttpClientProperties.QueryArgsRoundTrip | examples/playground/lib/client/createHttpClient.ts:83-86 | With a lawful codec, a server's decoding of a query target gives back exactly the argument list, empty or not. |
| HttpClient.MutateRequest | examples/playground/lib/client/createHttpClient.ts:93-100 | A mutation is a `post` to the bare `{url}/{path}` with the merged headers. Its body is the serialised object `{ args }`. |
| HttpClientProperties.MutateArgsRoundTrip | examples/playground/lib/client/createHttpClient.ts:94-99 | With a lawful codec, the mutation body decodes back to exactly the argument list, and the target has no query-string arguments. |
| HttpClient.Query | examples/playground/lib/client/createHttpClient.ts:82-92 | A query returns exactly when the transport's outcome for the query request is a success envelope, and it fires at most one callback. |
| HttpClient.Mutate | examples/playground/lib/client/createHttpClient.ts:93-103 | A mutation returns exactly when the transport's outcome for the mutation request is a success envelope, and it fires at most one callback. |

## Left out

- The generic SDK typing (`HTTPSdk`, `Router`, `ReturnType<…>`): it has no runtime behaviour.
- `Object.setPrototypeOf` in the error constructor: it is a prototype-chain workaround. Being an `HTTPClientError` is the `ClientException` constructor here.
- The default transport (the global `fetch`): the transport is a required `Options.fetch` field.
- Promise and `async` sequencing: the transport's settled result, including the settled result of `res.json()`, is the `TransportResult` input.
- `JSON.stringify`, `JSON.parse`, `encodeURIComponent` and `decodeURIComponent` are library calls. They are function fields of `Js.Codec`, not definitions. Properties that need their behaviour assume `Js.Lawful`.
- Js.Json: the key order of a JSON object is not modelled, because an object is a Dafny map. `JSON.stringify` writes keys in insertion order, so two arguments whose keys differ only in order are sent as different text, but the model gives them the same query target and mutation body. The same loss applies to the envelope passed to `onSuccess` and to `ClientError.json`. The round trips `QueryArgsRoundTrip` and `MutateArgsRoundTrip` hold up to key order.
- JSON numbers are integers. Floating point is not modelled.
- Arguments that are not JSON values (functions, `undefined`, cyclic objects) are not modelled. `args` is a sequence of `Js.Json`.
- Thrown values that are not `Error` objects are not modelled. A rejection with a string or a number would be wrapped with message `undefined`. A rejection with `null` or `undefined` makes the catch block itself throw a `TypeError` when it reads `.message`. That `TypeError` leaves the call unwrapped and `onError` never fires, so "exactly one callback" does not hold on that path.
- Exceptions thrown by the `onSuccess` and `onError` callbacks themselves are not modelled. A callback is an event, and the model assumes it returns normally. This assumption hides one path. `onSuccess` runs inside the `try` block, so if it throws, the catch wraps that error with `res` and `json` attached and calls `onError` with the result. On that path both callbacks fire, so neither "exactly one callback" nor "never both" holds. An `onError` that throws replaces the error the caller sees.
- HttpClient.Query: a transport that throws synchronously instead of returning a promise, or a `getHeaders` producer that throws, is not modelled. In the source such a throw happens before response handling, so the call rejects with the raw error and no callback fires. `Options.fetch` and `Options.getHeaders` are total functions here.
- HttpClient.Mutate: the same as for `HttpClient.Query`: a synchronously throwing transport or header producer is not modelled.
- JsObject.Assign: array-index keys such as `"1"` are not modelled. JavaScript lists them first, in ascending order, so appending one at the end differs from JavaScript. The client defines only `content-type`, which is not an index. A producer object's own key order is taken as given.
- The `getHeaders` producer is modelled as a pure function. A JavaScript producer can return different headers on each call, and the model gives it one result.
- The text of a `TypeError` from reading a property of `null` or `undefined`, or from a failed conversion to a primitive, follows the V8 engine's wording. Other engines word it differently.
- `Js.Get` models the keys of JSON objects only. A read on an array, a string, a number or a boolean yields `undefined` here, so array indices, `length` and prototype properties are not modelled. None of the keys the client reads (`ok`, `data`, `error`, `message`) is one of them.
