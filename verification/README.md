# tfe-oxide request layer, modelled in Dafny

This project models the request-execution layer of an HTTP client for a JSON:API service
(`src/core/reqwest.rs` and `src/core/errors.rs`). It covers three parts:

- the client configuration `Builder`: four settings with fixed defaults, functional setters and
  getters, and `build`, which hands the settings to the transport and its retry middleware;
- the `exec` pipeline. It converts the caller's headers, applies the verb's change to the
  request, sends it and reads the body as text. It then parses the text as JSON and tests the
  status. Every failure along the way becomes the single error kind `Response`;
- the verb wrappers `get`, `post`, `put`, `patch` and `delete`. Each attaches a query or a body,
  runs `exec` and deserializes the payload into the caller's type.

The source is pure: the setters clone and update, and `exec` and the wrappers are chains of
early returns. The model is therefore made of datatypes and functions. Each library step is a
field of the `Io` record:

- `convertHeaders`: HashMap to HeaderMap;
- `send`: dispatch through the retrying transport;
- `parseJson`: `serde_json::from_str`;
- `toVec`: `serde_json::to_vec`;
- `canonicalReason`: the reason-phrase table.

The library's client builder is a parameter of `Build`. The caller's type is a `decode`
function. With those in place every operation is a total function of its inputs.

Modules: `Wrappers` (Option, Result, Outcome), `Core` (the `Headers`/`Query` mappings of
`src/core/mod.rs`, fixed-width integers, the JSON value type), `StatusCodes` (three-digit codes,
the 2xx success class of section 15.3 of RFC 9110, their decimal text), `Errors` and `Reqwest`.

Behaviour the code has and a loose reading might miss:

- PATCH removes every backslash character from a deserialization message. It does not decode
  escape sequences: `\n` becomes `n`.
- A PATCH deserialization failure carries status `"400"`. GET and POST report theirs with no
  status.
- PUT and DELETE panic when deserialization fails (see Findings).

## Model

| member | source | states |
|---|---|---|
| `StatusCodes.AsStr` | src/core/reqwest.rs:183 | the text of a code is three decimal digits, the first non-zero, whose value is the code |
| `StatusCodes.AsStrRoundTrip` | src/core/reqwest.rs:183 | reading the text of a code back gives the code |
| `StatusCodes.ParseStatusRoundTrip` | src/core/reqwest.rs:164-166 | any text that reads as a code is exactly that code's text, so the status text is canonical |
| `StatusCodes.AsStrInjective` | src/core/reqwest.rs:183 | two codes have the same text only if they are equal |
| `StatusCodes.BadRequestText` | src/core/reqwest.rs:355 | the text of `BAD_REQUEST` is `"400"` |
| `Errors.Display` | src/core/errors.rs:10 | the rendering is the canonical reason between backticks: length two more, first and last character a backtick, the reason in between |
| `Errors.DisplayDeterminedByReason` | src/core/errors.rs:10-19 | two errors render alike if and only if their reasons agree, whatever their status and body |
| `Errors.StructuralEquality` | src/core/errors.rs:5-19 | derived equality is equality of all three fields |
| `Reqwest.DefaultBuilder` | src/core/reqwest.rs:490-498 | defaults: timeout 30000, retry interval 100 to 5000, 3 retries |
| `Reqwest.SetTimeout` | src/core/reqwest.rs:408-415 | always succeeds, sets the timeout to the argument, keeps the other three fields |
| `Reqwest.SetMinRetryInterval` | src/core/reqwest.rs:421-428 | always succeeds, sets the minimum interval, keeps the other three fields |
| `Reqwest.SetMaxRetryInterval` | src/core/reqwest.rs:434-441 | always succeeds, sets the maximum interval, keeps the other three fields |
| `Reqwest.SetMaxRetries` | src/core/reqwest.rs:447-454 | always succeeds, sets the retry count, keeps the other three fields |
| `Reqwest.SetThenGet` | src/core/reqwest.rs:408-457 | each getter after its setter returns the argument; minimum and maximum may be set in either relation, no range check |
| `Reqwest.JsonApiHeaders` | src/core/reqwest.rs:463-471 | the default headers are the one entry `content-type: application/vnd.api+json` |
| `Reqwest.Build` | src/core/reqwest.rs:460-487 | fails exactly when the library builder fails, with its error; otherwise the timeout, back-off base 2, retry bounds and count are the builder's, and the JSON:API content type is the default header |
| `Reqwest.DefaultBuild` | src/core/reqwest.rs:542-547 | building the default configuration succeeds when the library builder does, with 30000 ms and back-off 2 over 100..5000 ms, 3 retries |
| `Reqwest.BuildUsesSetValues` | src/core/reqwest.rs:472-482 | the values stored by the setters are the ones the built client uses |
| `Reqwest.Mutate` | src/core/reqwest.rs:105-106 | a mutation changes only the query or the body it names; an absent query leaves the request as it was |
| `Reqwest.Prepare` | src/core/reqwest.rs:71-106 | fails exactly when supplied headers do not convert, with that reason and no status or body; otherwise the request has the verb, URL, converted headers and exactly what the mutation attached |
| `Reqwest.Interpret` | src/core/reqwest.rs:114-189 | succeeds exactly when sent, read, parsed and 2xx, returning the payload unchanged; send and read failures carry only their reason; a parse failure gives "400", no body and the corrupt-payload reason whatever the status; a body is reported exactly for a parsed non-2xx response, with that code's text |
| `Reqwest.Exec` | src/core/reqwest.rs:54-190 | a request that fails to prepare is returned as that error and never sent; a prepared request is sent with the client's settings and classified by `Interpret`; every error is a transport error, a corrupt-payload error or a server error (non-2xx code text, payload, reason phrase or the fallback phrase); success means the prepared request was sent and answered 2xx with that JSON |
| `Reqwest.HeaderFailureSendsNothing` | src/core/reqwest.rs:86-97 | a header conversion failure is returned as the error and the result does not depend on the transport at all |
| `Reqwest.ParseBeforeStatus` | src/core/reqwest.rs:155-177 | a corrupt payload gives the same "400" error under any two statuses, success statuses included |
| `Reqwest.FromValue` | src/core/reqwest.rs:226-237 | a decoded payload is returned; a mismatch becomes its message with no status and no body |
| `Reqwest.Get` | src/core/reqwest.rs:196-239 | exec errors pass through unchanged; the request attaches the supplied query; otherwise the payload is decoded as `FromValue` says |
| `Reqwest.Post` | src/core/reqwest.rs:242-286 | exec errors pass through unchanged; the payload is sent as a JSON body; decoding as `FromValue` says |
| `Reqwest.ExpectValue` | src/core/reqwest.rs:307-309 | panics with "infallible" exactly when decoding fails, otherwise returns the decoded value |
| `Reqwest.Put` | src/core/reqwest.rs:288-310 | exec errors are returned unchanged; a decodable payload is returned decoded; panics exactly when exec succeeded and decoding failed |
| `Reqwest.Delete` | src/core/reqwest.rs:366-387 | exec errors are returned unchanged; a decodable payload is returned decoded; panics exactly when exec succeeded and decoding failed |
| `Reqwest.RemoveBackslashes` | src/core/reqwest.rs:350 | the result holds no backslash and every other character as often as the input |
| `Reqwest.RemoveBackslashesConcat` | src/core/reqwest.rs:350 | removal distributes over concatenation, so the kept characters stay in order |
| `Reqwest.RemoveBackslashesFixpoint` | src/core/reqwest.rs:350 | a text is unchanged by removal if and only if it has no backslash |
| `Reqwest.RemoveBackslashesIdempotent` | src/core/reqwest.rs:350 | removing twice equals removing once |
| `Reqwest.FromValueForPatch` | src/core/reqwest.rs:347-361 | a decoded payload is returned; a mismatch becomes status "400", no body, and the message without backslashes |
| `Reqwest.Patch` | src/core/reqwest.rs:313-363 | exec errors pass through unchanged; the payload's serialized bytes are the raw body; decoding as `FromValueForPatch` says |
| `Reqwest.WrapperErrorKinds` | src/core/reqwest.rs:196-387 | GET, POST, PUT and DELETE report only the three exec kinds, PATCH also a body-less "400" without backslashes; a PATCH error with a body is a server error (non-2xx code) |
| `Reqwest.WrapperRequests` | src/core/reqwest.rs:209-383 | GET sends the query exactly when supplied and no body; POST, PUT and DELETE send a JSON body; PATCH sends the serialized bytes |
| `Reqwest.UnauthorizedGet` | src/core/reqwest.rs:565-589 | a 401 with the JSON:API errors document yields `Response("Unauthorized", Some("401"), Some(document))` |
| `Reqwest.PublicGet` | src/core/reqwest.rs:549-563 | a 200 with JSON yields that JSON |
| `Reqwest.PutChecked` | src/core/reqwest.rs:307-309 | PUT with exec errors passed through and a decoding failure returned as in `FromValue` |
| `Reqwest.DeleteChecked` | src/core/reqwest.rs:385-386 | DELETE with exec errors passed through and a decoding failure returned as in `FromValue` |
| `Reqwest.PutAndDeletePanicOnMismatch` | src/core/reqwest.rs:307-309 | a 200 answer `{}` for a type needing a `data` field makes PUT and DELETE panic |
| `Reqwest.CheckedWrappersRefinePanicking` | src/core/reqwest.rs:385-386 | the checked PUT and DELETE return what the originals return, and a status-less, body-less error where they panic |

## Findings

| source | as written | input that shows it | evidently intended | confidence | as-written member | corrected member |
|---|---|---|---|---|---|---|
| src/core/reqwest.rs:307-309 | PUT deserializes the 2xx payload with `expect("infallible")`, panicking when it does not fit | a 200 answer `{}` when the target type requires a `data` field | return a `Response` error with no status and no body, as GET and POST do | high; not executed; the line carries a FIXME saying deserialization cannot be infallible | `Reqwest.PutAndDeletePanicOnMismatch` | `Reqwest.PutChecked` |
| src/core/reqwest.rs:385-386 | DELETE does the same | the same answer to a DELETE | the same | high; not executed; the line carries the same FIXME | `Reqwest.PutAndDeletePanicOnMismatch` | `Reqwest.DeleteChecked` |

## Left out

- Transport: connections, TLS, async execution, timeouts and the retry middleware's own schedule are not modelled. `Build` records only the parameters it passes to them, and `send` stands for the whole dispatch including its retries.
- Build: any check the retry library makes on the bounds it is given (for example a minimum above the maximum) belongs to that library and is not part of this model.
- Library behaviour is not modelled. This covers the rules that turn a `HashMap` into a `HeaderMap`, JSON parsing and (de)serialization, and the reason-phrase table of `StatusCode`. Each is an uninterpreted `Io` field or `decode` function.
- Requests: how `reqwest` encodes a query into the URL is not modelled, nor the `Content-Type` it adds for a structured JSON body, nor how default headers merge at send time. A request is a record of what was attached.
- Core.Json: numbers are integers; floating-point JSON numbers are not represented.
- ExpectValue: the panic message is only the text given to `expect`; the error's debug rendering that Rust appends is not modelled.
- Patch: serializing the payload to bytes is taken to succeed; the source unwraps it, and a JSON value always serializes.
- `Builder::new` returns `Builder::default()`, modelled by `DefaultBuilder`. The getters `get_*` are the plain functions `GetTimeout` and its siblings; their contract is stated in `SetThenGet`.
- The `HttpClient` trait of `src/core/mod.rs` declares the five verbs and has no behaviour. The wrappers are plain functions here.
- Tracing spans and log calls have no effect on results.
- Rendering JSON:API error documents, and converting a `Response` error into such a document, are not part of this model: none of the modelled files contains that code. The record shapes in `src/jsonapi/` have no hand-written logic.
- `src/utils/random.rs` is not part of this model: its output is random and it does not interact with the client.
- The test helper's removal of the `TFE_HOSTNAME` environment variable is not modelled.
