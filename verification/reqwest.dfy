/** The request-execution layer (`src/core/reqwest.rs`): the client configuration and the
    settings it hands to the transport, the single `exec` pipeline that classifies every
    outcome of a request into a parsed payload or a `Response` error, and the five verb
    wrappers built on it.

    Every step that belongs to a library is a field of `Io`: header conversion, sending
    through the retrying transport (whose outcome also carries the result of reading the body
    as text), JSON parsing and serialization, and the table of reason phrases. The pipeline is
    therefore a total function of its inputs. */
module Reqwest {
  import opened Wrappers
  import opened Core
  import opened Errors
  import opened StatusCodes

  // ───────────────────────────── Client configuration ─────────────────────────────

  const DEFAULT_TIMEOUT: U64 := 30 * 1000
  const DEFAULT_MIN_RETRY_INTERVAL: U64 := 100
  const DEFAULT_MAX_RETRY_INTERVAL: U64 := 5 * 1000
  const DEFAULT_MAX_RETRIES: U32 := 3

  /** Name of the one default header (`CONTENT_TYPE`) and the JSON:API media type it carries. */
  const CONTENT_TYPE := "content-type"
  const JSON_API_MEDIA_TYPE := "application/vnd.api+json"

  /** The exponent base of the retry back-off. */
  const BACKOFF_BASE := 2

  /** Timeout and intervals are in milliseconds; `maxRetries` counts retry attempts. */
  datatype Builder = Builder(timeout: U64, minRetryInterval: U64, maxRetryInterval: U64, maxRetries: U32)

  /** `Builder::default()`, which `Builder::new()` returns. */
  function DefaultBuilder(): (b: Builder)
    ensures b.timeout == 30000 && b.minRetryInterval == 100
    ensures b.maxRetryInterval == 5000 && b.maxRetries == 3
  {
    Builder(DEFAULT_TIMEOUT, DEFAULT_MIN_RETRY_INTERVAL, DEFAULT_MAX_RETRY_INTERVAL, DEFAULT_MAX_RETRIES)
  }

  /** Each setter succeeds on every argument, sets its own field and keeps the other three. */
  function SetTimeout(b: Builder, arg: U64): (r: Result<Builder, string>)
    ensures r.Success? && r.value.timeout == arg
    ensures r.value.minRetryInterval == b.minRetryInterval && r.value.maxRetryInterval == b.maxRetryInterval
    ensures r.value.maxRetries == b.maxRetries
  {
    Success(b.(timeout := arg))
  }

  function SetMinRetryInterval(b: Builder, arg: U64): (r: Result<Builder, string>)
    ensures r.Success? && r.value.minRetryInterval == arg
    ensures r.value.timeout == b.timeout && r.value.maxRetryInterval == b.maxRetryInterval
    ensures r.value.maxRetries == b.maxRetries
  {
    Success(b.(minRetryInterval := arg))
  }

  function SetMaxRetryInterval(b: Builder, arg: U64): (r: Result<Builder, string>)
    ensures r.Success? && r.value.maxRetryInterval == arg
    ensures r.value.timeout == b.timeout && r.value.minRetryInterval == b.minRetryInterval
    ensures r.value.maxRetries == b.maxRetries
  {
    Success(b.(maxRetryInterval := arg))
  }

  function SetMaxRetries(b: Builder, arg: U32): (r: Result<Builder, string>)
    ensures r.Success? && r.value.maxRetries == arg
    ensures r.value.timeout == b.timeout && r.value.minRetryInterval == b.minRetryInterval
    ensures r.value.maxRetryInterval == b.maxRetryInterval
  {
    Success(b.(maxRetries := arg))
  }

  function GetTimeout(b: Builder): U64 { b.timeout }
  function GetMinRetryInterval(b: Builder): U64 { b.minRetryInterval }
  function GetMaxRetryInterval(b: Builder): U64 { b.maxRetryInterval }
  function GetMaxRetries(b: Builder): U32 { b.maxRetries }

  /** A getter after its setter returns the argument, with no range check in between: the
      minimum retry interval may be set above the maximum. */
  lemma SetThenGet(b: Builder, t: U64, lo: U64, hi: U64, n: U32)
    ensures GetTimeout(SetTimeout(b, t).value) == t
    ensures GetMinRetryInterval(SetMinRetryInterval(b, lo).value) == lo
    ensures GetMaxRetryInterval(SetMaxRetryInterval(b, hi).value) == hi
    ensures GetMaxRetries(SetMaxRetries(b, n).value) == n
    ensures var both := SetMaxRetryInterval(SetMinRetryInterval(b, lo).value, hi).value;
      GetMinRetryInterval(both) == lo && GetMaxRetryInterval(both) == hi
  {
  }

  /** The retry policy handed to the retry middleware. */
  datatype RetryPolicy = ExponentialBackoff(base: nat, minRetryInterval: U64, maxRetryInterval: U64, maxRetries: U32)

  /** What the built transport is configured with. */
  datatype Settings = Settings(defaultHeaders: Headers, timeout: U64, retryPolicy: RetryPolicy)

  /** A built client: the transport with its middleware, known here by its settings. */
  datatype Client = Client(settings: Settings)

  function JsonApiHeaders(): (h: Headers)
    ensures h.Keys == {CONTENT_TYPE} && h[CONTENT_TYPE] == JSON_API_MEDIA_TYPE
  {
    map[CONTENT_TYPE := JSON_API_MEDIA_TYPE]
  }

  /** `Builder::build`. `transport` is the HTTP library's own builder, given the default
      headers and the timeout; it is the only step that can fail. The builder's fields are
      passed on unchanged. */
  function Build(b: Builder, transport: (Headers, U64) -> Outcome<string>): (r: Result<Client, string>)
    ensures r.Failure? <==> transport(JsonApiHeaders(), b.timeout).Fail?
    ensures r.Failure? ==> r.error == transport(JsonApiHeaders(), b.timeout).error
    ensures r.Success? ==>
      && r.value.settings.defaultHeaders == JsonApiHeaders()
      && r.value.settings.timeout == b.timeout
      && r.value.settings.retryPolicy.base == 2
      && r.value.settings.retryPolicy.minRetryInterval == b.minRetryInterval
      && r.value.settings.retryPolicy.maxRetryInterval == b.maxRetryInterval
      && r.value.settings.retryPolicy.maxRetries == b.maxRetries
  {
    var headers := JsonApiHeaders();
    match transport(headers, b.timeout)
    case Fail(e) => Failure(e)
    case Pass =>
      var policy := ExponentialBackoff(BACKOFF_BASE, b.minRetryInterval, b.maxRetryInterval, b.maxRetries);
      Success(Client(Settings(headers, b.timeout, policy)))
  }

  /** Building the default configuration, when the library builder succeeds, gives a client
      with a 30 s timeout that retries three times between 100 ms and 5 s. */
  lemma DefaultBuild(transport: (Headers, U64) -> Outcome<string>)
    requires transport(JsonApiHeaders(), 30000).Pass?
    ensures var r := Build(DefaultBuilder(), transport);
      && r.Success?
      && r.value.settings.timeout == 30000
      && r.value.settings.retryPolicy == ExponentialBackoff(2, 100, 5000, 3)
  {
  }

  /** Whatever a setter stores is what the built client uses. */
  lemma BuildUsesSetValues(b: Builder, t: U64, lo: U64, hi: U64, n: U32, transport: (Headers, U64) -> Outcome<string>)
    requires transport(JsonApiHeaders(), t).Pass?
    ensures var b' := SetMaxRetries(SetMaxRetryInterval(SetMinRetryInterval(SetTimeout(b, t).value, lo).value, hi).value, n).value;
      var r := Build(b', transport);
      r.Success? && r.value.settings.timeout == t && r.value.settings.retryPolicy == ExponentialBackoff(2, lo, hi, n)
  {
  }

  // ───────────────────────────── Requests ─────────────────────────────

  datatype Method = GET | POST | PUT | PATCH | DELETE

  datatype Body = NoBody | JsonBody(value: Json) | RawBody(bytes: seq<Byte>)

  datatype Request = Request(verb: Method, url: string, headers: Option<Headers>, query: Option<Query>, body: Body)

  /** The one change each verb makes to its request: attach a query (when one is supplied),
      a structured JSON body, or the serialized bytes as a raw body. */
  datatype Mutation = AttachQuery(query: Option<Query>) | AttachJsonBody(payload: Json) | AttachRawBody(bytes: seq<Byte>)

  /** What sending produced: a dispatch failure, or a status with the outcome of reading the
      body as text. */
  datatype SendOutcome = SendFailed(reason: string) | Received(status: StatusCode, text: Result<string, string>)

  /** The library steps of the pipeline, each failing with a description. */
  datatype Io = Io(
    convertHeaders: Headers -> Result<Headers, string>,
    send: (Settings, Request) -> SendOutcome,
    parseJson: string -> Result<Json, string>,
    toVec: Json -> seq<Byte>,
    canonicalReason: StatusCode -> Option<string>)

  /** Applies a verb's mutation: only the part of the request it names changes. */
  function Mutate(req: Request, m: Mutation): (r: Request)
    ensures r.verb == req.verb && r.url == req.url && r.headers == req.headers
    ensures m.AttachQuery? ==> r.body == req.body && (m.query.None? ==> r == req)
    ensures m.AttachQuery? && m.query.Some? ==> r.query == m.query
    ensures !m.AttachQuery? ==> r.query == req.query
    ensures m.AttachJsonBody? ==> r.body == JsonBody(m.payload)
    ensures m.AttachRawBody? ==> r.body == RawBody(m.bytes)
  {
    match m
    case AttachQuery(q) => if q.Some? then req.(query := q) else req
    case AttachJsonBody(v) => req.(body := JsonBody(v))
    case AttachRawBody(bytes) => req.(body := RawBody(bytes))
  }

  /** A fresh request carries exactly what its mutation attached. */
  predicate Carries(req: Request, m: Mutation) {
    match m
    case AttachQuery(q) => req.query == q && req.body == NoBody
    case AttachJsonBody(v) => req.query == None && req.body == JsonBody(v)
    case AttachRawBody(bytes) => req.query == None && req.body == RawBody(bytes)
  }

  /** The first steps of `exec`: build the request, convert the caller's headers (the only
      way to fail before sending) and apply the mutation. */
  function Prepare(io: Io, verb: Method, url: string, headers: Option<Headers>, m: Mutation): (r: Result<Request, Error>)
    ensures r.Failure? <==> headers.Some? && io.convertHeaders(headers.value).Failure?
    ensures r.Failure? ==> r.error == Response(io.convertHeaders(headers.value).error, None, None)
    ensures r.Success? ==> r.value.verb == verb && r.value.url == url && Carries(r.value, m)
    ensures r.Success? ==> r.value.headers == if headers.None? then None else Some(io.convertHeaders(headers.value).value)
  {
    var request := Request(verb, url, None, None, NoBody);
    match headers
    case None => Success(Mutate(request, m))
    case Some(h) =>
      match io.convertHeaders(h)
      case Failure(reason) => Failure(Response(reason, None, None))
      case Success(converted) => Success(Mutate(request.(headers := Some(converted)), m))
  }

  // ───────────────────────────── Classifying the response ─────────────────────────────

  const CORRUPT_PAYLOAD_PREFIX := "corrupted response JSON payload received. "
  const FALLBACK_REASON := "server returned an error response"

  /** A failure before any response could be read: no status, no body. */
  predicate IsTransportError(e: Error) {
    e.status.None? && e.body.None?
  }

  /** A response whose text was not JSON: status forced to "400", no body. */
  predicate IsCorruptPayloadError(e: Error) {
    e.status == Some(AsStr(BAD_REQUEST)) && e.body.None? && CORRUPT_PAYLOAD_PREFIX <= e.canonicalReason
  }

  /** A parsed response outside the 2xx class: the code as text, the payload, and the code's
      reason phrase (or the fallback phrase). */
  predicate IsServerError(io: Io, e: Error) {
    && e.status.Some? && e.body.Some?
    && ParseStatus(e.status.value).Some?
    && !IsSuccess(ParseStatus(e.status.value).value)
    && e.canonicalReason == io.canonicalReason(ParseStatus(e.status.value).value).GetOr(FALLBACK_REASON)
  }

  /** The three kinds of error `exec` produces. */
  predicate IsExecError(io: Io, e: Error) {
    IsTransportError(e) || IsCorruptPayloadError(e) || IsServerError(io, e)
  }

  /** The checks `exec` makes once the request is sent, in their order: dispatch, reading the
      text, parsing it, and the success class of the status. */
  function Interpret(io: Io, outcome: SendOutcome): (r: Result<Json, Error>)
    // success exactly when every check passes, and then the payload is returned unchanged
    ensures r.Success? <==>
      outcome.Received? && outcome.text.Success? && io.parseJson(outcome.text.value).Success? && IsSuccess(outcome.status)
    ensures r.Success? ==> r.value == io.parseJson(outcome.text.value).value
    // failures before a response is read carry the failure's own description and nothing else
    ensures outcome.SendFailed? ==> r == Failure(Response(outcome.reason, None, None))
    ensures outcome.Received? && outcome.text.Failure? ==> r == Failure(Response(outcome.text.error, None, None))
    // a corrupt payload is reported as "400" whatever status the server sent
    ensures outcome.Received? && outcome.text.Success? && io.parseJson(outcome.text.value).Failure? ==>
      r == Failure(Response(CORRUPT_PAYLOAD_PREFIX + io.parseJson(outcome.text.value).error, Some("400"), None))
    // a body is reported only for a parsed non-2xx response, together with its status
    ensures r.Failure? && r.error.body.Some? <==>
      outcome.Received? && outcome.text.Success? && io.parseJson(outcome.text.value).Success? && !IsSuccess(outcome.status)
    ensures r.Failure? && r.error.body.Some? ==>
      r.error.body == Some(io.parseJson(outcome.text.value).value) && r.error.status == Some(AsStr(outcome.status))
    ensures r.Failure? ==> IsExecError(io, r.error)
  {
    match outcome
    case SendFailed(reason) => Failure(Response(reason, None, None))
    case Received(status, text) =>
      match text
      case Failure(reason) => Failure(Response(reason, None, None))
      case Success(t) =>
        match io.parseJson(t)
        case Failure(reason) =>
          BadRequestText();
          Failure(Response(CORRUPT_PAYLOAD_PREFIX + reason, Some(AsStr(BAD_REQUEST)), None))
        case Success(payload) =>
          if !IsSuccess(status) then
            AsStrRoundTrip(status);
            Failure(Response(io.canonicalReason(status).GetOr(FALLBACK_REASON), Some(AsStr(status)), Some(payload)))
          else
            Success(payload)
  }

  /** `Client::exec`: prepare the request, send it with the client's settings, classify what
      comes back. */
  function Exec(c: Client, io: Io, verb: Method, url: string, headers: Option<Headers>, m: Mutation): (r: Result<Json, Error>)
    ensures r.Failure? ==> IsExecError(io, r.error)
    // a request that fails to prepare is never sent; one that is prepared is classified
    ensures Prepare(io, verb, url, headers, m).Failure? ==> r == Failure(Prepare(io, verb, url, headers, m).error)
    ensures Prepare(io, verb, url, headers, m).Success? ==>
      r == Interpret(io, io.send(c.settings, Prepare(io, verb, url, headers, m).value))
    ensures r.Success? ==>
      && Prepare(io, verb, url, headers, m).Success?
      && var outcome := io.send(c.settings, Prepare(io, verb, url, headers, m).value);
      && outcome.Received? && IsSuccess(outcome.status) && outcome.text.Success?
      && io.parseJson(outcome.text.value).Success? && r.value == io.parseJson(outcome.text.value).value
  {
    match Prepare(io, verb, url, headers, m)
    case Failure(e) => Failure(e)
    case Success(request) => Interpret(io, io.send(c.settings, request))
  }

  /** A header conversion failure stops `exec` before anything is sent: the result is the
      conversion error, and it is the same whatever the transport would have done. */
  lemma HeaderFailureSendsNothing(c: Client, io: Io, verb: Method, url: string, h: Headers, m: Mutation,
                                  otherSend: (Settings, Request) -> SendOutcome)
    requires io.convertHeaders(h).Failure?
    ensures Exec(c, io, verb, url, Some(h), m) == Failure(Response(io.convertHeaders(h).error, None, None))
    ensures Exec(c, io.(send := otherSend), verb, url, Some(h), m) == Exec(c, io, verb, url, Some(h), m)
  {
  }

  /** The parse check comes before the status check: a corrupt payload yields the same error
      under any two statuses, a success status included. */
  lemma ParseBeforeStatus(io: Io, s1: StatusCode, s2: StatusCode, text: string)
    requires io.parseJson(text).Failure?
    ensures Interpret(io, Received(s1, Success(text))) == Interpret(io, Received(s2, Success(text)))
    ensures Interpret(io, Received(s1, Success(text))).error.status == Some("400")
  {
  }

  // ───────────────────────────── Verb wrappers ─────────────────────────────

  /** `serde_json::from_value` into the caller's type, as GET and POST report its failure:
      the message alone, with no status and no body. */
  function FromValue<R>(decode: Json -> Result<R, string>, v: Json): (r: Result<R, Error>)
    ensures r.Success? <==> decode(v).Success?
    ensures r.Success? ==> r.value == decode(v).value
    ensures r.Failure? ==> r.error == Response(decode(v).error, None, None) && IsTransportError(r.error)
  {
    match decode(v)
    case Success(value) => Success(value)
    case Failure(msg) => Failure(Response(msg, None, None))
  }

  /** The GET request: the query is attached only when one is supplied; no body. */
  function Get<R>(c: Client, io: Io, url: string, headers: Option<Headers>, query: Option<Query>,
                  decode: Json -> Result<R, string>): (r: Result<R, Error>)
    ensures var x := Exec(c, io, GET, url, headers, AttachQuery(query));
      && (x.Failure? ==> r == Failure(x.error))
      && (x.Success? ==> r == FromValue(decode, x.value))
  {
    var x := Exec(c, io, GET, url, headers, AttachQuery(query));
    if x.Failure? then Failure(x.error) else FromValue(decode, x.value)
  }

  /** The POST request: the payload as a structured JSON body. */
  function Post<R>(c: Client, io: Io, url: string, headers: Option<Headers>, payload: Json,
                   decode: Json -> Result<R, string>): (r: Result<R, Error>)
    ensures var x := Exec(c, io, POST, url, headers, AttachJsonBody(payload));
      && (x.Failure? ==> r == Failure(x.error))
      && (x.Success? ==> r == FromValue(decode, x.value))
  {
    var x := Exec(c, io, POST, url, headers, AttachJsonBody(payload));
    if x.Failure? then Failure(x.error) else FromValue(decode, x.value)
  }

  /** A call that either returns or panics with the message given to `expect`. */
  datatype Completion<R> = Returned(result: Result<R, Error>) | Panicked(message: string)

  const EXPECT_MESSAGE := "infallible"

  /** Deserialization as PUT and DELETE perform it: assumed to succeed, panicking otherwise. */
  function ExpectValue<R>(decode: Json -> Result<R, string>, v: Json): (r: Completion<R>)
    ensures r.Panicked? <==> decode(v).Failure?
    ensures r.Panicked? ==> r.message == EXPECT_MESSAGE
    ensures r.Returned? ==> r.result == Success(decode(v).value)
  {
    match decode(v)
    case Success(value) => Returned(Success(value))
    case Failure(_) => Panicked(EXPECT_MESSAGE)
  }

  /** The PUT request, as written: a JSON body; exec errors are returned, a payload that does
      not decode panics. */
  function Put<R>(c: Client, io: Io, url: string, headers: Option<Headers>, payload: Json,
                  decode: Json -> Result<R, string>): (r: Completion<R>)
    ensures var x := Exec(c, io, PUT, url, headers, AttachJsonBody(payload));
      && (x.Failure? ==> r == Returned(Failure(x.error)))
      && (x.Success? ==> r == ExpectValue(decode, x.value))
      && (r.Panicked? <==> x.Success? && decode(x.value).Failure?)
  {
    var x := Exec(c, io, PUT, url, headers, AttachJsonBody(payload));
    if x.Failure? then Returned(Failure(x.error)) else ExpectValue(decode, x.value)
  }

  /** The DELETE request, as written: same shape as PUT. */
  function Delete<R>(c: Client, io: Io, url: string, headers: Option<Headers>, payload: Json,
                     decode: Json -> Result<R, string>): (r: Completion<R>)
    ensures var x := Exec(c, io, DELETE, url, headers, AttachJsonBody(payload));
      && (x.Failure? ==> r == Returned(Failure(x.error)))
      && (x.Success? ==> r == ExpectValue(decode, x.value))
      && (r.Panicked? <==> x.Success? && decode(x.value).Failure?)
  {
    var x := Exec(c, io, DELETE, url, headers, AttachJsonBody(payload));
    if x.Failure? then Returned(Failure(x.error)) else ExpectValue(decode, x.value)
  }

  /** PUT with the deserialization failure returned as GET and POST return it. */
  function PutChecked<R>(c: Client, io: Io, url: string, headers: Option<Headers>, payload: Json,
                         decode: Json -> Result<R, string>): (r: Result<R, Error>)
    ensures var x := Exec(c, io, PUT, url, headers, AttachJsonBody(payload));
      && (x.Failure? ==> r == Failure(x.error))
      && (x.Success? ==> r == FromValue(decode, x.value))
  {
    var x := Exec(c, io, PUT, url, headers, AttachJsonBody(payload));
    if x.Failure? then Failure(x.error) else FromValue(decode, x.value)
  }

  /** DELETE with the deserialization failure returned as GET and POST return it. */
  function DeleteChecked<R>(c: Client, io: Io, url: string, headers: Option<Headers>, payload: Json,
                            decode: Json -> Result<R, string>): (r: Result<R, Error>)
    ensures var x := Exec(c, io, DELETE, url, headers, AttachJsonBody(payload));
      && (x.Failure? ==> r == Failure(x.error))
      && (x.Success? ==> r == FromValue(decode, x.value))
  {
    var x := Exec(c, io, DELETE, url, headers, AttachJsonBody(payload));
    if x.Failure? then Failure(x.error) else FromValue(decode, x.value)
  }

  const BACKSLASH := '\\'

  /** `str::replace("\\", "")`: the text with every backslash character removed and every
      other character kept, in order. */
  function RemoveBackslashes(s: string): (r: string)
    ensures BACKSLASH !in r
    ensures multiset(r) == multiset(s)[BACKSLASH := 0]
    ensures |r| <= |s|
  {
    if s == [] then []
    else
      assert s == [s[0]] + s[1..];
      if s[0] == BACKSLASH then RemoveBackslashes(s[1..])
      else [s[0]] + RemoveBackslashes(s[1..])
  }

  /** Removal works piecewise: it keeps the relative order of what it keeps. */
  lemma {:induction false} RemoveBackslashesConcat(a: string, b: string)
    ensures RemoveBackslashes(a + b) == RemoveBackslashes(a) + RemoveBackslashes(b)
  {
    if a != [] {
      assert (a + b)[1..] == a[1..] + b;
      RemoveBackslashesConcat(a[1..], b);
    } else {
      assert a + b == b;
    }
  }

  /** A text is left unchanged exactly when it holds no backslash. */
  lemma {:induction false} RemoveBackslashesFixpoint(s: string)
    ensures RemoveBackslashes(s) == s <==> BACKSLASH !in s
  {
    if s != [] && BACKSLASH !in s {
      assert BACKSLASH !in s[1..] by {
        assert forall i | 0 <= i < |s[1..]| :: s[1..][i] == s[i + 1];
      }
      RemoveBackslashesFixpoint(s[1..]);
      assert s == [s[0]] + s[1..];
    }
  }

  /** Removing backslashes twice is removing them once. */
  lemma RemoveBackslashesIdempotent(s: string)
    ensures RemoveBackslashes(RemoveBackslashes(s)) == RemoveBackslashes(s)
  {
    RemoveBackslashesFixpoint(RemoveBackslashes(s));
  }

  /** `serde_json::from_value` as PATCH reports its failure: the message without its
      backslashes, with status "400" and no body. */
  function FromValueForPatch<R>(decode: Json -> Result<R, string>, v: Json): (r: Result<R, Error>)
    ensures r.Success? <==> decode(v).Success?
    ensures r.Success? ==> r.value == decode(v).value
    ensures r.Failure? ==>
      && r.error == Response(RemoveBackslashes(decode(v).error), Some(AsStr(BAD_REQUEST)), None)
      && r.error.status == Some("400")
      && BACKSLASH !in r.error.canonicalReason
  {
    BadRequestText();
    match decode(v)
    case Success(value) => Success(value)
    case Failure(msg) => Failure(Response(RemoveBackslashes(msg), Some(AsStr(BAD_REQUEST)), None))
  }

  /** The PATCH request: the payload serialized to bytes and sent as a raw body. */
  function Patch<R>(c: Client, io: Io, url: string, headers: Option<Headers>, payload: Json,
                    decode: Json -> Result<R, string>): (r: Result<R, Error>)
    ensures var x := Exec(c, io, PATCH, url, headers, AttachRawBody(io.toVec(payload)));
      && (x.Failure? ==> r == Failure(x.error))
      && (x.Success? ==> r == FromValueForPatch(decode, x.value))
  {
    var x := Exec(c, io, PATCH, url, headers, AttachRawBody(io.toVec(payload)));
    if x.Failure? then Failure(x.error) else FromValueForPatch(decode, x.value)
  }

  // ───────────────────────────── Properties of the wrappers ─────────────────────────────

  /** What each wrapper can report. GET, POST and the checked PUT and DELETE report only the
      three kinds `exec` produces (a deserialization failure has the transport shape); PATCH
      adds a "400" without a body whose reason holds no backslash. Whichever the verb, an
      error that carries a body is a server error with a non-2xx status. */
  lemma WrapperErrorKinds<R>(c: Client, io: Io, url: string, headers: Option<Headers>, query: Option<Query>,
                             payload: Json, decode: Json -> Result<R, string>)
    ensures var r := Get(c, io, url, headers, query, decode);
      r.Failure? ==> IsExecError(io, r.error)
    ensures var r := Post(c, io, url, headers, payload, decode);
      r.Failure? ==> IsExecError(io, r.error)
    ensures var r := Put(c, io, url, headers, payload, decode);
      r.Returned? && r.result.Failure? ==> IsExecError(io, r.result.error)
    ensures var r := Delete(c, io, url, headers, payload, decode);
      r.Returned? && r.result.Failure? ==> IsExecError(io, r.result.error)
    ensures var r := Patch(c, io, url, headers, payload, decode);
      r.Failure? ==>
        || IsExecError(io, r.error)
        || (r.error.status == Some("400") && r.error.body.None? && BACKSLASH !in r.error.canonicalReason)
    ensures var r := Patch(c, io, url, headers, payload, decode);
      r.Failure? && r.error.body.Some? ==> IsServerError(io, r.error)
  {
    var g := Exec(c, io, GET, url, headers, AttachQuery(query));
    assert g.Failure? ==> IsExecError(io, g.error);
    var p := Exec(c, io, POST, url, headers, AttachJsonBody(payload));
    assert p.Failure? ==> IsExecError(io, p.error);
    var u := Exec(c, io, PUT, url, headers, AttachJsonBody(payload));
    assert u.Failure? ==> IsExecError(io, u.error);
    var d := Exec(c, io, DELETE, url, headers, AttachJsonBody(payload));
    assert d.Failure? ==> IsExecError(io, d.error);
    var x := Exec(c, io, PATCH, url, headers, AttachRawBody(io.toVec(payload)));
    assert x.Failure? ==> IsExecError(io, x.error);
  }

  /** The request each wrapper hands to the transport, once the headers have converted: GET
      carries the query exactly when one is supplied and never a body; POST, PUT and DELETE
      carry the payload as a JSON body; PATCH carries its serialized bytes. */
  lemma WrapperRequests(io: Io, url: string, headers: Option<Headers>, query: Option<Query>, payload: Json)
    requires headers.Some? ==> io.convertHeaders(headers.value).Success?
    ensures var r := Prepare(io, GET, url, headers, AttachQuery(query));
      r.Success? && r.value.query == query && r.value.body == NoBody
    ensures var r := Prepare(io, POST, url, headers, AttachJsonBody(payload));
      r.Success? && r.value.query.None? && r.value.body == JsonBody(payload)
    ensures var r := Prepare(io, PUT, url, headers, AttachJsonBody(payload));
      r.Success? && r.value.query.None? && r.value.body == JsonBody(payload)
    ensures var r := Prepare(io, DELETE, url, headers, AttachJsonBody(payload));
      r.Success? && r.value.query.None? && r.value.body == JsonBody(payload)
    ensures var r := Prepare(io, PATCH, url, headers, AttachRawBody(io.toVec(payload)));
      r.Success? && r.value.query.None? && r.value.body == RawBody(io.toVec(payload))
  {
  }

  /** Deserializing into `serde_json::Value` itself, which always succeeds. */
  function AsValue(v: Json): Result<Json, string> {
    Success(v)
  }

  /** The error document the service sends for a request that lacks credentials. */
  function UnauthorizedBody(): Json {
    Object(map["errors" := Array([Object(map["status" := Str("401"), "title" := Str("unauthorized")])])])
  }

  /** An authenticated endpoint called without credentials: the server's 401 comes back as
      the reason phrase, the code's text and the untouched payload. */
  lemma UnauthorizedGet(c: Client, io: Io, url: string, text: string)
    requires io.send(c.settings, Request(GET, url, None, None, NoBody)) == Received(UNAUTHORIZED, Success(text))
    requires io.parseJson(text) == Success(UnauthorizedBody())
    requires io.canonicalReason(UNAUTHORIZED) == Some("Unauthorized")
    ensures Get(c, io, url, None, None, AsValue) == Failure(Response("Unauthorized", Some("401"), Some(UnauthorizedBody())))
  {
    assert AsStr(UNAUTHORIZED) == "401";
  }

  /** A public endpoint answering 200 with JSON: the payload is returned as parsed. */
  lemma PublicGet(c: Client, io: Io, url: string, text: string, payload: Json)
    requires io.send(c.settings, Request(GET, url, None, None, NoBody)) == Received(OK, Success(text))
    requires io.parseJson(text) == Success(payload)
    ensures Get(c, io, url, None, None, AsValue) == Success(payload)
  {
  }

  // ───────────────────────────── PUT and DELETE panic ─────────────────────────────

  /** A deserializer for a type whose required field the payload lacks. */
  function RequireDataField(v: Json): Result<int, string> {
    match v
    case Object(members) => if "data" in members then Success(0) else Failure("missing field `data`")
    case _ => Failure("invalid type: expected a map")
  }

  /** A server answering 200 with the empty object `{}`. */
  function EmptyObjectServer(): Io {
    Io(h => Success(h), (s, req) => Received(OK, Success("{}")),
       t => if t == "{}" then Success(Object(map[])) else Failure("expected value"),
       v => [], code => None)
  }

  /** As written, a PUT or DELETE whose 2xx payload does not fit the caller's type panics
      instead of returning an error: here `{}` for a type that needs a `data` field. */
  lemma PutAndDeletePanicOnMismatch(c: Client, url: string, payload: Json)
    ensures Put(c, EmptyObjectServer(), url, None, payload, RequireDataField) == Panicked("infallible")
    ensures Delete(c, EmptyObjectServer(), url, None, payload, RequireDataField) == Panicked("infallible")
  {
    var io := EmptyObjectServer();
    assert Interpret(io, Received(OK, Success("{}"))) == Success(Object(map[]));
  }

  /** The checked PUT returns whatever PUT returns, and a status-less, body-less error where
      PUT panics; the same holds for DELETE. */
  lemma CheckedWrappersRefinePanicking<R>(c: Client, io: Io, url: string, headers: Option<Headers>, payload: Json,
                                         decode: Json -> Result<R, string>)
    ensures var p := Put(c, io, url, headers, payload, decode);
      var q := PutChecked(c, io, url, headers, payload, decode);
      && (p.Returned? ==> q == p.result)
      && (p.Panicked? ==> q.Failure? && IsTransportError(q.error))
    ensures var p := Delete(c, io, url, headers, payload, decode);
      var q := DeleteChecked(c, io, url, headers, payload, decode);
      && (p.Returned? ==> q == p.result)
      && (p.Panicked? ==> q.Failure? && IsTransportError(q.error))
  {
  }
}
