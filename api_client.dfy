/** The operation client: one attempt per call, a per-endpoint timeout, and
    the classification of that attempt's outcome into a success envelope or
    an `ApiClientError` carrying a message and a numeric status.

    The network is not modelled: what `fetch` did with the prepared request
    is given to `Classify` as a `RawOutcome`. */
module Client {
  import opened Common
  import ApiConfig

  /** `ApiClientError(message, status)`. The whole error taxonomy lives in
      `status`: 0 network, 408 timeout, 422 validation, 500 unknown,
      anything else the server's status. */
  datatype ApiClientError = ApiClientError(message: string, status: nat)

  datatype HttpMethod = GET | POST | PUT | DELETE | PATCH

  /** A truthy request body: a `FormData` (its entries) or any other value,
      which is sent as its JSON serialization. */
  datatype Body = FormData(entries: seq<(string, string)>) | Structured(json: string)

  /** `RequestOptions`. `body` is `None` when absent or falsy; `timeout` is
      `None` when absent. An absent `headers` is the empty map. */
  datatype RequestOptions = RequestOptions(
    verb: Option<HttpMethod>,
    headers: map<string, string>,
    body: Option<Body>,
    timeout: Option<nat>)

  /** What is handed to `fetch`: URL, method, merged headers, body, and the
      budget after which the call is aborted. */
  datatype Outgoing = Outgoing(
    url: string,
    verb: HttpMethod,
    headers: map<string, string>,
    body: Option<Body>,
    timeout: nat)

  /** The members of a JSON error body that the client reads. Each is
      `Some(text)` when present and truthy, `text` being its string
      conversion (for `errors`, its `JSON.stringify`). */
  datatype ErrorFields = ErrorFields(
    detail: Option<string>,
    message: Option<string>,
    error: Option<string>,
    errors: Option<string>)

  /** A response body: parsed JSON (the decoded value and its error
      members), or plain text when the content type is not JSON. */
  datatype ResponseBody<D> = JsonBody(data: D, fields: ErrorFields) | TextBody(text: string)

  /** One attempt's raw outcome: `fetch` resolved with a status and a body,
      or something threw (the abort timer firing throws an `AbortError`; an
      unreachable server, a `TypeError`; a malformed JSON body, some other
      `Error`). */
  datatype RawOutcome<D> = Responded(status: nat, body: ResponseBody<D>) | Threw(thrown: Thrown)

  /** The envelope's `data`: the parsed JSON, or `{message: text}` for a
      non-JSON body. */
  datatype Decoded<D> = Parsed(value: D) | Wrapped(message: string)

  /** `ApiResponse`: `{success, data, timestamp}`. */
  datatype Envelope<D> = Envelope(success: bool, data: Decoded<D>, timestamp: string)

  const Authorization: string := "Authorization"
  const ValidationPrefix: string := "Validation Error: "
  const NetworkErrorHead: string := "Network error"
  const NetworkErrorMessage: string :=
    NetworkErrorHead + " - please check your connection and ensure the API server is running"
  const UnknownErrorMessage: string := "Unknown error occurred"

  const NetworkStatus: nat := 0
  const TimeoutStatus: nat := 408
  const ValidationStatus: nat := 422
  const UnknownStatus: nat := 500

  /** `response.ok` */
  predicate IsOk(status: nat) {
    200 <= status <= 299
  }

  /** `baseUrl.replace(/\/$/, '')`: drops one trailing slash, if any. */
  function StripTrailingSlash(s: string): (r: string)
    ensures s == r + "/" || (s == r && (s == "" || s[|s| - 1] != '/'))
  {
    if |s| > 0 && s[|s| - 1] == '/' then s[..|s| - 1] else s
  }

  /** `options.timeout || getTimeout(endpoint)` */
  function ResolveTimeout(endpoint: string, requested: Option<nat>): (t: nat)
    ensures requested.Some? && requested.value != 0 ==> t == requested.value
    ensures requested.None? || requested.value == 0 ==> t == ApiConfig.EndpointTimeout(endpoint)
    ensures t > 0
  {
    if requested.Some? && requested.value != 0 then requested.value
    else ApiConfig.EndpointTimeout(endpoint)
  }

  /** A request to an endpoint with a query string appended never matches
      a table key, so it gets the default budget unless one is passed. */
  lemma QueryStringEndpointUsesDefault(path: string, query: string)
    requires path in {ApiConfig.Health, ApiConfig.Predict, ApiConfig.UploadRecord, ApiConfig.GetRecords}
    requires |query| > 0 && query[0] == '?'
    ensures ResolveTimeout(path + query, None) == ApiConfig.DefaultTimeout
  {
    var e := path + query;
    assert e[|path|] == '?';
    assert '?' in e;
    assert e !in ApiConfig.EndpointTimeouts by {
      assert '?' !in ApiConfig.Predict && '?' !in ApiConfig.UploadRecord;
      assert '?' !in ApiConfig.Health && '?' !in ApiConfig.DefaultTimeoutKey;
    }
  }

  /** `a || b` on optional truthy strings. */
  function OrElse(a: Option<string>, b: Option<string>): Option<string> {
    if a.Some? then a else b
  }

  /** The error members of a body; a text body is read as `{message: text}`. */
  function Fields<D>(body: ResponseBody<D>): (f: ErrorFields)
    ensures body.TextBody? ==> f.detail.None? && f.error.None? && f.errors.None?
    ensures body.TextBody? ==> (f.message.Some? <==> body.text != "")
  {
    match body
    case JsonBody(_, fields) => fields
    case TextBody(text) => ErrorFields(None, if text != "" then Some(text) else None, None, None)
  }

  function Decode<D>(body: ResponseBody<D>): Decoded<D> {
    match body
    case JsonBody(data, _) => Parsed(data)
    case TextBody(text) => Wrapped(text)
  }

  /** The message of a non-OK response. For 422:
      `"Validation Error: "` ++ (detail || message || error) ++
      (`" Details: "` ++ errors, when present). Otherwise
      error || message || `"HTTP <status>"`. */
  function HttpErrorMessage(status: nat, f: ErrorFields): (m: string)
    ensures status == ValidationStatus ==> ValidationPrefix <= m
  {
    if status == ValidationStatus then
      var detail := OrElse(f.detail, OrElse(f.message, f.error));
      var withDetail := ValidationPrefix + (if detail.Some? then detail.value else "");
      withDetail + (if f.errors.Some? then " Details: " + f.errors.value else "")
    else
      match OrElse(f.error, f.message)
      case Some(m) => m
      case None => "HTTP " + Decimal(status)
  }

  /** The error `request` throws for a thrown value: an abort becomes a
      408 naming the budget, a `TypeError` mentioning `fetch` becomes the
      network error (status 0), and anything else a 500 with its message. */
  function ThrownError(t: Thrown, timeout: nat): (e: ApiClientError)
    ensures e.status in {NetworkStatus, TimeoutStatus, UnknownStatus}
    ensures e.status == TimeoutStatus <==> t.Raised? && t.kind == AbortError
    ensures e.status == NetworkStatus <==> t.Raised? && t.kind == TypeError && Contains(t.message, "fetch")
  {
    match t
    case Raised(AbortError, _) =>
      ApiClientError("Request timeout after " + Decimal(timeout) + "ms", TimeoutStatus)
    case Raised(TypeError, msg) =>
      if Contains(msg, "fetch") then ApiClientError(NetworkErrorMessage, NetworkStatus)
      else ApiClientError(msg, UnknownStatus)
    case Raised(OtherError, msg) => ApiClientError(msg, UnknownStatus)
    case NotAnError => ApiClientError(UnknownErrorMessage, UnknownStatus)
  }

  /** The result of `request` for one attempt: exactly one success
      envelope, or one `ApiClientError`. */
  function Classify<D>(outcome: RawOutcome<D>, timeout: nat, now: string): (r: Result<Envelope<D>, ApiClientError>)
    ensures r.Ok? <==> outcome.Responded? && IsOk(outcome.status)
    ensures r.Ok? ==> r.value == Envelope(true, Decode(outcome.body), now)
    ensures outcome.Responded? && !IsOk(outcome.status) ==>
      r == Err(ApiClientError(HttpErrorMessage(outcome.status, Fields(outcome.body)), outcome.status))
    ensures outcome.Threw? ==> r == Err(ThrownError(outcome.thrown, timeout))
  {
    match outcome
    case Responded(status, body) =>
      if IsOk(status) then Ok(Envelope(true, Decode(body), now))
      else Err(ApiClientError(HttpErrorMessage(status, Fields(body)), status))
    case Threw(t) => Err(ThrownError(t, timeout))
  }

  /** The kinds of failure the numeric status stands for. */
  datatype FailureKind = Network | Timeout | Validation | Unknown | Server(status: nat)

  function KindOf(e: ApiClientError): FailureKind {
    if e.status == NetworkStatus then Network
    else if e.status == TimeoutStatus then Timeout
    else if e.status == ValidationStatus then Validation
    else if e.status == UnknownStatus then Unknown
    else Server(e.status)
  }

  /** Every 422 response is classified as a validation failure, never as a
      server failure, and its message starts with the validation prefix. */
  lemma ValidationResponsesAreValidation<D>(body: ResponseBody<D>, timeout: nat, now: string)
    ensures Classify(Responded(ValidationStatus, body), timeout, now).Err?
    ensures KindOf(Classify(Responded(ValidationStatus, body), timeout, now).error) == Validation
    ensures ValidationPrefix <= Classify(Responded(ValidationStatus, body), timeout, now).error.message
  {
  }

  /** The 422 message: the prefix, the first truthy of detail, message and
      error, then the serialized `errors` when present. */
  lemma ValidationErrorMessage(f: ErrorFields)
    ensures HttpErrorMessage(ValidationStatus, f) ==
      ValidationPrefix
      + (if f.detail.Some? then f.detail.value
         else if f.message.Some? then f.message.value
         else if f.error.Some? then f.error.value
         else "")
      + (if f.errors.Some? then " Details: " + f.errors.value else "")
  {
  }

  /** Any other status: the body's error, else its message, else
      `HTTP <status>`; `detail` and `errors` are ignored. */
  lemma OtherHttpErrorMessage(status: nat, f: ErrorFields)
    requires status != ValidationStatus
    ensures HttpErrorMessage(status, f) ==
      if f.error.Some? then f.error.value
      else if f.message.Some? then f.message.value
      else "HTTP " + Decimal(status)
  {
  }

  /** A non-JSON error body is read as `{message: text}`: a non-empty text
      becomes the message (after the prefix, for 422). */
  lemma TextBodyMessage<D>(status: nat, text: string, timeout: nat, now: string)
    requires !IsOk(status) && text != ""
    ensures var o: RawOutcome<D> := Responded(status, TextBody(text));
      Classify(o, timeout, now) == Err(ApiClientError(
        if status == ValidationStatus then ValidationPrefix + text else text, status))
  {
    var b: ResponseBody<D> := TextBody(text);
    var f := Fields(b);
    assert f == ErrorFields(None, Some(text), None, None);
    if status == ValidationStatus {
      assert HttpErrorMessage(status, f) == ValidationPrefix + text + "";
      assert ValidationPrefix + text + "" == ValidationPrefix + text;
    }
  }

  /** Any non-OK status survives classification unchanged. */
  lemma HttpStatusPreserved<D>(status: nat, body: ResponseBody<D>, timeout: nat, now: string)
    requires !IsOk(status)
    ensures Classify(Responded(status, body), timeout, now).Err?
    ensures Classify(Responded(status, body), timeout, now).error.status == status
  {
  }

  /** A timed-out attempt is a 408 whose message names the budget; the
      number in the message reads back as the budget. */
  lemma TimeoutNamesBudget<D>(message: string, timeout: nat, now: string)
    ensures var o: RawOutcome<D> := Threw(Raised(AbortError, message));
      var r := Classify(o, timeout, now);
      && r.Err? && KindOf(r.error) == Timeout
      && r.error.message == "Request timeout after " + Decimal(timeout) + "ms"
      && DecimalValue(Decimal(timeout)) == timeout
  {
    DecimalRoundTrip(timeout);
  }

  /** A real server 408 whose body carries the same text cannot be told
      apart from a client-side timeout. */
  lemma ServerTimeoutLooksLikeClientTimeout<D>(data: D, now: string)
    ensures var text := "Request timeout after 15000ms";
      Classify(Responded(408, JsonBody(data, ErrorFields(None, None, Some(text), None))), 60000, now)
      == Classify(Threw(Raised(AbortError, "signal is aborted without reason")), 15000, now)
  {
    var text := "Request timeout after 15000ms";
    var f := ErrorFields(None, None, Some(text), None);
    assert HttpErrorMessage(408, f) == text;
    assert Decimal(15000) == "15000" by {
      assert Decimal(1) == "1";
      assert Decimal(15) == "15";
      assert Decimal(150) == "150";
      assert Decimal(1500) == "1500";
    }
    assert "Request timeout after " + "15000" + "ms" == text;
  }

  /** A non-OK status with no message in the body reads `HTTP <status>`. */
  lemma BareHttpErrorMessage<D>(data: D, now: string)
    ensures Classify(Responded(503, JsonBody(data, ErrorFields(None, None, None, None))), 15000, now)
      == Err(ApiClientError("HTTP 503", 503))
  {
    assert HttpErrorMessage(503, ErrorFields(None, None, None, None)) == "HTTP " + Decimal(503);
    assert Decimal(503) == "503" by {
      assert Decimal(5) == "5";
      assert Decimal(50) == "50";
    }
    assert "HTTP " + "503" == "HTTP 503";
  }

  /** The request handed to `fetch`: URL, budget, method, merged headers
      (call headers override defaults), and the body, attached only when it
      is truthy and the method is not GET; a `FormData` body also removes
      `Content-Type`. */
  function Prepared(baseUrl: string, defaultHeaders: map<string, string>, endpoint: string, options: RequestOptions): (out: Outgoing)
    ensures out.url == baseUrl + endpoint
    ensures out.timeout == ResolveTimeout(endpoint, options.timeout)
    ensures out.verb == (if options.verb.Some? then options.verb.value else GET)
    ensures out.body.Some? <==> options.body.Some? && options.verb != Some(GET)
    ensures out.body.Some? ==> out.body == options.body
    ensures forall h :: h != ApiConfig.ContentType ==>
      (h in out.headers <==> h in defaultHeaders || h in options.headers)
    ensures out.headers.Keys <= defaultHeaders.Keys + options.headers.Keys
    ensures forall h :: h in out.headers ==>
      out.headers[h] == if h in options.headers then options.headers[h] else defaultHeaders[h]
    ensures ApiConfig.ContentType in out.headers <==>
      && (ApiConfig.ContentType in defaultHeaders || ApiConfig.ContentType in options.headers)
      && !(out.body.Some? && out.body.value.FormData?)
  {
    var attach := options.body.Some? && options.verb != Some(GET);
    var merged := defaultHeaders + options.headers;
    Outgoing(
      baseUrl + endpoint,
      if options.verb.Some? then options.verb.value else GET,
      if attach && options.body.value.FormData? then merged - {ApiConfig.ContentType} else merged,
      if attach then options.body else None,
      ResolveTimeout(endpoint, options.timeout))
  }

  /** The API client: a base URL without its trailing slash and a header map
      that the auth-token methods update in place. */
  class ApiClient {
    var baseUrl: string
    var defaultHeaders: map<string, string>

    constructor (base: string)
      ensures baseUrl == StripTrailingSlash(base)
      ensures defaultHeaders == ApiConfig.DefaultHeaders
    {
      baseUrl := StripTrailingSlash(base);
      defaultHeaders := ApiConfig.DefaultHeaders;
    }

    /** Sets `Authorization: Bearer <token>`; no other header changes. */
    method SetAuthToken(token: string)
      modifies this
      ensures defaultHeaders == old(defaultHeaders)[Authorization := "Bearer " + token]
      ensures baseUrl == old(baseUrl)
    {
      defaultHeaders := defaultHeaders[Authorization := "Bearer " + token];
    }

    /** Deletes the `Authorization` header; no other header changes. */
    method ClearAuthToken()
      modifies this
      ensures defaultHeaders == old(defaultHeaders) - {Authorization}
      ensures baseUrl == old(baseUrl)
    {
      defaultHeaders := defaultHeaders - {Authorization};
    }

    /** Builds the request handed to `fetch`, step by step as `request`
        does. */
    method Prepare(endpoint: string, options: RequestOptions) returns (out: Outgoing)
      ensures out == Prepared(baseUrl, defaultHeaders, endpoint, options)
    {
      var url := baseUrl + endpoint;
      var timeout := ResolveTimeout(endpoint, options.timeout);
      var verb := if options.verb.Some? then options.verb.value else GET;
      var headers := defaultHeaders + options.headers;
      var body: Option<Body> := None;
      if options.body.Some? && options.verb != Some(GET) {
        if options.body.value.FormData? {
          headers := headers - {ApiConfig.ContentType};
        }
        body := options.body;
      }
      out := Outgoing(url, verb, headers, body, timeout);
    }

    /** `request`: prepares the call and classifies what the network did
        with it. */
    method Request<D>(endpoint: string, options: RequestOptions, outcome: RawOutcome<D>, now: string)
      returns (sent: Outgoing, r: Result<Envelope<D>, ApiClientError>)
      ensures sent == Prepared(baseUrl, defaultHeaders, endpoint, options)
      ensures r == Classify(outcome, sent.timeout, now)
    {
      sent := Prepare(endpoint, options);
      r := Classify(outcome, sent.timeout, now);
    }

    /** `healthCheck`: true exactly when GET /health answered with an OK
        status; every failure reads as false. */
    method HealthCheck<D>(outcome: RawOutcome<D>, now: string) returns (up: bool)
      ensures up <==> outcome.Responded? && IsOk(outcome.status)
    {
      var _, r := Request(ApiConfig.Health, RequestOptions(Some(GET), map[], None, None), outcome, now);
      up := r.Ok? && r.value.success;
    }
  }
}
