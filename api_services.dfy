/** The domain services: one function per service call. Each takes the raw
    outcome of the single client call it makes and translates the client's
    result: fixed user-facing messages for known statuses, fallbacks for
    the health check, and empty results for the read endpoints that the
    backend does not implement. */
module Services {
  import opened Common
  import opened Client
  import ApiConfig

  // ----- Response shapes -----

  datatype HealthCheckResponse = HealthCheckResponse(
    status: string,
    timestamp: string,
    version: string,
    database: string,
    redis: string,
    mlModel: string,
    uptime: real)

  datatype PredictedClass = Benign | Malignant | Suspicious
  datatype RiskLevel = Low | Medium | High

  datatype PredictionResponse = PredictionResponse(
    predictedClass: PredictedClass,
    benign: real,
    malignant: real,
    suspicious: real,
    riskLevel: RiskLevel,
    confidence: real,
    encryptedPrediction: string,
    cacheHit: bool)

  /** The ten clinical fields the backend accepts. */
  datatype ClinicalRecord = ClinicalRecord(
    age: real,
    gender: real,
    bmi: real,
    systolic: real,
    diastolic: real,
    cholesterol: real,
    glucose: real,
    smoking: real,
    familyHistory: real,
    symptomsSeverity: real)

  datatype PredictionRequest = PredictionRequest(clinicalData: ClinicalRecord, imageBase64: string)

  datatype UploadStatus = UploadSucceeded | UploadPartial | UploadFailed

  datatype UploadRecordResponse = UploadRecordResponse(
    recordId: string,
    patientId: string,
    uploadStatus: UploadStatus,
    message: string,
    encrypted: bool,
    encryptionAlgorithm: string,
    timestamp: string)

  /** What a service throws: the client's `ApiClientError` unchanged, or a
      plain `Error` carrying a rewritten message. */
  datatype ServiceError = ClientError(error: ApiClientError) | PlainError(message: string) {
    function Message(): string {
      match this
      case ClientError(e) => e.message
      case PlainError(m) => m
    }
    /** Both kinds are `Error` objects. */
    function AsThrown(): Thrown {
      Raised(OtherError, Message())
    }
  }

  // ----- Health -----

  const Unhealthy: string := "unhealthy"

  /** The record returned when the health check fails. */
  function UnhealthyFallback(now: string): (h: HealthCheckResponse)
    ensures h.status == "unhealthy" && h.version == "unknown"
    ensures h.database == "disconnected" && h.redis == "disconnected" && h.mlModel == "error"
    ensures h.uptime == 0.0 && h.timestamp == now
  {
    HealthCheckResponse(Unhealthy, now, "unknown", "disconnected", "disconnected", "error", 0.0)
  }

  /** `HealthService.checkHealth`: the server's answer on success, otherwise
      the unhealthy record. Every client failure is an `ApiClientError`, so
      this call never fails. */
  function CheckHealth(outcome: RawOutcome<HealthCheckResponse>, now: string): (r: Decoded<HealthCheckResponse>)
    ensures outcome.Responded? && IsOk(outcome.status) ==> r == Decode(outcome.body)
    ensures !(outcome.Responded? && IsOk(outcome.status)) ==> r == Parsed(UnhealthyFallback(now))
  {
    match Classify(outcome, ApiConfig.EndpointTimeout(ApiConfig.Health), now)
    case Ok(envelope) => envelope.data
    case Err(_) => Parsed(UnhealthyFallback(now))
  }

  /** A health check that exceeds its 5 s budget reports "unhealthy"
      instead of failing. */
  lemma HealthTimeoutIsUnhealthy(message: string, now: string)
    ensures CheckHealth(Threw(Raised(AbortError, message)), now).Parsed?
    ensures CheckHealth(Threw(Raised(AbortError, message)), now).value.status == "unhealthy"
  {
  }

  // ----- Prediction -----

  const InvalidInputMessage: string := "Invalid input data. Please check image format and clinical information."
  const ImageTooLargeMessage: string := "Image file too large. Please use a smaller image (max 10MB)."
  const TooManyRequestsMessage: string := "Too many requests. Please wait a moment before trying again."
  const ModelUnavailableMessage: string := "AI model temporarily unavailable. Please try again later."

  /** The statuses `predict` rewrites. */
  const PredictionRewritten: set<nat> := {400, 413, 422, 429, 503}

  /** The error `predict` throws for a client error. */
  function PredictionFailure(e: ApiClientError): (r: ServiceError)
    ensures r == ClientError(e) <==> e.status !in PredictionRewritten
    ensures e.status == 422 ==> r == PlainError(ValidationPrefix + e.message)
  {
    if e.status == 400 then PlainError(InvalidInputMessage)
    else if e.status == 413 then PlainError(ImageTooLargeMessage)
    else if e.status == 422 then PlainError(ValidationPrefix + e.message)
    else if e.status == 429 then PlainError(TooManyRequestsMessage)
    else if e.status == 503 then PlainError(ModelUnavailableMessage)
    else ClientError(e)
  }

  /** The fixed messages of the rewritten statuses. */
  lemma PredictionMessages(e: ApiClientError)
    ensures e.status == 400 ==> PredictionFailure(e) == PlainError(InvalidInputMessage)
    ensures e.status == 413 ==> PredictionFailure(e) == PlainError(ImageTooLargeMessage)
    ensures e.status == 429 ==> PredictionFailure(e) == PlainError(TooManyRequestsMessage)
    ensures e.status == 503 ==> PredictionFailure(e) == PlainError(ModelUnavailableMessage)
  {
  }

  /** `PredictionService.predict`: POST /predict with its 60 s budget. The
      request body goes to the wire only; the result depends on the outcome. */
  function Predict(outcome: RawOutcome<PredictionResponse>, now: string): (r: Result<Decoded<PredictionResponse>, ServiceError>)
    ensures r.Ok? <==> outcome.Responded? && IsOk(outcome.status)
    ensures r.Ok? ==> r.value == Decode(outcome.body)
    ensures r.Err? ==>
      r.error == PredictionFailure(Classify(outcome, ApiConfig.EndpointTimeout(ApiConfig.Predict), now).error)
  {
    match Classify(outcome, ApiConfig.EndpointTimeout(ApiConfig.Predict), now)
    case Ok(envelope) => Ok(envelope.data)
    case Err(e) => Err(PredictionFailure(e))
  }

  const DoubledValidationPrefix: string := "Validation Error: Validation Error: "

  /** A 422 from the prediction endpoint reaches the user with the prefix
      twice: the client adds it, and the service adds it again. */
  lemma PredictionValidationPrefixDoubled(body: ResponseBody<PredictionResponse>, now: string)
    ensures Predict(Responded(422, body), now).Err?
    ensures DoubledValidationPrefix <= Predict(Responded(422, body), now).error.Message()
  {
    var e := Classify(Responded(422, body), ApiConfig.EndpointTimeout(ApiConfig.Predict), now).error;
    assert ValidationPrefix <= e.message;
    assert DoubledValidationPrefix == ValidationPrefix + ValidationPrefix;
    PrefixBeforePrefix(ValidationPrefix, ValidationPrefix, e.message);
  }

  /** Putting the same text before a string and before its prefix keeps it a prefix. */
  lemma PrefixBeforePrefix(head: string, p: string, m: string)
    requires p <= m
    ensures head + p <= head + m
  {
    assert (head + m)[..|head + p|] == head + p;
  }

  /** `getPredictionHistory` is a stub that always yields no entries. */
  function PredictionHistory(): (r: seq<PredictionResponse>)
    ensures |r| == 0
  {
    []
  }

  // ----- Record upload -----

  const InvalidRecordMessage: string := "Invalid record data. Please check all required fields."
  const FileTooLargeMessage: string := "File too large. Please use a smaller file (max 50MB)."
  const UnsupportedTypeMessage: string := "Unsupported file type. Please use supported medical file formats."

  const UploadRewritten: set<nat> := {400, 413, 415}

  function UploadFailure(e: ApiClientError): (r: ServiceError)
    ensures r == ClientError(e) <==> e.status !in UploadRewritten
    ensures e.status == 400 ==> r == PlainError(InvalidRecordMessage)
    ensures e.status == 413 ==> r == PlainError(FileTooLargeMessage)
    ensures e.status == 415 ==> r == PlainError(UnsupportedTypeMessage)
  {
    if e.status == 400 then PlainError(InvalidRecordMessage)
    else if e.status == 413 then PlainError(FileTooLargeMessage)
    else if e.status == 415 then PlainError(UnsupportedTypeMessage)
    else ClientError(e)
  }

  /** `HealthRecordsService.uploadRecord`: POST /upload_record, 30 s. */
  function UploadRecord(outcome: RawOutcome<UploadRecordResponse>, now: string): (r: Result<Decoded<UploadRecordResponse>, ServiceError>)
    ensures r.Ok? <==> outcome.Responded? && IsOk(outcome.status)
    ensures r.Ok? ==> r.value == Decode(outcome.body)
    ensures r.Err? ==>
      r.error == UploadFailure(Classify(outcome, ApiConfig.EndpointTimeout(ApiConfig.UploadRecord), now).error)
  {
    match Classify(outcome, ApiConfig.EndpointTimeout(ApiConfig.UploadRecord), now)
    case Ok(envelope) => Ok(envelope.data)
    case Err(e) => Err(UploadFailure(e))
  }

  /** A 422 on upload is not rewritten: the client's validation message
      reaches the caller as is. */
  lemma UploadValidationPassesThrough(body: ResponseBody<UploadRecordResponse>, now: string)
    ensures UploadRecord(Responded(422, body), now).Err?
    ensures UploadRecord(Responded(422, body), now).error.ClientError?
    ensures UploadRecord(Responded(422, body), now).error.error.status == 422
  {
  }

  // ----- Record listing and search -----

  /** `response.data || []` on success, `[]` on any failure. A JSON array is
      truthy even when empty; `None` stands for a falsy JSON value. A
      non-JSON body comes back as the `{message}` object. */
  function RecordsOrEmpty<R>(r: Result<Envelope<Option<seq<R>>>, ApiClientError>): (out: Decoded<seq<R>>)
    ensures r.Err? ==> out == Parsed([])
    ensures r.Ok? && r.value.data.Parsed? && r.value.data.value.Some? ==> out == Parsed(r.value.data.value.value)
    ensures r.Ok? && r.value.data.Parsed? && r.value.data.value.None? ==> out == Parsed([])
    ensures r.Ok? && r.value.data.Wrapped? ==> out == Wrapped(r.value.data.message)
  {
    match r
    case Err(_) => Parsed([])
    case Ok(envelope) =>
      match envelope.data
      case Parsed(Some(records)) => Parsed(records)
      case Parsed(None) => Parsed([])
      case Wrapped(message) => Wrapped(message)
  }

  const PatientIdParam: string := "?patient_id="

  /** `/records?patient_id=<id>` when the id is truthy, else `/records`.
      The id is inserted without percent-encoding. */
  function RecordsEndpoint(patientId: Option<string>): (e: string)
    ensures Truthy(patientId) ==> e == ApiConfig.GetRecords + PatientIdParam + patientId.value
    ensures !Truthy(patientId) ==> e == ApiConfig.GetRecords
  {
    if Truthy(patientId) then ApiConfig.GetRecords + PatientIdParam + patientId.value else ApiConfig.GetRecords
  }

  /** `HealthRecordsService.getRecords`. */
  function GetRecords<R>(patientId: Option<string>, outcome: RawOutcome<Option<seq<R>>>, now: string): (r: Decoded<seq<R>>)
    ensures !(outcome.Responded? && IsOk(outcome.status)) ==> r == Parsed([])
    ensures outcome.Responded? && IsOk(outcome.status) && outcome.body.JsonBody? ==>
      r == Parsed(if outcome.body.data.Some? then outcome.body.data.value else [])
    ensures outcome.Responded? && IsOk(outcome.status) && outcome.body.TextBody? ==>
      r == Wrapped(outcome.body.text)
  {
    RecordsOrEmpty(Classify(outcome, ApiConfig.EndpointTimeout(RecordsEndpoint(patientId)), now))
  }

  /** Record listing always runs under the default 15 s budget. */
  lemma RecordsUseDefaultTimeout(patientId: Option<string>)
    ensures ApiConfig.EndpointTimeout(RecordsEndpoint(patientId)) == ApiConfig.DefaultTimeout
  {
    if Truthy(patientId) {
      assert (ApiConfig.GetRecords + PatientIdParam + patientId.value)[|ApiConfig.GetRecords|] == '?';
      QueryStringEndpointUsesDefault(ApiConfig.GetRecords, PatientIdParam + patientId.value);
      assert ApiConfig.GetRecords + PatientIdParam + patientId.value
          == ApiConfig.GetRecords + (PatientIdParam + patientId.value);
    }
  }

  /** The search criteria; each field is `None` when absent. */
  datatype SearchQuery = SearchQuery(
    patientName: Option<string>,
    dateFrom: Option<string>,
    dateTo: Option<string>,
    recordType: Option<string>)

  /** The query's entries in declaration order. */
  function Entries(q: SearchQuery): seq<(string, Option<string>)> {
    [("patient_name", q.patientName), ("date_from", q.dateFrom),
     ("date_to", q.dateTo), ("record_type", q.recordType)]
  }

  /** The entries kept: only truthy values are appended. */
  function KeepTruthy(entries: seq<(string, Option<string>)>): (kept: seq<(string, string)>)
    ensures forall k, v :: (k, v) in kept <==> (k, Some(v)) in entries && v != ""
    ensures |kept| <= |entries|
  {
    if entries == [] then []
    else
      var rest := KeepTruthy(entries[1..]);
      assert forall e :: e in entries <==> e == entries[0] || e in entries[1..];
      if Truthy(entries[0].1) then [(entries[0].0, entries[0].1.value)] + rest else rest
  }

  /** The filter keeps order: filtering a concatenation is concatenating
      the filtered halves, so parameters are appended in entry order. */
  lemma {:induction false} KeepTruthyAppend(a: seq<(string, Option<string>)>, b: seq<(string, Option<string>)>)
    ensures KeepTruthy(a + b) == KeepTruthy(a) + KeepTruthy(b)
    decreases |a|
  {
    if a == [] {
      assert a + b == b;
    } else {
      assert (a + b)[0] == a[0];
      assert (a + b)[1..] == a[1..] + b;
      KeepTruthyAppend(a[1..], b);
    }
  }

  function SearchParams(q: SearchQuery): seq<(string, string)> {
    KeepTruthy(Entries(q))
  }

  /** A criterion is sent exactly when its value is truthy. */
  lemma SearchParamsTruthyOnly(q: SearchQuery, v: string)
    ensures ("patient_name", v) in SearchParams(q) <==> q.patientName == Some(v) && v != ""
    ensures ("date_from", v) in SearchParams(q) <==> q.dateFrom == Some(v) && v != ""
    ensures ("date_to", v) in SearchParams(q) <==> q.dateTo == Some(v) && v != ""
    ensures ("record_type", v) in SearchParams(q) <==> q.recordType == Some(v) && v != ""
  {
  }

  // application/x-www-form-urlencoded serialization, as `URLSearchParams`
  // produces it: unreserved characters kept, space as '+', everything else
  // as percent-encoded UTF-8 bytes with upper-case hex.

  predicate KeptAsIs(c: char) {
    ('a' <= c <= 'z') || ('A' <= c <= 'Z') || ('0' <= c <= '9') || c == '*' || c == '-' || c == '.' || c == '_'
  }

  function HexDigit(d: nat): (c: char)
    requires d < 16
    ensures c != '&' && c != '='
  {
    "0123456789ABCDEF"[d]
  }

  predicate IsByte(b: int) { 0 <= b < 256 }

  /** UTF-8 encoding of one scalar value. */
  function Utf8(c: char): (bytes: seq<int>)
    ensures 1 <= |bytes| <= 4
    ensures forall i :: 0 <= i < |bytes| ==> IsByte(bytes[i])
  {
    var n := c as int;
    if n < 0x80 then [n]
    else if n < 0x800 then [0xC0 + n / 64, 0x80 + n % 64]
    else if n < 0x10000 then [0xE0 + n / 4096, 0x80 + (n / 64) % 64, 0x80 + n % 64]
    else [0xF0 + (n / 262144) % 8, 0x80 + (n / 4096) % 64, 0x80 + (n / 64) % 64, 0x80 + n % 64]
  }

  predicate NoDelimiters(s: string) {
    forall i :: 0 <= i < |s| ==> s[i] != '&' && s[i] != '='
  }

  function PercentEncode(bytes: seq<int>): (s: string)
    requires forall i :: 0 <= i < |bytes| ==> IsByte(bytes[i])
    ensures |s| == 3 * |bytes|
    ensures NoDelimiters(s)
  {
    if bytes == [] then ""
    else
      var b := bytes[0];
      assert IsByte(b);
      ['%', HexDigit(b / 16), HexDigit(b % 16)] + PercentEncode(bytes[1..])
  }

  function EncodeChar(c: char): (s: string)
    ensures NoDelimiters(s)
    ensures KeptAsIs(c) ==> s == [c]
  {
    if KeptAsIs(c) then [c]
    else if c == ' ' then "+"
    else PercentEncode(Utf8(c))
  }

  /** The form encoding of a name or value. It never contains `&` or `=`,
      so every appended pair stays one parameter. */
  function FormEncode(s: string): (r: string)
    ensures NoDelimiters(r)
    ensures |r| >= |s|
  {
    if s == [] then "" else EncodeChar(s[0]) + FormEncode(s[1..])
  }

  // The encoding is a prefix-free code: a string is recovered from its
  // encoding, so distinct names or values give distinct encodings.

  lemma HexDigitInjective(a: nat, b: nat)
    requires a < 16 && b < 16 && HexDigit(a) == HexDigit(b)
    ensures a == b
  {
  }

  /** The first encoded byte sits right after the leading `%`. */
  lemma PercentEncodeHead(bytes: seq<int>)
    requires |bytes| > 0 && forall i :: 0 <= i < |bytes| ==> IsByte(bytes[i])
    ensures var s := PercentEncode(bytes);
      s[0] == '%' && s[1] == HexDigit(bytes[0] / 16) && s[2] == HexDigit(bytes[0] % 16)
  {
    var b := bytes[0];
    assert IsByte(b);
    var head := ['%', HexDigit(b / 16), HexDigit(b % 16)];
    var s := PercentEncode(bytes);
    assert s == head + PercentEncode(bytes[1..]);
    assert s[0] == head[0] && s[1] == head[1] && s[2] == head[2];
  }

  lemma {:induction false} PercentEncodeInjective(xs: seq<int>, ys: seq<int>)
    requires forall i :: 0 <= i < |xs| ==> IsByte(xs[i])
    requires forall i :: 0 <= i < |ys| ==> IsByte(ys[i])
    requires |xs| == |ys| && PercentEncode(xs) == PercentEncode(ys)
    ensures xs == ys
    decreases |xs|
  {
    if xs != [] {
      var sx, sy := PercentEncode(xs), PercentEncode(ys);
      PercentEncodeHead(xs);
      PercentEncodeHead(ys);
      HexDigitInjective(xs[0] / 16, ys[0] / 16);
      HexDigitInjective(xs[0] % 16, ys[0] % 16);
      assert xs[0] == ys[0];
      assert sx[3..] == PercentEncode(xs[1..]);
      assert sy[3..] == PercentEncode(ys[1..]);
      PercentEncodeInjective(xs[1..], ys[1..]);
      assert xs == [xs[0]] + xs[1..];
      assert ys == [ys[0]] + ys[1..];
    }
  }

  /** How many bytes a UTF-8 sequence has, read off its first byte. */
  function SequenceLength(lead: int): nat {
    if lead < 0x80 then 1 else if lead < 0xE0 then 2 else if lead < 0xF0 then 3 else 4
  }

  lemma Utf8Lead(c: char)
    ensures |Utf8(c)| == SequenceLength(Utf8(c)[0])
  {
  }

  /** Dividing by 64 twice is dividing by 4096. */
  lemma DivideTwice(n: nat)
    ensures (n / 64) / 64 == n / 4096
  {
    var q, r := n / 4096, n % 4096;
    assert n == 64 * (64 * q + r / 64) + r % 64;
  }

  /** Dividing by 4096 and then by 64 is dividing by 262144. */
  lemma DivideThrice(n: nat)
    ensures (n / 4096) / 64 == n / 262144
  {
    var q, r := n / 262144, n % 262144;
    assert n == 4096 * (64 * q + r / 4096) + r % 4096;
  }

  /** Numbers agreeing on their quotient and remainder by 64 are equal. */
  lemma SplitBy64(m: nat, n: nat)
    requires m / 64 == n / 64 && m % 64 == n % 64
    ensures m == n
  {
  }

  /** The two trailing six-bit groups and the high part fix a number. */
  lemma ThreeGroups(m: nat, n: nat)
    requires m / 4096 == n / 4096 && (m / 64) % 64 == (n / 64) % 64 && m % 64 == n % 64
    ensures m == n
  {
    DivideTwice(m);
    DivideTwice(n);
    SplitBy64(m / 64, n / 64);
    SplitBy64(m, n);
  }

  /** Below 0x110000 the three bits of a four-byte lead are the whole high part. */
  lemma FourGroups(m: nat, n: nat)
    requires m < 0x110000 && n < 0x110000
    requires (m / 262144) % 8 == (n / 262144) % 8 && (m / 4096) % 64 == (n / 4096) % 64
    requires (m / 64) % 64 == (n / 64) % 64 && m % 64 == n % 64
    ensures m == n
  {
    DivideThrice(m);
    DivideThrice(n);
    SplitBy64(m / 4096, n / 4096);
    ThreeGroups(m, n);
  }

  lemma Utf8Injective(c: char, d: char)
    requires Utf8(c) == Utf8(d)
    ensures c == d
  {
    var m, n := c as int, d as int;
    var bc, bd := Utf8(c), Utf8(d);
    if |bc| == 2 {
      assert bc[0] == bd[0] && bc[1] == bd[1];
      SplitBy64(m, n);
    } else if |bc| == 3 {
      assert bc[0] == bd[0] && bc[1] == bd[1] && bc[2] == bd[2];
      ThreeGroups(m, n);
    } else if |bc| == 4 {
      assert bc[0] == bd[0] && bc[1] == bd[1] && bc[2] == bd[2] && bc[3] == bd[3];
      FourGroups(m, n);
    }
  }

  /** No character's encoding is a proper prefix of another's: whichever
      way two encoded strings start, equal text means equal characters. */
  lemma EncodeCharPrefixFree(c: char, d: char, x: string, y: string)
    requires EncodeChar(c) + x == EncodeChar(d) + y
    ensures c == d && x == y
  {
    var ec, ed := EncodeChar(c), EncodeChar(d);
    var whole := ec + x;
    if !KeptAsIs(c) && c != ' ' && !KeptAsIs(d) && d != ' ' {
      var bc, bd := Utf8(c), Utf8(d);
      PercentEncodeHead(bc);
      PercentEncodeHead(bd);
      assert ec[1] == whole[1] == ed[1] && ec[2] == whole[2] == ed[2];
      HexDigitInjective(bc[0] / 16, bd[0] / 16);
      HexDigitInjective(bc[0] % 16, bd[0] % 16);
      Utf8Lead(c);
      Utf8Lead(d);
      assert ec == whole[..|ec|] == ed;
      PercentEncodeInjective(bc, bd);
      Utf8Injective(c, d);
    } else {
      assert ec[0] == whole[0] == ed[0];
    }
    assert x == whole[|ec|..] && y == whole[|ec|..];
  }

  /** Distinct strings have distinct form encodings. */
  lemma {:induction false} FormEncodeInjective(s: string, t: string)
    requires FormEncode(s) == FormEncode(t)
    ensures s == t
    decreases |s|
  {
    if s != [] && t != [] {
      EncodeCharPrefixFree(s[0], t[0], FormEncode(s[1..]), FormEncode(t[1..]));
      FormEncodeInjective(s[1..], t[1..]);
      assert s == [s[0]] + s[1..] && t == [t[0]] + t[1..];
    } else {
      assert |FormEncode(s)| >= |s| && |FormEncode(t)| >= |t|;
    }
  }

  function EncodePair(p: (string, string)): string {
    FormEncode(p.0) + "=" + FormEncode(p.1)
  }

  /** `params.toString()` */
  function Serialize(params: seq<(string, string)>): string {
    Join(seq(|params|, i requires 0 <= i < |params| => EncodePair(params[i])), "&")
  }

  const SearchPath: string := "/records/search?"

  function SearchEndpoint(q: SearchQuery): string {
    SearchPath + Serialize(SearchParams(q))
  }

  /** `HealthRecordsService.searchRecords`. */
  function SearchRecords<R>(q: SearchQuery, outcome: RawOutcome<Option<seq<R>>>, now: string): (r: Decoded<seq<R>>)
    ensures !(outcome.Responded? && IsOk(outcome.status)) ==> r == Parsed([])
    ensures outcome.Responded? && IsOk(outcome.status) && outcome.body.JsonBody? ==>
      r == Parsed(if outcome.body.data.Some? then outcome.body.data.value else [])
    ensures outcome.Responded? && IsOk(outcome.status) && outcome.body.TextBody? ==>
      r == Wrapped(outcome.body.text)
  {
    RecordsOrEmpty(Classify(outcome, ApiConfig.EndpointTimeout(SearchEndpoint(q)), now))
  }

  // ----- Analytics -----

  /** `AnalyticsService.getAnalytics` and `getPerformanceMetrics`: the data
      on success, `null` (`None`) on any failure. */
  function ReadOrNull<D>(endpoint: string, outcome: RawOutcome<D>, now: string): (r: Option<Decoded<D>>)
    ensures r.Some? <==> outcome.Responded? && IsOk(outcome.status)
    ensures r.Some? ==> r.value == Decode(outcome.body)
  {
    match Classify(outcome, ApiConfig.EndpointTimeout(endpoint), now)
    case Ok(envelope) => Some(envelope.data)
    case Err(_) => None
  }
}
