/** The data hooks: the query keys, each query's options, which keys a
    settled mutation invalidates, and the rewriting of error messages for
    display. */
module Hooks {
  import opened Common
  import opened Client
  import opened Services
  import opened QueryDefaults

  /** One element of a query key: a string, `undefined`, or the search
      criteria object. */
  datatype KeyPart = Text(text: string) | Undefined | Criteria(query: SearchQuery)

  type QueryKey = seq<KeyPart>

  function HealthKey(): QueryKey { [Text("health")] }
  function PredictionsKey(): QueryKey { [Text("predictions")] }
  function PredictionHistoryKey(patientId: Option<string>): QueryKey {
    [Text("predictions"), Text("history"), if patientId.Some? then Text(patientId.value) else Undefined]
  }
  function RecordsKey(): QueryKey { [Text("records")] }
  function RecordsByPatientKey(patientId: string): QueryKey {
    [Text("records"), Text("patient"), Text(patientId)]
  }
  function RecordsSearchKey(q: SearchQuery): QueryKey {
    [Text("records"), Text("search"), Criteria(q)]
  }
  function ApiStatusKey(): QueryKey { [Text("api-status")] }

  /** The records query is per patient exactly when the id is truthy. */
  function HealthRecordsKey(patientId: Option<string>): (k: QueryKey)
    ensures Truthy(patientId) ==> k == RecordsByPatientKey(patientId.value)
    ensures !Truthy(patientId) ==> k == RecordsKey()
    ensures RecordsKey() <= k
  {
    if Truthy(patientId) then RecordsByPatientKey(patientId.value) else RecordsKey()
  }

  /** The search runs only when some criterion is truthy. */
  predicate SearchEnabled(q: SearchQuery) {
    Truthy(q.patientName) || Truthy(q.dateFrom) || Truthy(q.dateTo) || Truthy(q.recordType)
  }

  /** Enabled exactly when the search would send at least one parameter. */
  lemma SearchEnabledIffParams(q: SearchQuery)
    ensures SearchEnabled(q) <==> |SearchParams(q)| > 0
  {
    var params := SearchParams(q);
    if SearchEnabled(q) {
      if Truthy(q.patientName) { SearchParamsTruthyOnly(q, q.patientName.value); }
      else if Truthy(q.dateFrom) { SearchParamsTruthyOnly(q, q.dateFrom.value); }
      else if Truthy(q.dateTo) { SearchParamsTruthyOnly(q, q.dateTo.value); }
      else { SearchParamsTruthyOnly(q, q.recordType.value); }
    } else if |params| > 0 {
      var p := params[0];
      SearchParamsTruthyOnly(q, p.1);
      assert false;
    }
  }

  datatype QueryOptions = QueryOptions(
    policy: RetryPolicy,
    staleTime: nat,
    enabled: bool,
    refetchInterval: Option<nat>)

  datatype Query = Query(key: QueryKey, options: QueryOptions)

  const RecordsStaleTime: nat := 1000 * 60 * 2
  const SearchStaleTime: nat := 1000 * 60 * 5

  function HealthCheckQuery(): Query {
    Query(HealthKey(), QueryOptions(NoRetryPolicy, StaleTime, true, Some(30000)))
  }

  function ApiStatusQuery(): Query {
    Query(ApiStatusKey(), QueryOptions(NoRetryPolicy, StaleTime, true, Some(15000)))
  }

  function PredictionHistoryQuery(patientId: Option<string>): Query {
    Query(PredictionHistoryKey(patientId), QueryOptions(QueryPolicy, StaleTime, true, None))
  }

  function HealthRecordsQuery(patientId: Option<string>): Query {
    Query(HealthRecordsKey(patientId), QueryOptions(QueryPolicy, RecordsStaleTime, true, None))
  }

  function SearchRecordsQuery(q: SearchQuery): (query: Query)
    ensures query.options.enabled <==> SearchEnabled(q)
  {
    Query(RecordsSearchKey(q), QueryOptions(QueryPolicy, SearchStaleTime, SearchEnabled(q), None))
  }

  /** Health and API-status queries are never retried; records go stale
      after two minutes and search results after five; everything else
      uses the defaults. */
  lemma QueryOptionValues(patientId: Option<string>, q: SearchQuery)
    ensures HealthCheckQuery().options.policy.retry == 0 && ApiStatusQuery().options.policy.retry == 0
    ensures HealthRecordsQuery(patientId).options.staleTime == 120000
    ensures SearchRecordsQuery(q).options.staleTime == 300000
    ensures PredictionHistoryQuery(patientId).options == QueryOptions(QueryPolicy, 300000, true, None)
    ensures HealthRecordsQuery(patientId).options.policy.retry == 2
  {
  }

  datatype Mutation = PredictMutation | UploadRecordMutation

  /** The options of both mutations: the defaults, one retry after 1 s. */
  function MutationOptions(m: Mutation): (p: RetryPolicy)
    ensures p.retry == 1 && p.backoff == Fixed(1000)
  {
    MutationPolicy
  }

  /** The key each mutation's `onSuccess` passes to `invalidateQueries`. */
  function Invalidates(m: Mutation): QueryKey {
    match m
    case PredictMutation => PredictionHistoryKey(None)
    case UploadRecordMutation => RecordsKey()
  }

  /** Only `onSuccess` invalidates; a failed mutation invalidates nothing. */
  function InvalidationTargets(m: Mutation, succeeded: bool): (keys: seq<QueryKey>)
    ensures !succeeded ==> keys == []
    ensures succeeded ==> keys == [Invalidates(m)]
  {
    if succeeded then [Invalidates(m)] else []
  }

  /** The records key is a prefix of every records key and of no other. */
  lemma RecordsKeyCoversRecords(patientId: Option<string>, id: string, q: SearchQuery, p: Option<string>)
    ensures RecordsKey() <= HealthRecordsKey(patientId)
    ensures RecordsKey() <= RecordsByPatientKey(id)
    ensures RecordsKey() <= RecordsSearchKey(q)
    ensures !(RecordsKey() <= HealthKey()) && !(RecordsKey() <= ApiStatusKey())
    ensures !(RecordsKey() <= PredictionHistoryKey(p))
  {
    assert "records"[0] != "health"[0] && "records"[0] != "api-status"[0] && "records"[0] != "predictions"[0];
    assert RecordsKey()[0] != HealthKey()[0] && RecordsKey()[0] != ApiStatusKey()[0];
    assert RecordsKey()[0] != PredictionHistoryKey(p)[0];
  }

  /** The prediction's invalidation key matches the history key without a
      patient id and no history key that has one. */
  lemma PredictionInvalidationScope(p: Option<string>)
    ensures Invalidates(PredictMutation) <= PredictionHistoryKey(p) <==> p.None?
    ensures !(Invalidates(PredictMutation) <= RecordsKey())
  {
    var k := PredictionHistoryKey(p);
    if p.Some? {
      assert k[2] != Invalidates(PredictMutation)[2];
    }
  }

  const DefaultFallback: string := "An unexpected error occurred"
  const ConnectionError: string := "Connection Error"
  const ConnectionHelp: string := "Unable to connect to the server. Please check your connection and try again."

  datatype Notice = Notice(message: string, description: string)

  /** `useApiError().handleError`: the error's message (or the fallback),
      replaced by a fixed connection notice when it mentions a network
      error or `fetch`. */
  function HandleError(error: Thrown, fallback: string): (n: Notice)
    ensures var m := MessageOr(error, fallback);
      (Contains(m, "Network error") || Contains(m, "fetch")) ==> n == Notice(ConnectionError, ConnectionHelp)
    ensures var m := MessageOr(error, fallback);
      !(Contains(m, "Network error") || Contains(m, "fetch")) ==> n == Notice(m, "")
  {
    var message := MessageOr(error, fallback);
    if Contains(message, "Network error") || Contains(message, "fetch") then Notice(ConnectionError, ConnectionHelp)
    else Notice(message, "")
  }

  /** An unreachable server surfaces through the prediction service (status
      0 is not rewritten) and is shown as the connection notice. */
  lemma UnreachableServerShownAsConnectionError(fetchMessage: string, now: string, fallback: string)
    requires Contains(fetchMessage, "fetch")
    ensures var r := Predict(Threw(Raised(TypeError, fetchMessage)), now);
      r.Err? && r.error.error.status == 0 &&
      HandleError(r.error.AsThrown(), fallback) == Notice(ConnectionError, ConnectionHelp)
  {
    assert NetworkErrorMessage[0..|NetworkErrorHead|] == NetworkErrorHead;
    ContainsAt(NetworkErrorMessage, "Network error", 0);
  }

  /** One prediction attempt as the mutation sees it: the service's result,
      its failure as a thrown `Error`. */
  function PredictAttempt(outcome: RawOutcome<PredictionResponse>, now: string): Result<Decoded<PredictionResponse>, Thrown> {
    match Predict(outcome, now)
    case Ok(data) => Ok(data)
    case Err(e) => Err(e.AsThrown())
  }

  /** A 422 is not exempt from retry: a prediction whose first attempt is
      rejected as invalid is sent again after 1 s, and a success on the
      second attempt is the mutation's result. */
  lemma PredictionValidationFailureRetried(rejected: ResponseBody<PredictionResponse>, data: PredictionResponse, now: string)
    ensures var accepted: RawOutcome<PredictionResponse> := Responded(200, JsonBody(data, ErrorFields(None, None, None, None)));
      var run := Run(MutationOptions(PredictMutation),
        [PredictAttempt(Responded(422, rejected), now), PredictAttempt(accepted, now)]);
      run == RetryRun(Ok(Parsed(data)), 2, 1000)
  {
  }
}
