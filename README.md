# Quantum Dermo AI frontend: prediction request lifecycle

This project models the client side of Quantum Dermo AI's prediction flow
and proves properties of the model. The flow covers:

- the request layer: configuration, an API client with per-endpoint
  timeouts and error classification, and domain services that rewrite
  errors for the user;
- the query layer: default retry and cache options, query keys, the
  invalidation each mutation triggers, and the rewriting of error messages
  for display;
- three UI pieces of the prediction wizard: the clinical data form (schema,
  defaults, completion percentage, live risk score), the image upload
  component (validation, read progress, base64 payload), and the
  four-step page that ties them together.

One Dafny module stands for each source file:

| module | file |
|---|---|
| `ApiConfig` | `frontend/lib/api/config.ts` |
| `Client` | `frontend/lib/api/client.ts` |
| `Services` | `frontend/lib/api/services.ts` |
| `QueryDefaults` | `frontend/lib/providers/api-provider.tsx` |
| `Hooks` | `frontend/lib/hooks/use-api.ts` |
| `Cache` | the query cache behind the hooks (see below) |
| `PatientForm` | `frontend/components/forms/patient-data-form.tsx` |
| `ImageUpload` | `frontend/components/forms/image-upload.tsx` |
| `PredictPage` | `frontend/app/predict/page.tsx` |

`Common` holds the shared vocabulary: `Option`, `Result`, thrown
JavaScript values, decimal rendering, substring search and `join`.

How the model is shaped:

- **The network is a parameter.** A single attempt of `fetch` is a
  `RawOutcome`. It either responded with a status and a body (JSON, or
  plain text when the content type is not JSON), or it threw: an
  `AbortError` when the timeout fires, a `TypeError` when the server is
  unreachable, or another error.
- **`Client.Classify` decides each attempt.** It turns the outcome into
  exactly one success envelope or one `ApiClientError`. The whole error
  taxonomy lives in that error's numeric status: 0 network, 408 timeout,
  422 validation, 500 unknown, otherwise the server's status.
- **Services are functions of the outcome** of the one call each makes.
- **Objects updated in place are classes.** The API client's header map is
  a class. So are the image uploader's state, the wizard's state and the
  query cache. Each method's `ensures` gives its whole new state. The
  wizard's methods are tied to transition functions on a `Session` value,
  and the invariants and traces are proved about those functions.
- **JavaScript truthiness is explicit.** An optional string field is
  `Option<string>`, and it is truthy when it is present and non-empty.
- **The query cache is part of the model.** The caching library is not in
  the repository. Module `Cache` states the behaviour the hooks rely on as
  contracts of the model:
  - a query is fetched only when enabled, not already in flight, and stale
    or missing;
  - invalidation marks stale every entry whose key starts with the given
    key;
  - a mutation's `onSuccess` is the only place that invalidates.

Where the design documentation and the code disagree, the model follows
the code:

- **Validation errors are retried.** A 422 is retried like any other
  failure: the mutation and query retry options treat every failure alike.
- **The wizard does not keep "image or results implies clinical data".**
  Three things break that invariant in the code:
  - the one-second advance timer is never cancelled;
  - the image callback can arrive after a reset;
  - an awaited prediction settles into whatever state the session is in by
    then.

  The model proves the invariant that does hold (`Consistent`). It
  exhibits the three traces as lemmas.

## Model

| member | source | states |
|---|---|---|
| ApiConfig.BaseUrl | frontend/lib/api/config.ts:3 | the environment URL when it is set and non-empty, otherwise `http://localhost:8001`; never empty |
| ApiConfig.DefaultHeadersExact | frontend/lib/api/config.ts:5-8 | the default headers are exactly `Content-Type` and `Accept`, both `application/json` |
| ApiConfig.EndpointTimeout | frontend/lib/api/config.ts:39-44 | the table budget for an exact key, else the 15 s default; always positive |
| ApiConfig.TimeoutValues | frontend/lib/api/config.ts:39-44 | predict 60 s, upload 30 s, health 5 s, default 15 s |
| ApiConfig.TimeoutsOrdered | frontend/lib/api/config.ts:39-44 | health < default < upload < predict, and every endpoint's budget lies between health and predict |
| ApiConfig.LongEndpointsUseDefault | frontend/lib/api/config.ts:39-44 | an endpoint string longer than every table key gets the default budget |
| Common.DecimalRoundTrip | frontend/lib/api/client.ts:71 | the decimal numeral of the budget in the timeout message reads back as the budget |
| Common.DecimalInjective | frontend/lib/api/client.ts:71 | different budgets give different timeout messages |
| Client.StripTrailingSlash | frontend/lib/api/client.ts:33 | removes exactly one trailing `/` when there is one, and otherwise leaves the URL unchanged |
| Client.ResolveTimeout | frontend/lib/api/client.ts:83 | a non-zero requested timeout wins; an absent or zero one falls back to the endpoint's budget; the result is positive |
| Client.QueryStringEndpointUsesDefault | frontend/lib/api/client.ts:48-50 | a table endpoint with a query string appended no longer matches its key and gets the default budget |
| Client.Fields | frontend/lib/api/client.ts:113-121 | a non-JSON body is read as `{message: text}`: only `message` is set, and only when the text is non-empty |
| Client.HttpErrorMessage | frontend/lib/api/client.ts:124-154 | a 422 message always starts with `Validation Error: ` |
| Client.ValidationErrorMessage | frontend/lib/api/client.ts:130-148 | the 422 message is the prefix, then the first truthy of detail, message and error, then ` Details: ` and the errors when present |
| Client.OtherHttpErrorMessage | frontend/lib/api/client.ts:150 | any other status gives error, else message, else `HTTP <status>`; detail and errors are ignored |
| Client.ThrownError | frontend/lib/api/client.ts:162-182 | status 408 iff the thrown value is an `AbortError`; status 0 iff it is a `TypeError` mentioning `fetch`; 500 for everything else |
| Client.Classify | frontend/lib/api/client.ts:78-183 | success iff the attempt responded with a 2xx status, and then the envelope carries the decoded body; a non-2xx response becomes an error with that status and its message; a throw becomes `ThrownError` |
| Client.ValidationResponsesAreValidation | frontend/lib/api/client.ts:130-148 | every 422 response is an error of the validation kind whose message has the validation prefix |
| Client.TextBodyMessage | frontend/lib/api/client.ts:113-154 | a non-empty text error body becomes the message, after the prefix for a 422 |
| Client.HttpStatusPreserved | frontend/lib/api/client.ts:153 | every non-2xx status reaches the caller unchanged |
| Client.TimeoutNamesBudget | frontend/lib/api/client.ts:68-74 | an aborted attempt is a timeout error whose message names the budget exactly |
| Client.ServerTimeoutLooksLikeClientTimeout | frontend/lib/api/client.ts:68-74 | a server 408 whose body says `Request timeout after 15000ms` cannot be told apart from a client-side abort after 15 s |
| Client.BareHttpErrorMessage | frontend/lib/api/client.ts:150 | a 503 with no message in its body reads `HTTP 503` |
| Client.ApiClient.constructor | frontend/lib/api/client.ts:32-35 | the base URL loses its trailing slash; the headers start as the default headers |
| Client.ApiClient.SetAuthToken | frontend/lib/api/client.ts:38-40 | sets `Authorization: Bearer <token>` and changes no other header |
| Client.ApiClient.ClearAuthToken | frontend/lib/api/client.ts:43-45 | removes `Authorization` and changes no other header |
| Client.Prepared | frontend/lib/api/client.ts:82-103 | URL is base + endpoint; the method defaults to GET; call headers override the defaults; a body is attached iff it is truthy and the method is not GET; a `FormData` body drops `Content-Type` |
| Client.ApiClient.Prepare | frontend/lib/api/client.ts:82-103 | the step-by-step construction builds exactly `Prepared` of the client's base URL and headers |
| Client.ApiClient.Request | frontend/lib/api/client.ts:78-183 | the request sent is `Prepared` of the client's state and the options (URL, budget, method, headers, body), and the result is `Classify` of what the network did with it under that budget |
| Client.ApiClient.HealthCheck | frontend/lib/api/client.ts:211-219 | true iff GET /health answered 2xx; every failure reads as false (also `isApiReachable`) |
| Services.UnhealthyFallback | frontend/lib/api/services.ts:24-34 | the fallback record: status unhealthy, version unknown, database and redis disconnected, model error, uptime 0 |
| Services.CheckHealth | frontend/lib/api/services.ts:17-38 | the server's data on a 2xx answer, otherwise the unhealthy fallback; the check never fails |
| Services.HealthTimeoutIsUnhealthy | frontend/lib/api/services.ts:21-35 | a health check that times out reports status `unhealthy` |
| Services.PredictionFailure | frontend/lib/api/services.ts:67-82 | statuses 400, 413, 422, 429 and 503 are rewritten, and every other client error passes through unchanged; a 422 keeps the client message behind a second prefix |
| Services.PredictionMessages | frontend/lib/api/services.ts:67-82 | the fixed messages of 400, 413, 429 and 503 |
| Services.Predict | frontend/lib/api/services.ts:53-84 | succeeds iff the attempt answered 2xx, with the decoded body; otherwise it throws `PredictionFailure` of the client error |
| Services.PredictionValidationPrefixDoubled | frontend/lib/api/services.ts:73-75 | a 422 from /predict reaches the caller starting with `Validation Error: Validation Error: ` |
| Services.PredictionHistory | frontend/lib/api/services.ts:89-93 | the history is always empty |
| Services.UploadFailure | frontend/lib/api/services.ts:108-120 | exactly 400, 413 and 415 are rewritten, each to its fixed message |
| Services.UploadRecord | frontend/lib/api/services.ts:101-121 | succeeds iff the attempt answered 2xx; otherwise it throws `UploadFailure` of the client error |
| Services.UploadValidationPassesThrough | frontend/lib/api/services.ts:108-120 | a 422 on upload reaches the caller as the client's own error with status 422 |
| Services.RecordsOrEmpty | frontend/lib/api/services.ts:133-136 | any failure gives `[]`; on success an array is returned as is, a falsy value becomes `[]`, and a text body's `{message}` object passes through |
| Services.RecordsEndpoint | frontend/lib/api/services.ts:128-130 | `/records?patient_id=<id>` for a truthy id, else `/records` |
| Services.GetRecords | frontend/lib/api/services.ts:126-138 | on a 2xx answer, the records array, or `[]` for a falsy JSON value, or `{message: text}` for a text body; any failed attempt gives the empty list |
| Services.RecordsUseDefaultTimeout | frontend/lib/api/services.ts:128-132 | listing records always runs under the 15 s default budget |
| Services.KeepTruthy | frontend/lib/api/services.ts:150-153 | a pair is kept iff its value is truthy, with the value unwrapped |
| Services.SearchParamsTruthyOnly | frontend/lib/api/services.ts:150-153 | each criterion is sent with value `v` iff the query holds `v` and `v` is non-empty |
| Services.FormEncode | frontend/lib/api/services.ts:155 | an encoded name or value never contains `&` or `=`, so every appended pair stays one parameter |
| Services.KeepTruthyAppend | frontend/lib/api/services.ts:150-153 | filtering a concatenation filters each part in turn, so kept parameters stay in entry order |
| Services.FormEncodeInjective | frontend/lib/api/services.ts:150-155 | different names or values always encode differently, so no two criteria collide in the query string |
| Services.SearchRecords | frontend/lib/api/services.ts:143-162 | on a 2xx answer, the records array, or `[]` for a falsy JSON value, or `{message: text}` for a text body; any failed attempt gives the empty list |
| Services.ReadOrNull | frontend/lib/api/services.ts:170-191 | analytics and performance data on a 2xx answer, `null` on any failure |
| QueryDefaults.CacheLifetimes | frontend/lib/providers/api-provider.tsx:17-19 | data is fresh for 5 minutes and kept for 10; fresh time is below collection time |
| QueryDefaults.RetryDelay | frontend/lib/providers/api-provider.tsx:23 | every backoff delay lies between 1 s and 30 s |
| QueryDefaults.RetryDelayMonotone | frontend/lib/providers/api-provider.tsx:23 | the backoff never shrinks from one retry to the next |
| QueryDefaults.RetryDelayValues | frontend/lib/providers/api-provider.tsx:23 | 1, 2, 4, 8 and 16 s, then 30 s from the sixth retry on |
| QueryDefaults.Run | frontend/lib/providers/api-provider.tsx:21-33 | attempts stop at the first success or after `retry` retries; every earlier attempt failed; a failed run used every attempt; the wait is the sum of the delays before each retry |
| QueryDefaults.QueryAttemptsBounded | frontend/lib/providers/api-provider.tsx:21-23 | a query is tried at most three times, waiting 3 s in all when every attempt fails |
| QueryDefaults.MutationAttemptsBounded | frontend/lib/providers/api-provider.tsx:31-33 | a mutation is tried at most twice, one second apart when the first attempt fails |
| QueryDefaults.AnyFailureIsRetried | frontend/lib/providers/api-provider.tsx:21-23 | any failure is retried: a failure followed by a success ends in that success after 1 s |
| Hooks.HealthRecordsKey | frontend/lib/hooks/use-api.ts:107 | the per-patient key iff the id is truthy, else `['records']`; either way it starts with `['records']` |
| Hooks.SearchEnabledIffParams | frontend/lib/hooks/use-api.ts:122 | the search query is enabled iff the service would send at least one parameter |
| Hooks.SearchRecordsQuery | frontend/lib/hooks/use-api.ts:119-124 | the search query is enabled iff some criterion is truthy |
| Hooks.QueryOptionValues | frontend/lib/hooks/use-api.ts:27-124 | health and API-status queries never retry; records go stale after 2 min and searches after 5; prediction history uses the defaults |
| Hooks.MutationOptions | frontend/lib/providers/api-provider.tsx:29-34 | both mutations retry once, after 1 s |
| Hooks.InvalidationTargets | frontend/lib/hooks/use-api.ts:51-101 | a successful mutation invalidates its one key, and a failed one invalidates nothing |
| Hooks.RecordsKeyCoversRecords | frontend/lib/hooks/use-api.ts:17-24 | `['records']` is a prefix of every records key and of no health, API-status or history key |
| Hooks.PredictionInvalidationScope | frontend/lib/hooks/use-api.ts:58-60 | the prediction's invalidation key matches the history key iff that key has no patient id, and never a records key |
| Hooks.HandleError | frontend/lib/hooks/use-api.ts:129-141 | a message mentioning `Network error` or `fetch` becomes the fixed connection notice; any other message is shown as is with no description |
| Hooks.UnreachableServerShownAsConnectionError | frontend/lib/hooks/use-api.ts:138-141 | an unreachable server during a prediction surfaces with status 0 and is shown as the connection notice |
| Hooks.PredictionValidationFailureRetried | frontend/lib/providers/api-provider.tsx:31-33 | a prediction rejected with 422 is sent again after 1 s, and a success on the second attempt is the mutation's result |
| Cache.MarkStale | frontend/lib/hooks/use-api.ts:58-60 | invalidation keeps the keys, statuses and times, and flags an entry iff it was flagged or its key starts with the given key |
| Cache.MarkStaleIdempotent | frontend/lib/hooks/use-api.ts:92-94 | invalidating twice is invalidating once |
| Cache.SecondReadJoinsFirst | frontend/lib/hooks/use-api.ts:105-111 | while a fetch is in flight, observing the same key does not start another |
| Cache.UploadInvalidatesRecords | frontend/lib/hooks/use-api.ts:92-94 | after a successful upload every records entry is stale, and every other entry is unchanged |
| Cache.PredictionInvalidatesHistory | frontend/lib/hooks/use-api.ts:58-60 | after a successful prediction the history entry without a patient id is flagged, and each patient's entry is unchanged |
| Cache.FailedMutationInvalidatesNothing | frontend/lib/hooks/use-api.ts:96-101 | a failed mutation leaves the cache as it was |
| Cache.UploadForcesRefetch | frontend/lib/hooks/use-api.ts:105-111 | after a successful upload, the next records query that is not in flight fetches again |
| Cache.QueryCache.constructor | frontend/lib/providers/api-provider.tsx:12-14 | the cache starts empty |
| Cache.QueryCache.Observe | frontend/lib/hooks/use-api.ts:119-124 | a fetch starts iff `NeedsFetch`, and the key becomes pending; otherwise the cache is unchanged, except that a new key gets an idle entry |
| Cache.QueryCache.Settle | frontend/lib/hooks/use-api.ts:105-111 | a success is stored fresh as of now; a failure keeps the previous flag and time; other keys are unchanged |
| Cache.QueryCache.Invalidate | frontend/lib/hooks/use-api.ts:92-94 | the entries become `MarkStale` of the old entries |
| Cache.QueryCache.MutationSettled | frontend/lib/hooks/use-api.ts:83-102 | the entries become the old ones with the mutation's targets invalidated, and only on success |
| Cache.ConcurrentReadsFetchOnce | frontend/lib/hooks/use-api.ts:105-111 | two reads of an enabled query before the first settles cause a single fetch |
| PatientForm.Validate | frontend/components/forms/patient-data-form.tsx:26-44 | accepted iff every field is present and within its inclusive range, with exactly the entered values, so an accepted record satisfies every range; otherwise a non-empty list of exactly the failing fields |
| PatientForm.DefaultValues | frontend/components/forms/patient-data-form.tsx:62-78 | every field holds its built-in default |
| PatientForm.InitialValues | frontend/components/forms/patient-data-form.tsx:62-79 | every field is present: the caller's value where given, else the default |
| PatientForm.DefaultInRange | frontend/components/forms/patient-data-form.tsx:26-78 | each field's built-in default lies within that field's range |
| PatientForm.DefaultsAccepted | frontend/components/forms/patient-data-form.tsx:26-78 | the built-in defaults pass the schema |
| PatientForm.Progress | frontend/components/forms/patient-data-form.tsx:84-89 | the percentage is at most 100, and exactly 100 iff every field has a value |
| PatientForm.InitialFormComplete | frontend/components/forms/patient-data-form.tsx:62-89 | a form started from the defaults shows 100% |
| PatientForm.AgePoints | frontend/components/forms/patient-data-form.tsx:115-117 | age adds at most 3 points |
| PatientForm.BmiPoints | frontend/components/forms/patient-data-form.tsx:120-122 | BMI adds at most 3 points |
| PatientForm.SystolicPoints | frontend/components/forms/patient-data-form.tsx:125-127 | systolic pressure adds at most 3 points |
| PatientForm.GradedPoints | frontend/components/forms/patient-data-form.tsx:131-144 | alcohol and medication each add at most 2 points |
| PatientForm.ExercisePoints | frontend/components/forms/patient-data-form.tsx:134-135 | exercise adds at most 2 points |
| PatientForm.StressPoints | frontend/components/forms/patient-data-form.tsx:146-147 | stress adds at most 2 points |
| PatientForm.RiskScore | frontend/components/forms/patient-data-form.tsx:97-147 | the score never exceeds 27, the sum of the factors' maxima |
| PatientForm.CategoryMonotone | frontend/components/forms/patient-data-form.tsx:150-154 | a higher score never gives a less severe category |
| PatientForm.CategoryThresholds | frontend/components/forms/patient-data-form.tsx:150-154 | destructive badge iff score ≥ 7; Critical iff ≥ 10; Medium or worse iff ≥ 4; Low iff < 2 |
| PatientForm.SmokingAddsThree | frontend/components/forms/patient-data-form.tsx:130 | with all else fixed, smoking adds exactly 3 |
| PatientForm.FamilyHistoryAddsTwo | frontend/components/forms/patient-data-form.tsx:138 | with all else fixed, family history adds exactly 2 |
| PatientForm.DiabetesAddsTwo | frontend/components/forms/patient-data-form.tsx:139 | with all else fixed, diabetes history adds exactly 2 |
| PatientForm.HeartDiseaseAddsThree | frontend/components/forms/patient-data-form.tsx:140 | with all else fixed, heart disease history adds exactly 3 |
| PatientForm.StrictBands | frontend/components/forms/patient-data-form.tsx:115-127 | band limits are exclusive: a value on a limit falls in the lower band |
| PatientForm.EmptyFormIsLowMedium | frontend/components/forms/patient-data-form.tsx:98-110 | an empty form scores 2, Low-Medium, because a missing exercise frequency counts as none |
| PatientForm.DefaultsScoreLow | frontend/components/forms/patient-data-form.tsx:97-155 | a form holding the defaults scores 0, category Low |
| PatientForm.HighRiskScenario | frontend/components/forms/patient-data-form.tsx:97-155 | an obese, hypertensive 70-year-old smoker with family history and no exercise scores 16, Critical |
| ImageUpload.Rejection | frontend/components/forms/image-upload.tsx:55-71 | no error iff the type is accepted and the size is at most the limit; a wrong type reports the accepted formats even when the size is also too large |
| ImageUpload.SizeLimitInclusive | frontend/components/forms/image-upload.tsx:65 | a file of exactly 5000 KB is accepted and one byte more is rejected |
| ImageUpload.ReadingProgress | frontend/components/forms/image-upload.tsx:88-93 | reading progress lies between 10 and 90: 10 at the start, 90 when fully loaded |
| ImageUpload.Split | frontend/components/forms/image-upload.tsx:100 | `split` yields at least one part, and no part contains the separator |
| ImageUpload.SplitThenJoin | frontend/components/forms/image-upload.tsx:100 | joining the parts with the separator gives the string back |
| ImageUpload.JoinThenSplit | frontend/components/forms/image-upload.tsx:100 | splitting a join of separator-free parts gives the parts back |
| ImageUpload.Payload | frontend/components/forms/image-upload.tsx:100 | the payload is absent iff the data URL has no comma, and otherwise contains no comma |
| ImageUpload.PayloadOfDataUrl | frontend/components/forms/image-upload.tsx:95-105 | for a base64 data URL (section 3 of RFC 2397), the payload handed on is exactly the encoded data |
| ImageUpload.ImageUploader.constructor | frontend/components/forms/image-upload.tsx:31-43 | omitted props take the default formats and the 5000 KB limit, and the component starts empty |
| ImageUpload.ImageUploader.ValidateFile | frontend/components/forms/image-upload.tsx:55-71 | accepts iff `Accepts`; the error becomes `Rejection`; nothing else changes |
| ImageUpload.ImageUploader.ProcessFile | frontend/components/forms/image-upload.tsx:54-80 | a rejected file only sets the error; an accepted one resets progress to 0 and records the file's details |
| ImageUpload.ImageUploader.OnLoadStart | frontend/components/forms/image-upload.tsx:84-86 | progress becomes 10 and nothing else changes |
| ImageUpload.ImageUploader.OnProgress | frontend/components/forms/image-upload.tsx:88-93 | with a known total, progress becomes `ReadingProgress`; otherwise it is unchanged |
| ImageUpload.ImageUploader.OnLoad | frontend/components/forms/image-upload.tsx:95-105 | the data URL becomes the preview, progress reaches 100, and the payload handed on is `Payload` of the data URL |
| ImageUpload.ImageUploader.OnError | frontend/components/forms/image-upload.tsx:107-110 | shows the read error and resets progress, keeping the image and its details |
| ImageUpload.ImageUploader.RemoveImage | frontend/components/forms/image-upload.tsx:142-150 | clears the preview, details, progress and error |
| PredictPage.StepIndex | frontend/app/predict/page.tsx:54 | the index of a step in the step list, where that step indeed sits |
| PredictPage.StepProgress | frontend/app/predict/page.tsx:55 | the percentage equals (index + 1) / 4 × 100 exactly |
| PredictPage.StepProgressIncreases | frontend/app/predict/page.tsx:47-55 | later steps show strictly more progress: 25% first, 100% last |
| PredictPage.Initial | frontend/app/predict/page.tsx:36-42 | the first step with nothing entered, no result and no error |
| PredictPage.BackendRecordCopiesTenFields | frontend/app/predict/page.tsx:76-88 | each field that is sent carries its entered value, and exactly the six lifestyle fields are not sent |
| PredictPage.LifestyleNotSent | frontend/app/predict/page.tsx:76-88 | records that differ only in lifestyle fields send the same request |
| PredictPage.SubmitRequest | frontend/app/predict/page.tsx:70-90 | a request is built iff clinical data is present and the image is non-empty; it carries that image and the ten backend fields |
| PredictPage.BeginSubmit | frontend/app/predict/page.tsx:71-73 | a guarded-out submission changes nothing; otherwise only the error is cleared |
| PredictPage.FinishSubmit | frontend/app/predict/page.tsx:92-100 | a result is stored and the results step shown; a failure stores its message, or `Failed to get prediction`, and keeps the step |
| PredictPage.ReviewButtonMatchesGuard | frontend/app/predict/page.tsx:219-226 | on the review step the button is enabled iff the submit guard lets the request through |
| PredictPage.ResultsIsFinal | frontend/app/predict/page.tsx:224 | the results step never proceeds |
| PredictPage.ValidationErrorShownDoubled | frontend/app/predict/page.tsx:96-100 | a 422 on prediction shows the doubled validation prefix and stays on the current step |
| PredictPage.SubmitForm | frontend/components/forms/patient-data-form.tsx:61-94 | a form that passes the schema hands its record to `ClinicalSubmit`; a rejected form changes nothing; any clinical data it stores satisfies every range |
| PredictPage.ApplyKeepsConsistent | frontend/app/predict/page.tsx:57-113 | every handler, timer and settlement keeps: results step implies a result, image step implies clinical data, and stored clinical data satisfies the schema |
| PredictPage.RunKeepsConsistent | frontend/app/predict/page.tsx:57-113 | any sequence of events keeps that invariant, the schema part included |
| PredictPage.ReachableConsistent | frontend/app/predict/page.tsx:36-113 | every session reachable from the initial one satisfies it, so the page never holds clinical data outside the schema |
| PredictPage.ResetDuringSubmitShowsResults | frontend/app/predict/page.tsx:92-113 | a reset while the prediction is awaited ends on the results step with no clinical data or image |
| PredictPage.StaleTimerReachesEmptyReview | frontend/app/predict/page.tsx:62-68 | the advance timer outlives a reset and shows an empty review step, whose guard sends nothing |
| PredictPage.LateImageAfterReset | frontend/app/predict/page.tsx:62-63 | an image delivered after a reset is kept without clinical data |
| PredictPage.PredictWizard.Progress | frontend/app/predict/page.tsx:55 | the bar shows (index + 1) / 4 × 100 for the current step |
| PredictPage.PredictWizard.constructor | frontend/app/predict/page.tsx:36-42 | the wizard starts in `Initial()` |
| PredictPage.PredictWizard.HandleClinicalDataSubmit | frontend/app/predict/page.tsx:57-60 | the new state is `ClinicalSubmit` of the old: the data is kept and the image step shown |
| PredictPage.PredictWizard.SubmitClinicalForm | frontend/components/forms/patient-data-form.tsx:186 | the new state is `SubmitForm` of the old: validated data reaches the page, a rejected form changes nothing |
| PredictPage.PredictWizard.HandleImageSelect | frontend/app/predict/page.tsx:62-63 | the new state is `ImageSelect` of the old: only the image changes |
| PredictPage.PredictWizard.AdvanceTimerFired | frontend/app/predict/page.tsx:65-67 | the new state is `AdvanceToReview` of the old: only the step changes |
| PredictPage.PredictWizard.BeginSubmitPrediction | frontend/app/predict/page.tsx:70-90 | returns `SubmitRequest` of the old state; the new state is `BeginSubmit` of the old |
| PredictPage.PredictWizard.FinishSubmitPrediction | frontend/app/predict/page.tsx:92-101 | the new state is `FinishSubmit` of the state at that moment |
| PredictPage.PredictWizard.HandleReset | frontend/app/predict/page.tsx:104-113 | the state becomes the initial one |

## Left out

- `AuthService` (`frontend/lib/api/services.ts` from line 195): login, logout and token refresh are not part of the prediction flow.
- The network, `AbortController`, `setTimeout`, `FileReader` and `Date`: they are parameters. An attempt's raw outcome, the timestamp, and each timer or reader callback are inputs or methods the environment calls.
- Console logging, toasts and the results export (`frontend/app/predict/page.tsx:115-217`) are output only.
- `useApiLoadingStates` and the drag-and-drop handlers are presentational and change no modelled state.
- The caching library itself is not in the repository. Garbage collection after `gcTime`, `refetchInterval`, refetch on reconnect and focus handling are not modelled; `Cache` states only fetch deduplication, staleness and prefix invalidation.
- `predictionMutation.reset()` in the page's reset handler: the mutation's own pending or error state is not modelled.
- `isDragOver` and the file input element's value are not modelled.
- `Services.Predict`, `Services.UploadRecord`: the request body does not affect the result, because it goes to the wire only. What is sent is stated by `Client.Prepared` and `PredictPage.SubmitRequest`.
- `ImageUpload.Rejection`: the size formatter (`formatFileSize`, which uses logarithms and `toFixed`) is a parameter `sizeLabel`, so the exact size text is not modelled.
- `ImageUpload.ReadingProgress`: `Math.round` on floating point is modelled as exact rounding half up. `OnProgress` requires a positive total when the length is computable, so the browser's `total == 0` (which would give `NaN`) is not modelled.
- `PatientForm`: numbers are modelled as `real`. `NaN` and infinities, which the schema rejects, are not representable.
- `PredictPage.BackendRecord`: `parseFloat(age.toString())` is modelled as the identity, which holds for every finite number.
- `Common.Decimal`: it renders whole numbers only, the JavaScript form for integers below 10^21. Every timeout budget is such a number.
- `ApiConfig.EndpointTimeout`: keys inherited from JavaScript's object prototype (such as `constructor`) are not in the table, so the model gives them the default budget.
- `Services.Entries`: the criteria are listed in declaration order. `Object.entries` follows the caller object's insertion order, which is not modelled.
- `Hooks.RecordsSearchKey`: the search key holds the criteria object as one key part. The caching library's hashing of objects, which ignores property order, is not modelled.
- `Cache.QueryCache.Settle`: retries happen inside one fetch. Their count and delays are stated by `QueryDefaults.Run`, not by the cache.
- `PredictPage.Consistent`: the invariant covers the results and image steps only. The stronger "image or results implies clinical data" does not hold in the code; see the three trace lemmas.
