/** The request layer's static configuration: backend origin, default
    headers, endpoint paths and the per-endpoint timeout table. */
module ApiConfig {
  import opened Common

  const DefaultBaseUrl: string := "http://localhost:8001"

  /** `NEXT_PUBLIC_API_URL || 'http://localhost:8001'`: an unset or empty
      environment value falls back to the local origin. */
  function BaseUrl(env: Option<string>): (url: string)
    ensures Truthy(env) ==> url == env.value
    ensures !Truthy(env) ==> url == DefaultBaseUrl
    ensures url != ""
  {
    if Truthy(env) then env.value else DefaultBaseUrl
  }

  const ContentType: string := "Content-Type"
  const Accept: string := "Accept"
  const JsonMediaType: string := "application/json"

  /** Headers every request starts from. */
  const DefaultHeaders: map<string, string> :=
    map[ContentType := JsonMediaType, Accept := JsonMediaType]

  // Endpoint paths.
  const Health: string := "/health"
  const Predict: string := "/predict"
  const UploadRecord: string := "/upload_record"
  const GetRecords: string := "/records"
  const Login: string := "/auth/login"
  const Logout: string := "/auth/logout"
  const Refresh: string := "/auth/refresh"
  const Users: string := "/users"
  const UserProfile: string := "/users/profile"
  const Analytics: string := "/analytics"
  const Performance: string := "/performance"
  const DataSources: string := "/data-sources"

  /** Timeout budgets in milliseconds, keyed by exact endpoint string; the
      table also holds a key named `DEFAULT`. */
  const DefaultTimeoutKey: string := "DEFAULT"
  const EndpointTimeouts: map<string, nat> := map[
    Predict := 60000,
    UploadRecord := 30000,
    Health := 5000,
    DefaultTimeoutKey := 15000
  ]
  const DefaultTimeout: nat := 15000

  /** `ENDPOINT_TIMEOUTS[endpoint] || ENDPOINT_TIMEOUTS.DEFAULT`: the table
      entry for the exact endpoint string, else the default budget. */
  function EndpointTimeout(endpoint: string): (t: nat)
    ensures endpoint in EndpointTimeouts ==> t == EndpointTimeouts[endpoint]
    ensures endpoint !in EndpointTimeouts ==> t == DefaultTimeout
    ensures t > 0
  {
    if endpoint in EndpointTimeouts && EndpointTimeouts[endpoint] != 0
    then EndpointTimeouts[endpoint]
    else EndpointTimeouts[DefaultTimeoutKey]
  }

  /** The four budgets, exactly. */
  lemma TimeoutValues()
    ensures EndpointTimeout(Predict) == 60000
    ensures EndpointTimeout(UploadRecord) == 30000
    ensures EndpointTimeout(Health) == 5000
    ensures EndpointTimeout(DefaultTimeoutKey) == DefaultTimeout == 15000
  {
  }

  /** Health checks get the smallest budget and predictions the largest:
      health < default < upload < predict. */
  lemma TimeoutsOrdered()
    ensures EndpointTimeout(Health) < DefaultTimeout
    ensures DefaultTimeout < EndpointTimeout(UploadRecord)
    ensures EndpointTimeout(UploadRecord) < EndpointTimeout(Predict)
    ensures forall e :: EndpointTimeout(Health) <= EndpointTimeout(e) <= EndpointTimeout(Predict)
  {
  }

  /** Any endpoint whose string is longer than every table key, such as a
      path carrying a query string, gets the default budget. */
  lemma LongEndpointsUseDefault(endpoint: string)
    requires |endpoint| > |UploadRecord|
    ensures EndpointTimeout(endpoint) == DefaultTimeout
  {
    assert endpoint !in EndpointTimeouts by {
      assert |endpoint| != |Predict| && |endpoint| != |UploadRecord|;
      assert |endpoint| != |Health| && |endpoint| != |DefaultTimeoutKey|;
    }
  }

  /** Content-Type and Accept, both JSON, and nothing else. */
  lemma DefaultHeadersExact()
    ensures DefaultHeaders.Keys == {"Content-Type", "Accept"}
    ensures DefaultHeaders["Content-Type"] == "application/json"
    ensures DefaultHeaders["Accept"] == "application/json"
  {
  }
}
