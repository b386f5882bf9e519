/** The shared query cache the hooks read from and the mutations invalidate.
    Entries are keyed by query key; each has a state (idle, pending,
    success, error), an invalidated flag and the time of its last
    successful fetch.

    The caching library itself is not part of the repository; what the
    model states about it (one in-flight fetch per key, prefix matching of
    invalidation keys, staleness by time) is a contract of the model. */
module Cache {
  import opened Common
  import opened Hooks

  datatype Status<V> = Idle | Pending | Succeeded(value: V) | Failed(error: Thrown)

  datatype Entry<V> = Entry(status: Status<V>, invalidated: bool, updatedAt: nat)

  type Entries<V> = map<QueryKey, Entry<V>>

  /** Invalidated, or older than the query's stale time. */
  predicate IsStale<V>(e: Entry<V>, staleTime: nat, now: nat) {
    e.invalidated || now >= e.updatedAt + staleTime
  }

  /** Whether observing a query starts a fetch: it must be enabled, no fetch
      for the key may be in flight, and there must be no fresh result. */
  predicate NeedsFetch<V>(entries: Entries<V>, q: Query, now: nat) {
    && q.options.enabled
    && (q.key !in entries
        || (!entries[q.key].status.Pending?
            && (entries[q.key].status.Idle? || entries[q.key].status.Failed?
                || IsStale(entries[q.key], q.options.staleTime, now))))
  }

  /** The entry once a fetch starts: pending, keeping flag and time. */
  function Started<V>(entries: Entries<V>, key: QueryKey): (m: Entries<V>)
    ensures key in m && m[key].status.Pending?
    ensures m.Keys == entries.Keys + {key}
  {
    if key in entries then entries[key := entries[key].(status := Pending)]
    else entries[key := Entry(Pending, false, 0)]
  }

  /** The entry once its fetch settles: a success is fresh as of `now`; a
      failure keeps the previous flag and time. */
  function Settled<V>(e: Entry<V>, result: Result<V, Thrown>, now: nat): (s: Entry<V>)
    ensures result.Ok? ==> s == Entry(Succeeded(result.value), false, now)
    ensures result.Err? ==> s == e.(status := Failed(result.error))
  {
    match result
    case Ok(v) => Entry(Succeeded(v), false, now)
    case Err(t) => e.(status := Failed(t))
  }

  /** `invalidateQueries({queryKey: prefix})`: marks stale every entry whose
      key starts with `prefix`; nothing else changes. */
  function MarkStale<V>(entries: Entries<V>, prefix: QueryKey): (m: Entries<V>)
    ensures m.Keys == entries.Keys
    ensures forall k :: k in m ==> m[k].status == entries[k].status && m[k].updatedAt == entries[k].updatedAt
    ensures forall k :: k in m ==> (m[k].invalidated <==> entries[k].invalidated || prefix <= k)
  {
    map k | k in entries :: if prefix <= k then entries[k].(invalidated := true) else entries[k]
  }

  /** Invalidation of several prefixes, one after the other. */
  function MarkAllStale<V>(entries: Entries<V>, prefixes: seq<QueryKey>): (m: Entries<V>)
    ensures m.Keys == entries.Keys
  {
    if prefixes == [] then entries else MarkAllStale(MarkStale(entries, prefixes[0]), prefixes[1..])
  }

  /** Invalidating twice is invalidating once. */
  lemma MarkStaleIdempotent<V>(entries: Entries<V>, prefix: QueryKey)
    ensures MarkStale(MarkStale(entries, prefix), prefix) == MarkStale(entries, prefix)
  {
  }

  /** While a fetch is in flight for a key, observing that key again does
      not start another: two reads before the first settles issue one call. */
  lemma SecondReadJoinsFirst<V>(entries: Entries<V>, q: Query, now: nat, later: nat)
    ensures !NeedsFetch(Started(entries, q.key), q, later)
  {
  }

  /** A successful upload leaves every cached records entry (the list, any
      patient's list, any search) stale, and every other entry as it was. */
  lemma UploadInvalidatesRecords<V>(entries: Entries<V>, k: QueryKey, staleTime: nat, now: nat)
    requires k in entries
    ensures var after := MarkAllStale(entries, InvalidationTargets(UploadRecordMutation, true));
      && k in after
      && (RecordsKey() <= k ==> IsStale(after[k], staleTime, now))
      && (!(RecordsKey() <= k) ==> after[k] == entries[k])
  {
    var targets := InvalidationTargets(UploadRecordMutation, true);
    assert targets[1..] == [];
    assert MarkAllStale(entries, targets) == MarkStale(entries, RecordsKey());
  }

  /** A successful prediction marks the history entry without a patient id
      stale and leaves every patient's history entry untouched. */
  lemma PredictionInvalidatesHistory<V>(entries: Entries<V>, patientId: Option<string>)
    requires PredictionHistoryKey(patientId) in entries
    ensures var after := MarkAllStale(entries, InvalidationTargets(PredictMutation, true));
      var k := PredictionHistoryKey(patientId);
      && (patientId.None? ==> after[k].invalidated)
      && (patientId.Some? ==> after[k] == entries[k])
  {
    var targets := InvalidationTargets(PredictMutation, true);
    assert targets[1..] == [];
    assert MarkAllStale(entries, targets) == MarkStale(entries, PredictionHistoryKey(None));
    PredictionInvalidationScope(patientId);
  }

  /** A failed mutation leaves the cache exactly as it was. */
  lemma FailedMutationInvalidatesNothing<V>(entries: Entries<V>, m: Mutation)
    ensures MarkAllStale(entries, InvalidationTargets(m, false)) == entries
  {
  }

  /** After a successful upload, the next enabled records query that is not
      already in flight fetches again. */
  lemma UploadForcesRefetch<V>(entries: Entries<V>, patientId: Option<string>, now: nat)
    requires var k := HealthRecordsKey(patientId); k in entries && !entries[k].status.Pending?
    ensures NeedsFetch(MarkAllStale(entries, InvalidationTargets(UploadRecordMutation, true)),
                       HealthRecordsQuery(patientId), now)
  {
    UploadInvalidatesRecords(entries, HealthRecordsKey(patientId), RecordsStaleTime, now);
  }

  class QueryCache<V> {
    var entries: Entries<V>

    constructor ()
      ensures entries == map[]
    {
      entries := map[];
    }

    /** A component subscribes to a query. A fetch starts (the key becomes
        pending) exactly when `NeedsFetch`; a disabled query that has no
        entry yet gets an idle one. */
    method Observe(q: Query, now: nat) returns (fetch: bool)
      modifies this
      ensures fetch == NeedsFetch(old(entries), q, now)
      ensures fetch ==> entries == Started(old(entries), q.key)
      ensures !fetch && q.key in old(entries) ==> entries == old(entries)
      ensures !fetch && q.key !in old(entries) ==> entries == old(entries)[q.key := Entry(Idle, false, 0)]
    {
      fetch := NeedsFetch(entries, q, now);
      if fetch {
        entries := Started(entries, q.key);
      } else if q.key !in entries {
        entries := entries[q.key := Entry(Idle, false, 0)];
      }
    }

    /** The in-flight fetch for `key` settled with `result` (after its
        retries). */
    method Settle(key: QueryKey, result: Result<V, Thrown>, now: nat)
      requires key in entries && entries[key].status.Pending?
      modifies this
      ensures entries == old(entries)[key := Settled(old(entries)[key], result, now)]
    {
      entries := entries[key := Settled(entries[key], result, now)];
    }

    method Invalidate(prefix: QueryKey)
      modifies this
      ensures entries == MarkStale(old(entries), prefix)
    {
      entries := MarkStale(entries, prefix);
    }

    /** A mutation settled: its `onSuccess` invalidates its target keys;
        a failure invalidates nothing. */
    method MutationSettled(m: Mutation, succeeded: bool)
      modifies this
      ensures entries == MarkAllStale(old(entries), InvalidationTargets(m, succeeded))
    {
      if succeeded {
        Invalidate(Invalidates(m));
        assert InvalidationTargets(m, succeeded)[1..] == [];
      }
    }
  }

  /** Two components reading the same enabled query before the first fetch
      settles cause a single fetch. */
  method ConcurrentReadsFetchOnce<V>(q: Query, now: nat) returns (first: bool, second: bool)
    requires q.options.enabled
    ensures first && !second
  {
    var cache := new QueryCache<V>();
    first := cache.Observe(q, now);
    second := cache.Observe(q, now);
  }
}
