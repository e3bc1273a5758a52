/**
 * The remote-data component: the ordering of payloads by requested type,
 * the values it caches in the preference data store (refresh interval,
 * random value, change token), the foreground refresh gate, the refresh
 * request it hands to the work manager and how the providers' refresh
 * results combine into one work result and per-source statuses.
 *
 * The providers' network refresh, `UUID()` and `Int.random` are foreign:
 * their results arrive as parameters.
 */
module Remote {
  import Wrappers
  import AirshipJson

  const RefreshTaskID := "RemoteData.refresh"
  const DefaultRefreshInterval: real := 10.0
  const RefreshRemoteDataPushPayloadKey := "com.urbanairship.remote-data.update"
  const RefreshIntervalKey := "remotedata.REFRESH_INTERVAL"
  const RandomValueKey := "remotedata.randomValue"
  const ChangeTokenKey := "remotedata.CHANGE_TOKEN"
  /** `Date.distantPast` (year 1 of the common era), in seconds since the reference date 2001-01-01. */
  const DistantPast: real := -63114076800.0

  datatype RemoteDataSource = App | Contact

  /** `RefreshStatus`: `.none`, `.success`, `.failed` */
  datatype RefreshStatus = StatusNone | StatusSuccess | StatusFailed

  /** `RemoteDataRefreshResult`: `.newData`, `.skipped`, `.failed` */
  datatype RefreshResult = NewData | Skipped | RefreshFailed

  /** `AirshipWorkResult` */
  datatype WorkResult = WorkSuccess | WorkFailure

  /** `UIBackgroundFetchResult`, the two values the push handler reports */
  datatype FetchResult = FetchNoData | FetchNewData

  datatype WorkConflictPolicy = AppendWork | ReplaceWork | KeepWork

  /** `AirshipWorkRequest` */
  datatype WorkRequest = WorkRequest(workID: string, initialDelay: real, requiresNetwork: bool,
                                     conflictPolicy: WorkConflictPolicy)

  /** What one provider's refresh reported, in the order the task group delivered it. */
  datatype Published = Published(source: RemoteDataSource, result: RefreshResult)

  /** `RemoteDataPayload`; its `remoteDataInfo` plays no part here and is not modelled. */
  datatype RemoteDataPayload = RemoteDataPayload(payloadType: string, timestamp: real, data: AirshipJson.Json)

  /** A value as the preference data store hands it back. */
  datatype StoreValue = DoubleValue(d: real) | IntValue(n: int) | StringValue(s: string)

  // ---------------------------------------------------------------------
  // sortedByType
  // ---------------------------------------------------------------------

  /** `types.firstIndex(of: t)` */
  function FirstIndex(types: seq<string>, t: string): (r: Wrappers.Option<nat>)
    ensures r.Some? ==> r.value < |types| && types[r.value] == t && t !in types[..r.value]
    ensures r.None? <==> t !in types
  {
    if types == [] then Wrappers.None
    else if types[0] == t then Wrappers.Some(0)
    else
      var rest := FirstIndex(types[1..], t);
      assert types[1..][..0] == [];
      if rest.None? then Wrappers.None
      else
        assert types[..rest.value + 1] == [types[0]] + types[1..][..rest.value];
        Wrappers.Some(rest.value + 1)
  }

  /** The sort key of a payload type: its first position in `types`, or 0 when absent. */
  function TypeRank(types: seq<string>, t: string): (r: nat)
    ensures t in types ==> r < |types| && types[r] == t && t !in types[..r]
    ensures t !in types ==> r == 0
  {
    FirstIndex(types, t).GetOr(0)
  }

  ghost predicate SortedByRank(types: seq<string>, s: seq<RemoteDataPayload>) {
    forall i, j | 0 <= i < j < |s| :: TypeRank(types, s[i].payloadType) <= TypeRank(types, s[j].payloadType)
  }

  /** Putting in front a payload that ranks no higher than any of an ordered sequence keeps it ordered. */
  lemma PrependSorted(types: seq<string>, x: RemoteDataPayload, s: seq<RemoteDataPayload>)
    requires SortedByRank(types, s)
    requires forall y | y in s :: TypeRank(types, x.payloadType) <= TypeRank(types, y.payloadType)
    ensures SortedByRank(types, [x] + s)
  {
  }

  lemma TailSorted(types: seq<string>, s: seq<RemoteDataPayload>)
    requires SortedByRank(types, s) && s != []
    ensures SortedByRank(types, s[1..])
  {
  }

  /** The head of an ordered sequence ranks no higher than anything inserted behind it. */
  lemma HeadBoundsInserted(types: seq<string>, p: RemoteDataPayload, s: seq<RemoteDataPayload>, rest: seq<RemoteDataPayload>)
    requires SortedByRank(types, s) && s != []
    requires TypeRank(types, s[0].payloadType) < TypeRank(types, p.payloadType)
    requires multiset(rest) == multiset(s[1..]) + multiset{p}
    ensures forall y | y in rest :: TypeRank(types, s[0].payloadType) <= TypeRank(types, y.payloadType)
  {
    forall y | y in rest
      ensures TypeRank(types, s[0].payloadType) <= TypeRank(types, y.payloadType)
    {
      assert y in multiset(rest);
      if y != p {
        assert y in multiset(s[1..]);
        var k :| 0 <= k < |s[1..]| && s[1..][k] == y;
        assert s[k + 1] == y;
      }
    }
  }

  /** Places `p` into the ordered `s` ahead of the first payload of higher rank. */
  function Insert(types: seq<string>, p: RemoteDataPayload, s: seq<RemoteDataPayload>): (r: seq<RemoteDataPayload>)
    requires SortedByRank(types, s)
    ensures multiset(r) == multiset(s) + multiset{p}
    ensures SortedByRank(types, r)
  {
    if s == [] then [p]
    else if TypeRank(types, p.payloadType) <= TypeRank(types, s[0].payloadType) then
      assert forall y | y in s :: TypeRank(types, s[0].payloadType) <= TypeRank(types, y.payloadType);
      PrependSorted(types, p, s);
      [p] + s
    else
      TailSorted(types, s);
      var rest := Insert(types, p, s[1..]);
      HeadBoundsInserted(types, p, s, rest);
      PrependSorted(types, s[0], rest);
      assert multiset([s[0]] + rest) == multiset(s) + multiset{p} by {
        assert s == [s[0]] + s[1..];
      }
      [s[0]] + rest
  }

  /** `sortedByType`: a permutation of the payloads, ordered by the rank of their type. */
  function SortedByType(payloads: seq<RemoteDataPayload>, types: seq<string>): (r: seq<RemoteDataPayload>)
    ensures multiset(r) == multiset(payloads)
    ensures |r| == |payloads|
    ensures SortedByRank(types, r)
  {
    if payloads == [] then []
    else
      assert payloads == [payloads[0]] + payloads[1..];
      Insert(types, payloads[0], SortedByType(payloads[1..], types))
  }

  /** A type that is not requested sorts together with the first requested type. */
  lemma AbsentRankZero(types: seq<string>, t: string)
    requires t !in types
    ensures TypeRank(types, t) == 0
    ensures |types| > 0 ==> TypeRank(types, t) == TypeRank(types, types[0])
  {
  }

  /** A requested type ranks at its first position, so earlier-listed types sort first. */
  lemma RequestedRankOrder(types: seq<string>, i: nat, j: nat)
    requires i < j < |types| && types[j] !in types[..j]
    ensures TypeRank(types, types[i]) <= i < TypeRank(types, types[j]) == j
  {
  }

  // ---------------------------------------------------------------------
  // Values cached in the preference data store
  // ---------------------------------------------------------------------

  /** `object(forKey: refreshIntervalKey) as? TimeInterval` */
  function StoredInterval(store: map<string, StoreValue>): Wrappers.Option<real> {
    if RefreshIntervalKey in store && store[RefreshIntervalKey].DoubleValue? then Wrappers.Some(store[RefreshIntervalKey].d)
    else if RefreshIntervalKey in store && store[RefreshIntervalKey].IntValue? then Wrappers.Some(store[RefreshIntervalKey].n as real)
    else Wrappers.None
  }

  /** `object(forKey: randomValueKey) as? Int` */
  function StoredRandom(store: map<string, StoreValue>): Wrappers.Option<int> {
    if RandomValueKey in store && store[RandomValueKey].IntValue? then Wrappers.Some(store[RandomValueKey].n)
    else Wrappers.None
  }

  /** `string(forKey: changeTokenKey)` */
  function StoredToken(store: map<string, StoreValue>): Wrappers.Option<string> {
    if ChangeTokenKey in store && store[ChangeTokenKey].StringValue? then Wrappers.Some(store[ChangeTokenKey].s)
    else Wrappers.None
  }

  /** `remoteDataRefreshInterval` (getter): the stored interval, else the default of 10 seconds. */
  function RefreshInterval(store: map<string, StoreValue>): (r: real)
    ensures StoredInterval(store).Some? ==> r == StoredInterval(store).value
    ensures StoredInterval(store).None? ==> r == DefaultRefreshInterval
  {
    StoredInterval(store).GetOr(DefaultRefreshInterval)
  }

  /** The setter stores the interval as a double, and the getter then returns it. */
  lemma RefreshIntervalRoundTrip(store: map<string, StoreValue>, interval: real)
    ensures RefreshInterval(store[RefreshIntervalKey := DoubleValue(interval)]) == interval
    ensures RefreshIntervalKey !in store ==> RefreshInterval(store) == DefaultRefreshInterval
  {
  }

  /** The stored random value is never outside the range `randomValue` draws from. */
  ghost predicate RandomInRange(store: map<string, StoreValue>) {
    StoredRandom(store).Some? ==> 0 <= StoredRandom(store).value <= 9999
  }

  /** A new change token touches neither the refresh interval nor the random value. */
  lemma TokenWriteIsolated(store: map<string, StoreValue>, token: string)
    ensures RefreshInterval(store[ChangeTokenKey := StringValue(token)]) == RefreshInterval(store)
    ensures StoredRandom(store[ChangeTokenKey := StringValue(token)]) == StoredRandom(store)
    ensures StoredToken(store[ChangeTokenKey := StringValue(token)]) == Wrappers.Some(token)
  {
  }

  /** Caching the random value touches neither the refresh interval nor the change token. */
  lemma RandomWriteIsolated(store: map<string, StoreValue>, value: int)
    ensures RefreshInterval(store[RandomValueKey := IntValue(value)]) == RefreshInterval(store)
    ensures StoredToken(store[RandomValueKey := IntValue(value)]) == StoredToken(store)
    ensures StoredRandom(store[RandomValueKey := IntValue(value)]) == Wrappers.Some(value)
  {
  }

  /** Whether a foreground at `now` is due for a refresh. */
  predicate ForegroundRefreshDue(lastActiveRefreshDate: real, store: map<string, StoreValue>, now: real) {
    now >= lastActiveRefreshDate + RefreshInterval(store)
  }

  /**
   * After a foreground refresh at `t`, which also replaced the change token,
   * the next one is due exactly once the interval has passed again.
   */
  lemma ForegroundGateReopens(store: map<string, StoreValue>, token: string, t: real, now: real)
    ensures ForegroundRefreshDue(t, store[ChangeTokenKey := StringValue(token)], now)
        <==> now >= t + RefreshInterval(store)
    ensures RefreshInterval(store) > 0.0 ==> !ForegroundRefreshDue(t, store[ChangeTokenKey := StringValue(token)], t)
  {
  }

  // ---------------------------------------------------------------------
  // Combining refresh results
  // ---------------------------------------------------------------------

  /** The status a source is given for a refresh result. */
  function StatusFor(result: RefreshResult): (st: RefreshStatus)
    ensures st == StatusFailed <==> result == RefreshFailed
    ensures st != StatusNone
  {
    if result == RefreshFailed then StatusFailed else StatusSuccess
  }

  /** The statuses after each published result has been sent to its source's subject, if it has one. */
  function StatusesAfter(status: map<RemoteDataSource, RefreshStatus>, published: seq<Published>)
    : (r: map<RemoteDataSource, RefreshStatus>)
    ensures r.Keys == status.Keys
  {
    if published == [] then status
    else
      var before := StatusesAfter(status, published[..|published| - 1]);
      var last := published[|published| - 1];
      if last.source in before then before[last.source := StatusFor(last.result)] else before
  }

  predicate NoneFailed(published: seq<Published>) {
    forall i | 0 <= i < |published| :: published[i].result != RefreshFailed
  }

  ghost predicate DistinctSources(published: seq<Published>) {
    forall i, j | 0 <= i < j < |published| :: published[i].source != published[j].source
  }

  /**
   * Each source that reported once ends with the status of its own result;
   * a source that did not report keeps its status.
   */
  lemma {:induction false} StatusesAfterPerSource(status: map<RemoteDataSource, RefreshStatus>, published: seq<Published>)
    requires DistinctSources(published)
    ensures forall i | 0 <= i < |published| && published[i].source in status ::
      StatusesAfter(status, published)[published[i].source] == StatusFor(published[i].result)
    ensures forall src | src in status && (forall i | 0 <= i < |published| :: published[i].source != src) ::
      StatusesAfter(status, published)[src] == status[src]
  {
    if published != [] {
      var n := |published| - 1;
      var init := published[..n];
      var last := published[n];
      assert forall i | 0 <= i < n :: init[i] == published[i];
      StatusesAfterPerSource(status, init);
      var before := StatusesAfter(status, init);
      var after := StatusesAfter(status, published);
      assert after == if last.source in before then before[last.source := StatusFor(last.result)] else before;
      forall i | 0 <= i < |published| && published[i].source in status
        ensures after[published[i].source] == StatusFor(published[i].result)
      {
        if i < n {
          assert published[i].source != last.source;
          assert init[i] == published[i];
        }
      }
      forall src | src in status && (forall i | 0 <= i < |published| :: published[i].source != src)
        ensures after[src] == status[src]
      {
        assert last.source != src;
      }
    }
  }

  /** With privacy fully disabled every source is reported as skipped, which is the status `.success`. */
  function SkippedAll(sources: seq<RemoteDataSource>): (r: seq<Published>)
    ensures |r| == |sources|
    ensures NoneFailed(r)
    ensures forall i | 0 <= i < |r| :: r[i] == Published(sources[i], Skipped) && StatusFor(r[i].result) == StatusSuccess
  {
    seq(|sources|, i requires 0 <= i < |sources| => Published(sources[i], Skipped))
  }

  /** The request every refresh enqueue hands to the work manager. */
  const RefreshWork := WorkRequest(RefreshTaskID, 0.0, true, ReplaceWork)

  /** `RemoteData`, restricted to its own state and the data-store entries it owns. */
  class RemoteData {
    /** the sources of the providers, in provider order */
    const sources: seq<RemoteDataSource>
    const appVersion: string
    /** the preference data store */
    var dataStore: map<string, StoreValue>
    var lastActiveRefreshDate: real
    /** the current value of each source's status subject */
    var refreshStatus: map<RemoteDataSource, RefreshStatus>
    /** everything sent on the refresh result subject */
    var refreshResults: seq<Published>
    /** the work requests handed to the work manager */
    var dispatchedWork: seq<WorkRequest>

    ghost predicate Valid()
      reads this
    {
      refreshStatus.Keys == (set i | 0 <= i < |sources| :: sources[i])
      && RandomInRange(dataStore)
    }

    /**
     * Every source starts with status `.none`, and `lastActiveRefreshDate`
     * with `Date.distantPast`. The store is the persisted one, whose random
     * value, if any, was written by `RandomValue`.
     */
    constructor (sources: seq<RemoteDataSource>, appVersion: string, store: map<string, StoreValue>)
      requires RandomInRange(store)
      ensures Valid()
      ensures this.sources == sources && this.appVersion == appVersion && dataStore == store
      ensures lastActiveRefreshDate == DistantPast
      ensures forall src | src in refreshStatus :: refreshStatus[src] == StatusNone
      ensures refreshResults == [] && dispatchedWork == []
    {
      this.sources := sources;
      this.appVersion := appVersion;
      dataStore := store;
      lastActiveRefreshDate := DistantPast;
      var keys := set i | 0 <= i < |sources| :: sources[i];
      refreshStatus := map src | src in keys :: StatusNone;
      refreshResults := [];
      dispatchedWork := [];
    }

    /** `remoteDataRefreshInterval` (setter) */
    method SetRemoteDataRefreshInterval(interval: real)
      requires Valid()
      modifies this
      ensures Valid()
      ensures dataStore == old(dataStore)[RefreshIntervalKey := DoubleValue(interval)]
      ensures RefreshInterval(dataStore) == interval
      ensures unchanged(this`lastActiveRefreshDate, this`refreshStatus, this`refreshResults, this`dispatchedWork)
    {
      dataStore := dataStore[RefreshIntervalKey := DoubleValue(interval)];
      RefreshIntervalRoundTrip(old(dataStore), interval);
    }

    /**
     * `randomValue`: the cached value, or else `generated` (the draw from
     * 0...9999), which is then cached, so every later read returns it.
     */
    method RandomValue(generated: int) returns (value: int)
      requires Valid() && 0 <= generated <= 9999
      modifies this
      ensures Valid()
      ensures value == StoredRandom(old(dataStore)).GetOr(generated)
      ensures 0 <= value <= 9999
      ensures dataStore == old(dataStore)[RandomValueKey := IntValue(value)]
      ensures StoredRandom(dataStore) == Wrappers.Some(value)
      ensures unchanged(this`lastActiveRefreshDate, this`refreshStatus, this`refreshResults, this`dispatchedWork)
    {
      var cached := StoredRandom(dataStore);
      if cached.Some? {
        value := cached.value;
        assert dataStore[RandomValueKey] == IntValue(value);
        return;
      }
      value := generated;
      dataStore := dataStore[RandomValueKey := IntValue(value)];
    }

    /** `updateChangeToken`: replaces the stored token with a fresh one. */
    method UpdateChangeToken(freshToken: string)
      requires Valid()
      modifies this
      ensures Valid()
      ensures dataStore == old(dataStore)[ChangeTokenKey := StringValue(freshToken)]
      ensures StoredToken(dataStore) == Wrappers.Some(freshToken)
      ensures unchanged(this`lastActiveRefreshDate, this`refreshStatus, this`refreshResults, this`dispatchedWork)
    {
      dataStore := dataStore[ChangeTokenKey := StringValue(freshToken)];
    }

    /**
     * `changeToken`: the stored token followed by the app version; when no
     * token is stored, `freshToken` is stored first.
     */
    method ChangeToken(freshToken: string) returns (token: string)
      requires Valid()
      modifies this
      ensures Valid()
      ensures token == StoredToken(old(dataStore)).GetOr(freshToken) + appVersion
      ensures dataStore == old(dataStore)[ChangeTokenKey := StringValue(StoredToken(old(dataStore)).GetOr(freshToken))]
      ensures unchanged(this`lastActiveRefreshDate, this`refreshStatus, this`refreshResults, this`dispatchedWork)
    {
      var stored := StoredToken(dataStore);
      var base: string;
      if stored.Some? {
        base := stored.value;
        assert dataStore[ChangeTokenKey] == StringValue(base);
      } else {
        base := freshToken;
        dataStore := dataStore[ChangeTokenKey := StringValue(base)];
      }
      token := base + appVersion;
    }

    /** `enqueueRefreshTask`: every status back to `.none`, then the refresh work request. */
    method EnqueueRefreshTask()
      requires Valid()
      modifies this
      ensures Valid()
      ensures refreshStatus.Keys == old(refreshStatus).Keys
      ensures forall src | src in refreshStatus :: refreshStatus[src] == StatusNone
      ensures dispatchedWork == old(dispatchedWork) + [RefreshWork]
      ensures unchanged(this`dataStore, this`lastActiveRefreshDate, this`refreshResults)
    {
      refreshStatus := map src | src in refreshStatus :: StatusNone;
      dispatchedWork := dispatchedWork + [RefreshWork];
    }

    /**
     * `applicationDidForeground`: once the refresh interval has passed since
     * the last foreground refresh, a new change token, a refresh and a new
     * `lastActiveRefreshDate`; otherwise nothing.
     */
    method ApplicationDidForeground(now: real, freshToken: string)
      requires Valid()
      modifies this
      ensures Valid()
      ensures ForegroundRefreshDue(old(lastActiveRefreshDate), old(dataStore), now) ==>
        dataStore == old(dataStore)[ChangeTokenKey := StringValue(freshToken)]
        && lastActiveRefreshDate == now
        && dispatchedWork == old(dispatchedWork) + [RefreshWork]
        && refreshStatus == (map src | src in old(refreshStatus) :: StatusNone)
        && refreshResults == old(refreshResults)
      ensures !ForegroundRefreshDue(old(lastActiveRefreshDate), old(dataStore), now) ==>
        unchanged(this)
    {
      var nextUpdate := lastActiveRefreshDate + RefreshInterval(dataStore);
      if now >= nextUpdate {
        UpdateChangeToken(freshToken);
        EnqueueRefreshTask();
        lastActiveRefreshDate := now;
      }
    }

    /**
     * `receivedRemoteNotification`: a push carrying the remote-data update
     * key replaces the change token and enqueues a refresh; any other push
     * changes nothing.
     */
    method ReceivedRemoteNotification(notificationKeys: set<string>, freshToken: string) returns (fetch: FetchResult)
      requires Valid()
      modifies this
      ensures Valid()
      ensures fetch == FetchNewData <==> RefreshRemoteDataPushPayloadKey in notificationKeys
      ensures fetch == FetchNewData ==>
        dataStore == old(dataStore)[ChangeTokenKey := StringValue(freshToken)]
        && dispatchedWork == old(dispatchedWork) + [RefreshWork]
        && refreshStatus == (map src | src in old(refreshStatus) :: StatusNone)
        && lastActiveRefreshDate == old(lastActiveRefreshDate) && refreshResults == old(refreshResults)
      ensures fetch == FetchNoData ==> unchanged(this)
    {
      if RefreshRemoteDataPushPayloadKey !in notificationKeys {
        fetch := FetchNoData;
      } else {
        UpdateChangeToken(freshToken);
        EnqueueRefreshTask();
        fetch := FetchNewData;
      }
    }

    /** Sends each result on the result subject and sets its source's status. */
    method Publish(published: seq<Published>) returns (success: bool)
      modifies this
      ensures success <==> NoneFailed(published)
      ensures refreshResults == old(refreshResults) + published
      ensures refreshStatus == StatusesAfter(old(refreshStatus), published)
      ensures unchanged(this`dataStore, this`lastActiveRefreshDate, this`dispatchedWork)
    {
      success := true;
      var k := 0;
      while k < |published|
        invariant 0 <= k <= |published|
        invariant success <==> NoneFailed(published[..k])
        invariant refreshResults == old(refreshResults) + published[..k]
        invariant refreshStatus == StatusesAfter(old(refreshStatus), published[..k])
        invariant unchanged(this`dataStore, this`lastActiveRefreshDate, this`dispatchedWork)
      {
        var item := published[k];
        assert published[..k + 1][..k] == published[..k];
        assert published[..k + 1] == published[..k] + [item];
        refreshResults := refreshResults + [item];
        if item.result == RefreshFailed {
          success := false;
          if item.source in refreshStatus {
            refreshStatus := refreshStatus[item.source := StatusFailed];
          }
        } else {
          if item.source in refreshStatus {
            refreshStatus := refreshStatus[item.source := StatusSuccess];
          }
        }
        k := k + 1;
      }
      assert published[..|published|] == published;
    }

    /**
     * `handleRefreshTask`. With every privacy feature disabled, each source
     * is reported skipped and set to `.success`, and the task succeeds.
     * Otherwise the change token and random value are read (and cached) for
     * the providers, whose results `published` lists in arrival order; the
     * task fails exactly when one of them failed.
     */
    method HandleRefreshTask(anyFeatureEnabled: bool, freshToken: string, generated: int, published: seq<Published>)
      returns (result: WorkResult)
      requires Valid() && 0 <= generated <= 9999
      modifies this
      ensures Valid()
      ensures !anyFeatureEnabled ==>
        result == WorkSuccess
        && refreshResults == old(refreshResults) + SkippedAll(sources)
        && refreshStatus == StatusesAfter(old(refreshStatus), SkippedAll(sources))
        && dataStore == old(dataStore)
      ensures anyFeatureEnabled ==>
        (result == WorkFailure <==> exists i | 0 <= i < |published| :: published[i].result == RefreshFailed)
        && refreshResults == old(refreshResults) + published
        && refreshStatus == StatusesAfter(old(refreshStatus), published)
        && StoredToken(dataStore) == Wrappers.Some(StoredToken(old(dataStore)).GetOr(freshToken))
        && StoredRandom(dataStore) == Wrappers.Some(StoredRandom(old(dataStore)).GetOr(generated))
        && RefreshInterval(dataStore) == RefreshInterval(old(dataStore))
        && dataStore == old(dataStore)[ChangeTokenKey := StringValue(StoredToken(old(dataStore)).GetOr(freshToken))]
                                      [RandomValueKey := IntValue(StoredRandom(old(dataStore)).GetOr(generated))]
      ensures lastActiveRefreshDate == old(lastActiveRefreshDate) && dispatchedWork == old(dispatchedWork)
    {
      if !anyFeatureEnabled {
        var _ := Publish(SkippedAll(sources));
        return WorkSuccess;
      }
      var token := ChangeToken(freshToken);
      TokenWriteIsolated(old(dataStore), StoredToken(old(dataStore)).GetOr(freshToken));
      var stage := dataStore;
      var random := RandomValue(generated);
      RandomWriteIsolated(stage, random);
      var success := Publish(published);
      result := if success then WorkSuccess else WorkFailure;
    }
  }
}
