# Airship background task scheduler, remote data and JSON values, in Dafny

This project models the core of the Airship iOS SDK:

- **TaskManager**, the background task scheduler. Clients register launchers
  (a handler on a dispatcher) per task ID and enqueue requests. Requests are
  reconciled against the current requests under the conflict policies
  `keep`, `append` and `replace`. Each attempt must pass admission (at
  least 30 s of background time; the network when the request needs it) and
  the host must grant a background task. Failed requests are retried with a
  back-off of 30 s that doubles up to 120 s. Rate-limited requests are retried
  after the limiter's delay. Becoming active and a connectivity change
  re-attempt the waiting list. Entering the background re-attempts the waiting
  list and then the retrying list.
- **RemoteData**: sorting payloads by requested type, the values cached in the
  preference data store (refresh interval, random value, change token), the
  foreground refresh gate, the refresh work request, the push trigger and how
  the providers' refresh results combine.
- **AirshipJSON**: the JSON value type, `unWrap` to Foundation values,
  `wrap` back, and the nil cases of `from(json:)` and `from(data:)`.
- **AirshipMeteredUsageEvent** and `withDisabledAnalytics`.

Layout:

- `wrappers.dfy` (`Wrappers`): `Option` and `Result`.
- `airship_json.dfy` (`AirshipJson`): the JSON value, `unWrap` and `wrap`, their round trips.
- `metered_usage.dfy` (`MeteredUsage`): the usage event and its analytics scrubbing.
- `task_ledger.dfy` (`TaskLedger`): the scheduler state as a value (`Ledger`) and one function per transition.
- `task_properties.dfy` (`TaskProperties`): what the transitions promise, and the ledger invariant.
- `task_manager.dfy` (`Tasks`): the class `TaskManager`. Its fields are updated in place. Every method is proved to perform exactly its `TaskLedger` transition, and every public method to keep the ledger invariant.
- `remote_data.dfy` (`Remote`): `sortedByType`, the data-store reads, and the class `RemoteData`.

Modelling choices:

- A request's object identity (`===`) is an `id` handed out from a counter.
- The scheduler's view of the outside world at a step is an `Env`:
  - the background time remaining;
  - whether the network is connected;
  - whether `beginTask` succeeds;
  - the rate limiter's over-limit delay per rate-limit ID.
- Rate limiter `track` calls are recorded in `tracked`.
- Blocks handed to a dispatcher or a timer are recorded in `pending`:
  - the first-attempt timer;
  - the retry timer;
  - the block queued on the launcher's dispatcher;
  - a launched handler awaiting its outcome.

  Running one of them is a separate step. The caller chooses which one, so every interleaving of timers and dispatchers is covered.
- `TimeInterval` and `Date` are `real` seconds since the reference date. The `Double` of `.number` is kept as an opaque 64-bit pattern.
- `UUID()`, `Int.random`, the providers' refresh results and the push payload's keys are parameters.

## Model

Each `Tasks.TaskManager` method row also covers the `TaskLedger` function of
the same name, which the method is proved to perform:
`Register`, `RegisterAll`, `EnqueueRequest`, `InitiateRequests`, `RetryRequest`,
`AttemptRequest`, `RequestFinished`, `FireTimer`, `RunDispatch`, `CompleteTask`,
`RetryWaitingConditions` (also for `DidBecomeActive`) and `DidEnterBackground`.
`AttemptEach` performs `TaskLedger.AttemptAll`.

| member | source | states |
|---|---|---|
| AirshipJson.UnWrap | Airship/AirshipCore/Source/AirshipJSON.swift:49-74 | unwrapping yields nil exactly for `.null` |
| AirshipJson.DropNils | Airship/AirshipCore/Source/AirshipJSON.swift:65-72 | keeps exactly the non-nil elements, never more than given |
| AirshipJson.UnWrapScalars | Airship/AirshipCore/Source/AirshipJSON.swift:50-58 | `.null` becomes nil; strings, numbers and booleans become their payloads unchanged |
| AirshipJson.UnWrapArrayKeepsOrder | Airship/AirshipCore/Source/AirshipJSON.swift:65-72 | unwrapping an array drops the nulls and keeps the other elements in their order (distributes over concatenation); the result is never longer |
| AirshipJson.UnWrapObjectKeys | Airship/AirshipCore/Source/AirshipJSON.swift:59-64 | unwrapping an object keeps exactly the keys whose value is not `.null` |
| AirshipJson.Wrap | Airship/AirshipCore/Source/AirshipJSON.swift:102-147 | the only error `wrap` raises is the invalid-JSON error |
| AirshipJson.WrapScalars | Airship/AirshipCore/Source/AirshipJSON.swift:103-109 | nil wraps to `.null`, a string to `.string` |
| AirshipJson.WrapContainers | Airship/AirshipCore/Source/AirshipJSON.swift:130-144 | a wrapped array has one element per item, each the item wrapped; a wrapped dictionary has the same keys, each value wrapped |
| AirshipJson.WrapFailsIffUnsupported | Airship/AirshipCore/Source/AirshipJSON.swift:102-147 | `wrap` throws exactly when the value has an unsupported part at some depth |
| AirshipJson.WrapUnWrap | Airship/AirshipCore/Source/AirshipJSON.swift:49-147 | wrapping an unwrapped tree gives back the tree when no `.null` sits below the top level |
| AirshipJson.UnWrapWrap | Airship/AirshipCore/Source/AirshipJSON.swift:49-147 | for a supported value with no nested nil, `wrap` succeeds and unwrapping the result gives back the value |
| AirshipJson.FromJson | Airship/AirshipCore/Source/AirshipJSON.swift:76-89 | nil text gives `.null` without consulting the decoder; otherwise the decoder's outcome |
| AirshipJson.FromData | Airship/AirshipCore/Source/AirshipJSON.swift:91-100 | nil data gives `.null` without consulting the decoder; otherwise the decoder's outcome |
| MeteredUsage.WithDisabledAnalytics | Airship/AirshipCore/Source/AirshipMeteredUsageEvent.swift:36-46 | event ID, usage type and product are kept; entity ID, reporting context, timestamp and contact ID are cleared |
| MeteredUsage.DisabledAnalyticsIdempotent | Airship/AirshipCore/Source/AirshipMeteredUsageEvent.swift:36-46 | scrubbing twice equals scrubbing once |
| MeteredUsage.DisabledAnalyticsFixpoint | Airship/AirshipCore/Source/AirshipMeteredUsageEvent.swift:36-46 | scrubbing leaves an event unchanged exactly when its analytics fields are already cleared |
| TaskLedger.FirstIndexOf | Airship/AirshipCore/Source/TaskManager.swift:192 | finds the first position holding the very request, and finds none exactly when it is absent |
| TaskLedger.CheckRequestRequirements | Airship/AirshipCore/Source/TaskManager.swift:280-297 | admission holds exactly when at least 30 s of background time remain and the network is connected if the request needs it |
| TaskLedger.RemoveRequest | Airship/AirshipCore/Source/TaskManager.swift:299-303 | removal never lengthens the list; `RemoveRequestMembers` states what it keeps |
| TaskLedger.TaskRateLimitDelay | Airship/AirshipCore/Source/TaskManager.swift:343-357 | a delay exactly for a rate-limit ID the limiter reports over its limit, and then the limiter's delay |
| TaskLedger.NewRequests | Airship/AirshipCore/Source/TaskManager.swift:115-120 | one fresh request per launcher, in launcher order, with consecutive ids |
| TaskProperties.RegisterAppendsOne | Airship/AirshipCore/Source/TaskManager.swift:71-82 | registering appends one launcher (on the global dispatcher when none is given) to that task ID only, touching nothing else |
| TaskProperties.RegisterAllLaunchers | Airship/AirshipCore/Source/TaskManager.swift:64-82 | under each task ID, the launchers it had, followed by the new launcher once per occurrence of that ID in the list; nothing but the registry changes |
| TaskProperties.RegisterAllRegistersEach | Airship/AirshipCore/Source/TaskManager.swift:64-69 | every listed task ID ends with the launcher (on the global dispatcher when none is given) registered; unlisted ones keep their launchers |
| TaskProperties.AttemptStaleIsNoOp | Airship/AirshipCore/Source/TaskManager.swift:205-207 | attempting a request that is no longer current changes nothing |
| TaskProperties.AttemptAdmission | Airship/AirshipCore/Source/TaskManager.swift:209-277 | a current request with under 30 s of background time, with a network requirement and no network, or with no background task granted joins the waiting list; otherwise it is queued on its dispatcher with the given back-off |
| TaskProperties.AttemptAllEffect | Airship/AirshipCore/Source/TaskManager.swift:305-333 | attempting a list in order parks exactly its blocked current requests, in order, and queues exactly its admitted current requests |
| TaskProperties.AttemptOutcomeDependsOnCurrent | Airship/AirshipCore/Source/TaskManager.swift:204-278 | what a batch of attempts does depends on the ledger only through its current requests |
| TaskProperties.RetryWaitingConditionsEffect | Airship/AirshipCore/Source/TaskManager.swift:305-314 | the waiting list is replaced by those of its requests still blocked; the admitted ones are queued with the initial back-off |
| TaskProperties.DidEnterBackgroundEffect | Airship/AirshipCore/Source/TaskManager.swift:321-333 | the retrying list is emptied; waiting and retrying requests are all re-attempted with the initial back-off |
| TaskProperties.EnqueueWithoutLaunchersIsNoOp | Airship/AirshipCore/Source/TaskManager.swift:110-113 | with no launcher registered, an enqueue changes nothing |
| TaskProperties.EnqueueKeepSkips | Airship/AirshipCore/Source/TaskManager.swift:129-133 | `keep` with requests already current changes nothing |
| TaskProperties.EnqueueInstalls | Airship/AirshipCore/Source/TaskManager.swift:115-157 | otherwise one request per launcher replaces or extends the current list by policy, and all of them are either scheduled after max(minDelay, rate-limit delay) or attempted at once |
| TaskProperties.EnqueueReplaceSupersedes | Airship/AirshipCore/Source/TaskManager.swift:143-147 | after a `replace`, no previously current request of that task ID is current |
| TaskProperties.RemoveAbsentRequest | Airship/AirshipCore/Source/TaskManager.swift:301 | removing a request that is absent leaves the list as it was |
| TaskProperties.RemoveUniqueRequest | Airship/AirshipCore/Source/TaskManager.swift:301 | in a list without duplicates, removal takes out exactly the one position holding the request |
| TaskProperties.RemoveRequestMembers | Airship/AirshipCore/Source/TaskManager.swift:301 | after removal, the list holds exactly the other requests |
| TaskProperties.RemoveRequestKeepsUnique | Airship/AirshipCore/Source/TaskManager.swift:301 | removal keeps a list free of duplicates |
| TaskProperties.CompleteSuccessRemovesRequest | Airship/AirshipCore/Source/TaskManager.swift:227-234 | a successful current request is removed from its task ID's list and its usage is tracked; nothing else changes apart from the outcome being consumed |
| TaskProperties.CompleteFailureRetries | Airship/AirshipCore/Source/TaskManager.swift:227-238 | a failed current request has its usage tracked, joins the retrying list and arms a retry timer after its back-off, doubling the next one; nothing else changes apart from the outcome being consumed |
| TaskProperties.CompleteStaleLeavesLedger | Airship/AirshipCore/Source/TaskManager.swift:227-239 | an outcome for a request that is no longer current only reports its rate-limit ID |
| TaskProperties.RetryTimerWithoutEntryIsNoOp | Airship/AirshipCore/Source/TaskManager.swift:190-198 | a retry timer whose request has left the retrying list does nothing |
| TaskProperties.RetryTimerLaunches | Airship/AirshipCore/Source/TaskManager.swift:190-200 | otherwise the timer takes the request's first entry out of the retrying list and attempts it with the back-off capped at 120 s |
| TaskProperties.DispatchRateLimited | Airship/AirshipCore/Source/TaskManager.swift:259-270 | in the dispatched block, an over-limit request is retried after the limiter's delay with the same back-off; otherwise the handler is launched |
| TaskProperties.DispatchRechecks | Airship/AirshipCore/Source/TaskManager.swift:250-257 | the dispatched block drops a request that is no longer current and parks one that fails admission; nothing else changes apart from the block being consumed |
| TaskProperties.FirstIndexOfAppended | Airship/AirshipCore/Source/TaskManager.swift:182-192 | a request appended to a retrying list it was not in is found at the end |
| TaskProperties.BackOffSchedule | Airship/AirshipCore/Source/TaskManager.swift:10-11 | a request that keeps failing waits 30, 60, 120, 120, ... seconds |
| TaskProperties.FailureThenRetry | Airship/AirshipCore/Source/TaskManager.swift:180-237 | the k-th failure arms a timer after the k-th delay, and its firing attempts the request with the next delay of the schedule |
| TaskProperties.AttemptPreservesValid | Airship/AirshipCore/Source/TaskManager.swift:204-278 | an attempt keeps the ledger invariant |
| TaskProperties.AttemptAllPreservesValid | Airship/AirshipCore/Source/TaskManager.swift:305-333 | a batch of attempts keeps the ledger invariant |
| TaskProperties.EnqueuePreservesValid | Airship/AirshipCore/Source/TaskManager.swift:104-158 | an enqueue keeps the ledger invariant: current requests sit under their task ID once each, with a registered launcher |
| TaskProperties.CompletePreservesValid | Airship/AirshipCore/Source/TaskManager.swift:218-242 | an outcome keeps the ledger invariant |
| TaskProperties.FireTimerPreservesValid | Airship/AirshipCore/Source/TaskManager.swift:168-202 | a timer firing keeps the ledger invariant |
| TaskProperties.RunDispatchPreservesValid | Airship/AirshipCore/Source/TaskManager.swift:249-271 | the dispatched block keeps the ledger invariant |
| TaskProperties.StepPreservesValid | Airship/AirshipCore/Source/TaskManager.swift:59-333 | every scheduler step keeps the ledger invariant |
| TaskProperties.EnqueueKeepsStale | Airship/AirshipCore/Source/TaskManager.swift:104-158 | an enqueue never makes an earlier, no longer current request current again |
| TaskProperties.CompleteKeepsStale | Airship/AirshipCore/Source/TaskManager.swift:227-239 | an outcome never makes a request current |
| TaskProperties.TimerKeepsCurrent | Airship/AirshipCore/Source/TaskManager.swift:168-202 | timers never change the current requests |
| TaskProperties.StaleStaysStale | Airship/AirshipCore/Source/TaskManager.swift:59-333 | once superseded or finished, a request is never current again, whatever step follows |
| Tasks.TaskManager.constructor | Airship/AirshipCore/Source/TaskManager.swift:14-17 | the scheduler starts with no launchers and no requests |
| Tasks.TaskManager.Register | Airship/AirshipCore/Source/TaskManager.swift:71-82 | performs the registration transition in place and keeps the invariant |
| Tasks.TaskManager.RegisterAll | Airship/AirshipCore/Source/TaskManager.swift:64-69 | registers each listed task ID in order |
| Tasks.TaskManager.IsRequestCurrent | Airship/AirshipCore/Source/TaskManager.swift:335-341 | answers whether the very request is in its task ID's current list |
| Tasks.TaskManager.EnqueueRequest | Airship/AirshipCore/Source/TaskManager.swift:104-158 | performs the enqueue transition in place and keeps the invariant |
| Tasks.TaskManager.InitiateRequests | Airship/AirshipCore/Source/TaskManager.swift:168-178 | arms one first-attempt timer per request when the delay is positive, else attempts each request in order |
| Tasks.TaskManager.RetryRequest | Airship/AirshipCore/Source/TaskManager.swift:180-185 | adds the request to the retrying list and arms its retry timer |
| Tasks.TaskManager.AttemptRequest | Airship/AirshipCore/Source/TaskManager.swift:204-278 | performs the attempt transition in place |
| Tasks.TaskManager.AttemptEach | Airship/AirshipCore/Source/TaskManager.swift:313 | attempts each request of a list in order |
| Tasks.TaskManager.RequestFinished | Airship/AirshipCore/Source/TaskManager.swift:299-303 | removes the request from its task ID's current list |
| Tasks.TaskManager.FireTimer | Airship/AirshipCore/Source/TaskManager.swift:185-201 | performs the timer transition in place and keeps the invariant |
| Tasks.TaskManager.RunDispatch | Airship/AirshipCore/Source/TaskManager.swift:249-271 | performs the dispatched-block transition in place and keeps the invariant |
| Tasks.TaskManager.CompleteTask | Airship/AirshipCore/Source/TaskManager.swift:218-242 | performs the outcome transition in place and keeps the invariant |
| Tasks.TaskManager.RetryWaitingConditions | Airship/AirshipCore/Source/TaskManager.swift:305-314 | re-attempts the waiting list, emptied first, and keeps the invariant |
| Tasks.TaskManager.DidBecomeActive | Airship/AirshipCore/Source/TaskManager.swift:316-319 | the same as a waiting-conditions retry |
| Tasks.TaskManager.DidEnterBackground | Airship/AirshipCore/Source/TaskManager.swift:321-333 | retries the waiting list, then re-attempts the emptied retrying list, and keeps the invariant |
| Remote.TypeRank | Airship/AirshipCore/Source/RemoteData.swift:506-507 | a requested type ranks at its first position in the list; an unrequested type ranks 0 |
| Remote.FirstIndex | Airship/AirshipCore/Source/RemoteData.swift:506-507 | the first position of a type in the requested list, none exactly when it is not requested |
| Remote.SortedByType | Airship/AirshipCore/Source/RemoteData.swift:503-510 | the result is a permutation of the payloads, ordered by the rank of their type |
| Remote.Insert | Airship/AirshipCore/Source/RemoteData.swift:503-510 | inserting into an ordered sequence adds exactly that payload and keeps the order |
| Remote.AbsentRankZero | Airship/AirshipCore/Source/RemoteData.swift:506-507 | an unrequested type ranks 0, together with the first requested type |
| Remote.RequestedRankOrder | Airship/AirshipCore/Source/RemoteData.swift:503-510 | a requested type ranks at its first position, so types listed earlier sort first |
| Remote.RefreshInterval | Airship/AirshipCore/Source/RemoteData.swift:39-45 | the stored interval when there is one, else 10 s |
| Remote.RefreshIntervalRoundTrip | Airship/AirshipCore/Source/RemoteData.swift:39-52 | the getter returns what the setter stored, and 10 s when nothing was stored |
| Remote.TokenWriteIsolated | Airship/AirshipCore/Source/RemoteData.swift:280-284 | a new change token is read back and changes neither the interval nor the random value |
| Remote.RandomWriteIsolated | Airship/AirshipCore/Source/RemoteData.swift:54-62 | a cached random value is read back and changes neither the interval nor the change token |
| Remote.ForegroundGateReopens | Airship/AirshipCore/Source/RemoteData.swift:251-263 | after a foreground refresh at t, the next one is due exactly once t plus the interval is reached, and, when the interval is positive, not at t itself |
| Remote.StatusFor | Airship/AirshipCore/Source/RemoteData.swift:331-339 | a failed refresh gives `.failed`, any other result `.success`, never `.none` |
| Remote.StatusesAfter | Airship/AirshipCore/Source/RemoteData.swift:331-339 | publishing results never adds or removes a source's status |
| Remote.StatusesAfterPerSource | Airship/AirshipCore/Source/RemoteData.swift:331-339 | each source that reported once ends with its own result's status; a source that did not report keeps its status |
| Remote.SkippedAll | Airship/AirshipCore/Source/RemoteData.swift:304-310 | with privacy disabled, every source is reported skipped, which counts as success |
| Remote.RemoteData.constructor | Airship/AirshipCore/Source/RemoteData.swift:144-148 | every provider's source starts with status `.none`, and the last foreground refresh at `Date.distantPast` |
| Remote.RemoteData.SetRemoteDataRefreshInterval | Airship/AirshipCore/Source/RemoteData.swift:46-51 | stores the interval as a double, which the getter then returns |
| Remote.RemoteData.RandomValue | Airship/AirshipCore/Source/RemoteData.swift:54-62 | the cached value or else the draw, which is cached; always within 0...9999; later reads return it |
| Remote.RemoteData.UpdateChangeToken | Airship/AirshipCore/Source/RemoteData.swift:280-284 | the stored token becomes the fresh token |
| Remote.RemoteData.ChangeToken | Airship/AirshipCore/Source/RemoteData.swift:286-301 | the stored token, or a fresh one that is then stored, followed by the app version |
| Remote.RemoteData.EnqueueRefreshTask | Airship/AirshipCore/Source/RemoteData.swift:265-278 | every source's status is reset to `.none`, and one request for `RemoteData.refresh` (no delay, network required, `replace`) is dispatched |
| Remote.RemoteData.ApplicationDidForeground | Airship/AirshipCore/Source/RemoteData.swift:249-263 | when the interval has passed since the last foreground refresh: new token, refresh enqueued, date updated; otherwise nothing changes |
| Remote.RemoteData.ReceivedRemoteNotification | Airship/AirshipCore/Source/RemoteData.swift:487-498 | a push with the remote-data key yields new data, a new token and a refresh; any other push yields no data and changes nothing |
| Remote.RemoteData.Publish | Airship/AirshipCore/Source/RemoteData.swift:330-341 | every result is published in order; success exactly when none failed; statuses updated per source |
| Remote.RemoteData.HandleRefreshTask | Airship/AirshipCore/Source/RemoteData.swift:303-346 | with privacy disabled: success, every source skipped and set to `.success`, store untouched. Otherwise failure exactly when some provider failed, with statuses per result; token and random value are cached, and no other store key changes |

## Left out

- Locks, the semaphore and Swift concurrency are not modelled. Every step is atomic. Any order of pending timers and dispatcher blocks is allowed, because the caller picks the index.
- The dispatchers, the host's background-task API and the network monitor are inputs.
  - Their readings come in through `Env` at each step.
  - The background time and connectivity are one reading per step, also during a `forEach` over several requests.
  - A launch is recorded as a `Running` item in `pending`. The handler's own execution and `dispose` of the background task are not modelled.
- ExpirableTask is not part of this model. The model assumes it delivers at most one outcome per launch: an `OutcomeStep` consumes the launch's `Running` item, so a launch has at most one outcome. An expiry of a launched handler is an `OutcomeStep` with failure.
- TaskLedger.CheckRequestRequirements: the code checks the network requirement only under `#available(iOS 12.0, tvOS 12.0, *)` (TaskManager.swift:290). The model always checks it, as on every system the SDK builds for; the older-system branch that skips the check is not modelled.
- No step models the host expiring a background task whose dispatched block is still queued or has returned early (TaskManager.swift:245-247).
- On the dispatched block's early-return paths the code does not call `dispose`; the background task is left to the host's expiry (see the line above). This is not modelled.
- The rate limiter's own window logic (`set`, `status`, `track`) is not part of this model. Its status is an input and `track` calls are logged.
- `setRateLimit` and the `enqueueRequest` overloads that only fill in defaults (`minDelay` 0, no rate-limit ID) are not modelled separately.
- The code arms a failure's retry with `nextBackOff * 2`, not capped, and applies the 120 s cap when the retry timer fires (TaskManager.swift:190-199, 237). The model follows the code. The delays that result are the capped schedule 30, 60, 120, 120, ...
- Remote.SortedByType: Swift's `sorted` does not guarantee stability. The model uses an insertion sort and states only what any correct sort gives: a permutation, ordered by rank.
- Remote.RemoteData.HandleRefreshTask: the providers' `refresh`, the locale and the task group are foreign. The results arrive as a list in delivery order. The token and random value handed to the providers are computed and cached, but the providers' use of them is not modelled.
- Remote.RemoteData.constructor: it requires that a random value already in the persisted store lies in 0...9999. That key is written only by `RandomValue`. The notification-center observers and worker registration are not modelled.
- The data store's `as? TimeInterval` accepts a stored double or integer and `as? Int` a stored integer. NSNumber bridging of whole-valued doubles to `Int` is not modelled.
- Combine publishers and subjects, `refresh(sources:)`, `waitRefresh`, `status`, `isCurrent`, `notifyOutdated`, `payloads` and `setContactSourceEnabled` are not modelled. Subjects are fields holding their current value or a log of what was sent.
- AirshipJSON encoding and decoding (`Codable`, `toData`, `toString`) go through `JSONEncoder`/`JSONDecoder`, a foreign library. The decoder is a parameter of `from`. A UTF-8 conversion failure of a Swift string cannot happen and is not modelled.
- AirshipJson.Wrap: NSNumber/CFBoolean discrimination is runtime bridging. A number or boolean arrives already told apart. Any other Foundation type is `Unsupported`.
- The `Codable` keys of the metered usage event are serialisation only and are not modelled.
