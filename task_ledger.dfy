/**
 * The background task scheduler's bookkeeping as values: the ledger (the
 * launcher registry, the current requests per task ID, the waiting-conditions
 * list and the retrying list) and the work handed to dispatchers and timers,
 * with one function per transition of the scheduler. The class in
 * `task_manager.dfy` performs the same transitions in place and is proved
 * against these functions; `task_properties.dfy` proves what they promise.
 */
module TaskLedger {
  import opened Wrappers
  import AirshipJson

  const InitialBackOff: real := 30.0
  const MaxBackOff: real := 120.0
  const MinBackgroundTime: real := 30.0

  /** The dispatcher a launcher runs on when none is given at registration. */
  const GlobalDispatcher: string := "global"

  datatype ConflictPolicy = Keep | Append | Replace

  datatype TaskRequestOptions = TaskRequestOptions(
    isNetworkRequired: bool,
    conflictPolicy: ConflictPolicy,
    extras: Option<AirshipJson.Json>)

  /** A registered handler: the dispatcher it runs on and the handler, both named opaquely. */
  datatype TaskLauncher = TaskLauncher(dispatcher: string, handler: nat)

  /**
   * A request; `id` stands for the object's identity, which the scheduler
   * compares with `===`. Ids are handed out from `nextID` and never reused.
   */
  datatype TaskRequest = TaskRequest(
    id: nat,
    taskID: string,
    rateLimitID: Option<string>,
    options: TaskRequestOptions,
    launcher: TaskLauncher)

  /** Work handed to a dispatcher or a timer that has not run yet. */
  datatype Pending =
      /** the first attempt, scheduled `delay` seconds after enqueue */
    | DelayedAttempt(request: TaskRequest, delay: real, nextBackOff: real)
      /** a retry timer armed by a failure or by the rate limiter */
    | RetryTimer(request: TaskRequest, delay: real, nextBackOff: real)
      /** the block queued on the launcher's dispatcher once a background task was begun */
    | Dispatch(request: TaskRequest, nextBackOff: real)
      /** a handler that was launched and has not reported its outcome */
    | Running(request: TaskRequest, nextBackOff: real)

  /**
   * What the scheduler observes of the outside world when it takes a step:
   * the background time remaining, the network monitor, whether the host
   * grants a background task, and the rate limiter's over-limit delay for
   * each rate-limit ID that is over its limit.
   */
  datatype Env = Env(
    timeRemaining: real,
    isConnected: bool,
    canBeginTask: bool,
    overLimit: map<string, real>)

  datatype Ledger = Ledger(
    launcherMap: map<string, seq<TaskLauncher>>,
    currentRequests: map<string, seq<TaskRequest>>,
    waitingConditionsRequests: seq<TaskRequest>,
    retryingRequests: seq<TaskRequest>,
    pending: seq<Pending>,
    /** the rate-limit IDs reported to the rate limiter's `track`, in order */
    tracked: seq<string>,
    nextID: nat)

  const EmptyLedger: Ledger := Ledger(map[], map[], [], [], [], [], 0)

  function Max(a: real, b: real): real { if a >= b then a else b }
  function Min(a: real, b: real): real { if a <= b then a else b }

  function RemoveAt<T>(s: seq<T>, i: nat): (r: seq<T>)
    requires i < |s|
    ensures |r| == |s| - 1
  {
    s[..i] + s[i + 1..]
  }

  // ---------------------------------------------------------------------
  // Queries

  function Launchers(s: Ledger, taskID: string): seq<TaskLauncher> {
    if taskID in s.launcherMap then s.launcherMap[taskID] else []
  }

  function CurrentFor(s: Ledger, taskID: string): seq<TaskRequest> {
    if taskID in s.currentRequests then s.currentRequests[taskID] else []
  }

  /** Some element of `rs` is the very request `r`. */
  predicate ContainsRequest(rs: seq<TaskRequest>, r: TaskRequest) {
    exists i | 0 <= i < |rs| :: rs[i].id == r.id
  }

  /** `isRequestCurrent` */
  predicate IsRequestCurrent(s: Ledger, r: TaskRequest) {
    r.taskID in s.currentRequests && ContainsRequest(s.currentRequests[r.taskID], r)
  }

  /** `firstIndex(where: { $0 === r })` */
  function FirstIndexOf(rs: seq<TaskRequest>, r: TaskRequest): (k: Option<nat>)
    ensures k.Some? ==> k.value < |rs| && rs[k.value].id == r.id
    ensures k.Some? ==> forall j | 0 <= j < k.value :: rs[j].id != r.id
    ensures k.None? <==> !ContainsRequest(rs, r)
  {
    if rs == [] then None
    else if rs[0].id == r.id then Some(0)
    else match FirstIndexOf(rs[1..], r)
      case None => None
      case Some(k) => Some(k + 1)
  }

  /** `removeAll(where: { $0 === r })` */
  function RemoveRequest(rs: seq<TaskRequest>, r: TaskRequest): (out: seq<TaskRequest>)
    ensures |out| <= |rs|
  {
    if rs == [] then []
    else (if rs[0].id == r.id then [] else [rs[0]]) + RemoveRequest(rs[1..], r)
  }

  /** `checkRequestRequirements` */
  predicate CheckRequestRequirements(r: TaskRequest, env: Env): (ok: bool)
    ensures ok ==> env.timeRemaining >= MinBackgroundTime
    ensures ok && r.options.isNetworkRequired ==> env.isConnected
    ensures env.timeRemaining >= MinBackgroundTime && (env.isConnected || !r.options.isNetworkRequired) ==> ok
  {
    env.timeRemaining >= MinBackgroundTime && !(r.options.isNetworkRequired && !env.isConnected)
  }

  /** `taskRateLimitDelay`: the limiter's delay, only for a rate-limit ID that is over its limit. */
  function TaskRateLimitDelay(rateLimitID: Option<string>, overLimit: map<string, real>): (d: Option<real>)
    ensures d.Some? <==> rateLimitID.Some? && rateLimitID.value in overLimit
    ensures d.Some? ==> d.value == overLimit[rateLimitID.value]
  {
    match rateLimitID
    case None => None
    case Some(id) => if id in overLimit then Some(overLimit[id]) else None
  }

  /** One request per launcher, in launcher order, with fresh ids from `firstID`. */
  function NewRequests(taskID: string, rateLimitID: Option<string>, options: TaskRequestOptions,
                       launchers: seq<TaskLauncher>, firstID: nat): (rs: seq<TaskRequest>)
    ensures |rs| == |launchers|
    ensures forall i | 0 <= i < |rs| ::
      rs[i] == TaskRequest(firstID + i, taskID, rateLimitID, options, launchers[i])
  {
    seq(|launchers|, i requires 0 <= i < |launchers| =>
      TaskRequest(firstID + i, taskID, rateLimitID, options, launchers[i]))
  }

  // ---------------------------------------------------------------------
  // Transitions

  /** `register(taskID:dispatcher:launchHandler:)` */
  function Register(s: Ledger, taskID: string, dispatcher: Option<string>, handler: nat): Ledger {
    var launcher := TaskLauncher(dispatcher.GetOr(GlobalDispatcher), handler);
    s.(launcherMap := s.launcherMap[taskID := Launchers(s, taskID) + [launcher]])
  }

  /** `register(taskIDs:dispatcher:launchHandler:)`: one registration per ID, in order. */
  function RegisterAll(s: Ledger, taskIDs: seq<string>, dispatcher: Option<string>, handler: nat): Ledger
    decreases |taskIDs|
  {
    if taskIDs == [] then s
    else Register(RegisterAll(s, taskIDs[..|taskIDs| - 1], dispatcher, handler), taskIDs[|taskIDs| - 1], dispatcher, handler)
  }

  /** `attemptRequest` up to the hand-off to the launcher's dispatcher. */
  function AttemptRequest(s: Ledger, r: TaskRequest, nextBackOff: real, env: Env): Ledger {
    if !IsRequestCurrent(s, r) then s
    else if !CheckRequestRequirements(r, env) then
      s.(waitingConditionsRequests := s.waitingConditionsRequests + [r])
    else if !env.canBeginTask then
      // `beginTask` threw
      s.(waitingConditionsRequests := s.waitingConditionsRequests + [r])
    else
      s.(pending := s.pending + [Dispatch(r, nextBackOff)])
  }

  /** The requests attempted one after another with the same back-off, as the `forEach` loops do. */
  function AttemptAll(s: Ledger, rs: seq<TaskRequest>, nextBackOff: real, env: Env): Ledger
    decreases |rs|
  {
    if rs == [] then s
    else AttemptRequest(AttemptAll(s, rs[..|rs| - 1], nextBackOff, env), rs[|rs| - 1], nextBackOff, env)
  }

  function DelayedAttempts(rs: seq<TaskRequest>, delay: real): (ps: seq<Pending>)
    ensures |ps| == |rs|
    ensures forall i | 0 <= i < |rs| :: ps[i] == DelayedAttempt(rs[i], delay, InitialBackOff)
  {
    seq(|rs|, i requires 0 <= i < |rs| => DelayedAttempt(rs[i], delay, InitialBackOff))
  }

  /** `initiateRequests`: a timer per request when the delay is positive, an immediate attempt otherwise. */
  function InitiateRequests(s: Ledger, rs: seq<TaskRequest>, initialDelay: real, env: Env): Ledger {
    if initialDelay > 0.0 then s.(pending := s.pending + DelayedAttempts(rs, initialDelay))
    else AttemptAll(s, rs, InitialBackOff, env)
  }

  /** `enqueueRequest(taskID:rateLimitID:options:minDelay:)` */
  function EnqueueRequest(s: Ledger, taskID: string, rateLimitID: Option<string>,
                          options: TaskRequestOptions, minDelay: real, env: Env): Ledger {
    var launchers := Launchers(s, taskID);
    if |launchers| == 0 then s
    else
      var requests := NewRequests(taskID, rateLimitID, options, launchers, s.nextID);
      var existing := CurrentFor(s, taskID);
      if options.conflictPolicy == Keep && |existing| > 0 then s
      else
        var list := if options.conflictPolicy == Append then existing + requests else requests;
        var admitted := s.(currentRequests := s.currentRequests[taskID := list],
                           nextID := s.nextID + |launchers|);
        var rateLimitDelay := TaskRateLimitDelay(rateLimitID, env.overLimit).GetOr(0.0);
        InitiateRequests(admitted, requests, Max(minDelay, rateLimitDelay), env)
  }

  /** `retryRequest`: remember the request as retrying and arm its timer. */
  function RetryRequest(s: Ledger, r: TaskRequest, delay: real, nextBackOff: real): Ledger {
    s.(retryingRequests := s.retryingRequests + [r],
       pending := s.pending + [RetryTimer(r, delay, nextBackOff)])
  }

  /** `requestFinished` */
  function RequestFinished(s: Ledger, r: TaskRequest): Ledger {
    if r.taskID in s.currentRequests then
      s.(currentRequests := s.currentRequests[r.taskID := RemoveRequest(s.currentRequests[r.taskID], r)])
    else s
  }

  predicate IsTimer(p: Pending) { p.DelayedAttempt? || p.RetryTimer? }

  /**
   * A timer fires. A first-attempt timer attempts its request; a retry timer
   * attempts it only when it is still in the retrying list, taking it out,
   * with the back-off capped at `MaxBackOff`.
   */
  function FireTimer(s: Ledger, i: nat, env: Env): Ledger
    requires i < |s.pending| && IsTimer(s.pending[i])
  {
    var p := s.pending[i];
    var s1 := s.(pending := RemoveAt(s.pending, i));
    if p.DelayedAttempt? then AttemptRequest(s1, p.request, p.nextBackOff, env)
    else match FirstIndexOf(s1.retryingRequests, p.request)
      case None => s1
      case Some(k) =>
        AttemptRequest(s1.(retryingRequests := RemoveAt(s1.retryingRequests, k)),
                       p.request, Min(MaxBackOff, p.nextBackOff), env)
  }

  /**
   * The block queued on the launcher's dispatcher runs: it re-checks that the
   * request is current and its requirements, then either re-arms a retry with
   * the same back-off because of the rate limiter, or launches the handler.
   */
  function RunDispatch(s: Ledger, i: nat, env: Env): Ledger
    requires i < |s.pending| && s.pending[i].Dispatch?
  {
    var r := s.pending[i].request;
    var nextBackOff := s.pending[i].nextBackOff;
    var s1 := s.(pending := RemoveAt(s.pending, i));
    if !IsRequestCurrent(s1, r) then s1
    else if !CheckRequestRequirements(r, env) then
      s1.(waitingConditionsRequests := s1.waitingConditionsRequests + [r])
    else match TaskRateLimitDelay(r.rateLimitID, env.overLimit)
      case Some(delay) => RetryRequest(s1, r, delay, nextBackOff)
      case None => s1.(pending := s1.pending + [Running(r, nextBackOff)])
  }

  /**
   * A launched handler reports its outcome: the usage is tracked, and a
   * current request is finished on success or retried after `nextBackOff`
   * with the back-off doubled on failure.
   */
  function CompleteTask(s: Ledger, i: nat, success: bool): Ledger
    requires i < |s.pending| && s.pending[i].Running?
  {
    var r := s.pending[i].request;
    var nextBackOff := s.pending[i].nextBackOff;
    var s1 := s.(pending := RemoveAt(s.pending, i));
    var s2 := if r.rateLimitID.Some? then s1.(tracked := s1.tracked + [r.rateLimitID.value]) else s1;
    if !IsRequestCurrent(s2, r) then s2
    else if success then RequestFinished(s2, r)
    else RetryRequest(s2, r, nextBackOff, nextBackOff * 2.0)
  }

  /** `retryWaitingConditions`, also run when connectivity changes and on `didBecomeActive`. */
  function RetryWaitingConditions(s: Ledger, env: Env): Ledger {
    AttemptAll(s.(waitingConditionsRequests := []), s.waitingConditionsRequests, InitialBackOff, env)
  }

  /** `didEnterBackground`: the waiting list, then every retrying request at once, back-off reset. */
  function DidEnterBackground(s: Ledger, env: Env): Ledger {
    var s1 := RetryWaitingConditions(s, env);
    AttemptAll(s1.(retryingRequests := []), s1.retryingRequests, InitialBackOff, env)
  }

  // ---------------------------------------------------------------------
  // The ledger invariant

  predicate UniqueIDs(rs: seq<TaskRequest>) {
    forall i, j | 0 <= i < j < |rs| :: rs[i].id != rs[j].id
  }

  predicate IssuedBefore(rs: seq<TaskRequest>, n: nat) {
    forall r | r in rs :: r.id < n
  }

  /**
   * Every current request sits under its own task ID, was issued by this
   * scheduler, has a launcher registered for that task ID, and appears once;
   * every request anywhere else was issued by this scheduler.
   */
  ghost predicate Valid(s: Ledger) {
    && (forall t | t in s.currentRequests ::
          && IssuedBefore(s.currentRequests[t], s.nextID)
          && UniqueIDs(s.currentRequests[t])
          && forall r | r in s.currentRequests[t] :: r.taskID == t && r.launcher in Launchers(s, t))
    && IssuedBefore(s.waitingConditionsRequests, s.nextID)
    && IssuedBefore(s.retryingRequests, s.nextID)
    && (forall p | p in s.pending :: p.request.id < s.nextID)
  }
}
