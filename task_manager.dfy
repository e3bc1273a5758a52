/**
 * The background task scheduler as an object whose methods update its
 * ledger in place. Every method is proved to perform exactly the
 * corresponding transition of `TaskLedger`, and every public one to keep the
 * ledger invariant; `TaskProperties` states what those transitions promise.
 *
 * The lock, the semaphore and the dispatch queues are not modelled: work
 * handed to a dispatcher or a timer is recorded in `pending`, and running one
 * such item is a separate public step, so the caller picks the order.
 */
module Tasks {
  import opened Wrappers
  import opened TaskLedger
  import TaskProperties

  class TaskManager {
    var launcherMap: map<string, seq<TaskLauncher>>
    var currentRequests: map<string, seq<TaskRequest>>
    var waitingConditionsRequests: seq<TaskRequest>
    var retryingRequests: seq<TaskRequest>
    /** blocks handed to a dispatcher or a timer and not yet run */
    var pending: seq<Pending>
    /** the rate-limit IDs reported to the rate limiter's `track` */
    var tracked: seq<string>
    /** the id the next request object receives */
    var nextRequestID: nat

    function Snapshot(): Ledger
      reads this
    {
      Ledger(launcherMap, currentRequests, waitingConditionsRequests, retryingRequests, pending, tracked, nextRequestID)
    }

    ghost predicate Valid()
      reads this
    {
      TaskLedger.Valid(Snapshot())
    }

    constructor ()
      ensures Snapshot() == EmptyLedger && Valid()
    {
      launcherMap, currentRequests := map[], map[];
      waitingConditionsRequests, retryingRequests := [], [];
      pending, tracked := [], [];
      nextRequestID := 0;
    }

    /** `register(taskID:dispatcher:launchHandler:)` */
    method Register(taskID: string, dispatcher: Option<string>, handler: nat)
      requires Valid()
      modifies this
      ensures Valid()
      ensures Snapshot() == TaskLedger.Register(old(Snapshot()), taskID, dispatcher, handler)
    {
      var launcher := TaskLauncher(dispatcher.GetOr(GlobalDispatcher), handler);
      if taskID !in launcherMap {
        launcherMap := launcherMap[taskID := []];
      }
      launcherMap := launcherMap[taskID := launcherMap[taskID] + [launcher]];
      TaskProperties.StepPreservesValid(old(Snapshot()), TaskProperties.RegisterStep(taskID, dispatcher, handler));
    }

    /** `register(taskIDs:dispatcher:launchHandler:)` */
    method RegisterAll(taskIDs: seq<string>, dispatcher: Option<string>, handler: nat)
      requires Valid()
      modifies this
      ensures Valid()
      ensures Snapshot() == TaskLedger.RegisterAll(old(Snapshot()), taskIDs, dispatcher, handler)
    {
      var k := 0;
      while k < |taskIDs|
        invariant 0 <= k <= |taskIDs|
        invariant Valid()
        invariant Snapshot() == TaskLedger.RegisterAll(old(Snapshot()), taskIDs[..k], dispatcher, handler)
      {
        assert taskIDs[..k + 1][..k] == taskIDs[..k];
        Register(taskIDs[k], dispatcher, handler);
        k := k + 1;
      }
      assert taskIDs[..|taskIDs|] == taskIDs;
    }

    /** `isRequestCurrent` */
    method IsRequestCurrent(request: TaskRequest) returns (current: bool)
      ensures current == TaskLedger.IsRequestCurrent(Snapshot(), request)
    {
      current := request.taskID in currentRequests && ContainsRequest(currentRequests[request.taskID], request);
    }

    /** `enqueueRequest(taskID:rateLimitID:options:minDelay:)` */
    method EnqueueRequest(taskID: string, rateLimitID: Option<string>, options: TaskRequestOptions,
                          minDelay: real, env: Env)
      requires Valid()
      modifies this
      ensures Valid()
      ensures Snapshot() == TaskLedger.EnqueueRequest(old(Snapshot()), taskID, rateLimitID, options, minDelay, env)
    {
      var launchers := if taskID in launcherMap then launcherMap[taskID] else [];
      if |launchers| == 0 {
        return;
      }
      var requests := NewRequests(taskID, rateLimitID, options, launchers, nextRequestID);

      var skip := false;
      var rateLimitDelay := 0.0;
      var currentForID := if taskID in currentRequests then Some(currentRequests[taskID]) else None;
      match options.conflictPolicy {
        case Keep =>
          if |currentForID.GetOr([])| > 0 {
            skip := true;
          } else {
            currentRequests := currentRequests[taskID := requests];
          }
        case Append =>
          var appended := currentForID.GetOr([]);
          appended := appended + requests;
          currentRequests := currentRequests[taskID := appended];
        case Replace =>
          currentRequests := currentRequests[taskID := requests];
      }

      if skip {
        return;
      }
      nextRequestID := nextRequestID + |launchers|;
      var delay := TaskRateLimitDelay(rateLimitID, env.overLimit);
      if delay.Some? {
        rateLimitDelay := delay.value;
      }
      InitiateRequests(requests, Max(minDelay, rateLimitDelay), env);
      TaskProperties.StepPreservesValid(old(Snapshot()),
        TaskProperties.EnqueueStep(taskID, rateLimitID, options, minDelay, env));
    }

    /** `initiateRequests` */
    method InitiateRequests(requests: seq<TaskRequest>, initialDelay: real, env: Env)
      modifies this
      ensures Snapshot() == TaskLedger.InitiateRequests(old(Snapshot()), requests, initialDelay, env)
    {
      var k := 0;
      while k < |requests|
        invariant 0 <= k <= |requests|
        invariant initialDelay > 0.0 ==>
          Snapshot() == old(Snapshot()).(pending := old(pending) + DelayedAttempts(requests[..k], initialDelay))
        invariant initialDelay <= 0.0 ==>
          Snapshot() == AttemptAll(old(Snapshot()), requests[..k], InitialBackOff, env)
      {
        assert requests[..k + 1][..k] == requests[..k];
        if initialDelay > 0.0 {
          assert DelayedAttempts(requests[..k + 1], initialDelay)
              == DelayedAttempts(requests[..k], initialDelay) + [DelayedAttempt(requests[k], initialDelay, InitialBackOff)];
          pending := pending + [DelayedAttempt(requests[k], initialDelay, InitialBackOff)];
        } else {
          AttemptRequest(requests[k], InitialBackOff, env);
        }
        k := k + 1;
      }
      assert requests[..|requests|] == requests;
    }

    /** `retryRequest`: the timer itself is the `RetryTimer` item it leaves in `pending`. */
    method RetryRequest(request: TaskRequest, delay: real, nextBackOff: real)
      modifies this
      ensures Snapshot() == TaskLedger.RetryRequest(old(Snapshot()), request, delay, nextBackOff)
    {
      retryingRequests := retryingRequests + [request];
      pending := pending + [RetryTimer(request, delay, nextBackOff)];
    }

    /** `attemptRequest`, up to the block it queues on the launcher's dispatcher. */
    method AttemptRequest(request: TaskRequest, nextBackOff: real, env: Env)
      modifies this
      ensures Snapshot() == TaskLedger.AttemptRequest(old(Snapshot()), request, nextBackOff, env)
    {
      var current := IsRequestCurrent(request);
      if !current {
        return;
      }
      if !CheckRequestRequirements(request, env) {
        waitingConditionsRequests := waitingConditionsRequests + [request];
        return;
      }
      if !env.canBeginTask {
        waitingConditionsRequests := waitingConditionsRequests + [request];
        return;
      }
      pending := pending + [Dispatch(request, nextBackOff)];
    }

    /** The `forEach` of the re-attempt paths. */
    method AttemptEach(requests: seq<TaskRequest>, nextBackOff: real, env: Env)
      modifies this
      ensures Snapshot() == AttemptAll(old(Snapshot()), requests, nextBackOff, env)
    {
      var k := 0;
      while k < |requests|
        invariant 0 <= k <= |requests|
        invariant Snapshot() == AttemptAll(old(Snapshot()), requests[..k], nextBackOff, env)
      {
        assert requests[..k + 1][..k] == requests[..k];
        AttemptRequest(requests[k], nextBackOff, env);
        k := k + 1;
      }
      assert requests[..|requests|] == requests;
    }

    /** `requestFinished` */
    method RequestFinished(request: TaskRequest)
      modifies this
      ensures Snapshot() == TaskLedger.RequestFinished(old(Snapshot()), request)
    {
      if request.taskID in currentRequests {
        currentRequests := currentRequests[request.taskID := RemoveRequest(currentRequests[request.taskID], request)];
      }
    }

    /** A first-attempt timer or a retry timer fires. */
    method FireTimer(i: nat, env: Env)
      requires Valid() && i < |pending| && IsTimer(pending[i])
      modifies this
      ensures Valid()
      ensures Snapshot() == TaskLedger.FireTimer(old(Snapshot()), i, env)
    {
      var item := pending[i];
      pending := RemoveAt(pending, i);
      if item.DelayedAttempt? {
        AttemptRequest(item.request, item.nextBackOff, env);
      } else {
        var launch := false;
        var index := FirstIndexOf(retryingRequests, item.request);
        if index.Some? {
          retryingRequests := RemoveAt(retryingRequests, index.value);
          launch := true;
        }
        if launch {
          AttemptRequest(item.request, Min(MaxBackOff, item.nextBackOff), env);
        }
      }
      TaskProperties.StepPreservesValid(old(Snapshot()), TaskProperties.TimerStep(i, env));
    }

    /** The block queued on the launcher's dispatcher runs. */
    method RunDispatch(i: nat, env: Env)
      requires Valid() && i < |pending| && pending[i].Dispatch?
      modifies this
      ensures Valid()
      ensures Snapshot() == TaskLedger.RunDispatch(old(Snapshot()), i, env)
    {
      var request, nextBackOff := pending[i].request, pending[i].nextBackOff;
      pending := RemoveAt(pending, i);
      var current := IsRequestCurrent(request);
      if !current {
        return;
      }
      if !CheckRequestRequirements(request, env) {
        waitingConditionsRequests := waitingConditionsRequests + [request];
        return;
      }
      var launch := true;
      var rateLimitDelay := TaskRateLimitDelay(request.rateLimitID, env.overLimit);
      if rateLimitDelay.Some? {
        RetryRequest(request, rateLimitDelay.value, nextBackOff);
        launch := false;
      }
      if launch {
        pending := pending + [Running(request, nextBackOff)];
      }
      TaskProperties.StepPreservesValid(old(Snapshot()), TaskProperties.DispatchStep(i, env));
    }

    /** A launched handler reports its outcome. */
    method CompleteTask(i: nat, success: bool)
      requires Valid() && i < |pending| && pending[i].Running?
      modifies this
      ensures Valid()
      ensures Snapshot() == TaskLedger.CompleteTask(old(Snapshot()), i, success)
    {
      var request, nextBackOff := pending[i].request, pending[i].nextBackOff;
      pending := RemoveAt(pending, i);
      if request.rateLimitID.Some? {
        tracked := tracked + [request.rateLimitID.value];
      }
      var current := IsRequestCurrent(request);
      if current {
        if success {
          RequestFinished(request);
        } else {
          RetryRequest(request, nextBackOff, nextBackOff * 2.0);
        }
      }
      TaskProperties.StepPreservesValid(old(Snapshot()), TaskProperties.OutcomeStep(i, success));
    }

    /** `retryWaitingConditions`; also what a connectivity update from the network monitor runs. */
    method RetryWaitingConditions(env: Env)
      requires Valid()
      modifies this
      ensures Valid()
      ensures Snapshot() == TaskLedger.RetryWaitingConditions(old(Snapshot()), env)
    {
      var copy := waitingConditionsRequests;
      waitingConditionsRequests := [];
      AttemptEach(copy, InitialBackOff, env);
      TaskProperties.StepPreservesValid(old(Snapshot()), TaskProperties.ConnectivityStep(env));
    }

    /** `didBecomeActive` */
    method DidBecomeActive(env: Env)
      requires Valid()
      modifies this
      ensures Valid()
      ensures Snapshot() == TaskLedger.RetryWaitingConditions(old(Snapshot()), env)
    {
      RetryWaitingConditions(env);
    }

    /** `didEnterBackground` */
    method DidEnterBackground(env: Env)
      requires Valid()
      modifies this
      ensures Valid()
      ensures Snapshot() == TaskLedger.DidEnterBackground(old(Snapshot()), env)
    {
      RetryWaitingConditions(env);
      var copy := retryingRequests;
      retryingRequests := [];
      AttemptEach(copy, InitialBackOff, env);
      TaskProperties.StepPreservesValid(old(Snapshot()), TaskProperties.EnterBackgroundStep(env));
    }
  }
}
