/**
 * What the scheduler promises, proved about the transition functions of
 * `TaskLedger`: the conflict policies, admission, the outcome handling, the
 * back-off schedule, the re-attempt loops, and two facts about every step —
 * the ledger invariant is kept, and a request that stopped being current
 * never becomes current again.
 */
module TaskProperties {
  import opened Wrappers
  import opened TaskLedger

  /** Admission: the requirements hold and the host grants a background task. */
  predicate Admitted(r: TaskRequest, env: Env) {
    CheckRequestRequirements(r, env) && env.canBeginTask
  }

  /** The requests of `rs` that an attempt parks on the waiting-conditions list, in order. */
  function Blocked(s: Ledger, rs: seq<TaskRequest>, env: Env): (b: seq<TaskRequest>)
    ensures forall x | x in b :: x in rs && IsRequestCurrent(s, x) && !Admitted(x, env)
    ensures forall x | x in rs && IsRequestCurrent(s, x) && !Admitted(x, env) :: x in b
    decreases |rs|
  {
    if rs == [] then []
    else
      var last := rs[|rs| - 1];
      assert rs == rs[..|rs| - 1] + [last];
      Blocked(s, rs[..|rs| - 1], env) + (if IsRequestCurrent(s, last) && !Admitted(last, env) then [last] else [])
  }

  /** The dispatcher blocks an attempt of `rs` queues, in order. */
  function Dispatches(s: Ledger, rs: seq<TaskRequest>, nextBackOff: real, env: Env): (ps: seq<Pending>)
    ensures forall p | p in ps ::
      p.Dispatch? && p.nextBackOff == nextBackOff && p.request in rs && IsRequestCurrent(s, p.request) && Admitted(p.request, env)
    ensures forall x | x in rs && IsRequestCurrent(s, x) && Admitted(x, env) :: Dispatch(x, nextBackOff) in ps
    decreases |rs|
  {
    if rs == [] then []
    else
      var last := rs[|rs| - 1];
      assert rs == rs[..|rs| - 1] + [last];
      Dispatches(s, rs[..|rs| - 1], nextBackOff, env) + (if IsRequestCurrent(s, last) && Admitted(last, env) then [Dispatch(last, nextBackOff)] else [])
  }

  // ---------------------------------------------------------------------
  // Registration

  /** Registering appends one launcher for the task ID and changes nothing else. */
  lemma RegisterAppendsOne(s: Ledger, taskID: string, dispatcher: Option<string>, handler: nat, other: string)
    requires other != taskID
    ensures var s' := Register(s, taskID, dispatcher, handler);
      && Launchers(s', taskID) == Launchers(s, taskID) + [TaskLauncher(dispatcher.GetOr(GlobalDispatcher), handler)]
      && Launchers(s', other) == Launchers(s, other)
      && s' == s.(launcherMap := s'.launcherMap)
  {
  }

  /** `n` copies of one launcher. */
  function Copies(launcher: TaskLauncher, n: nat): (r: seq<TaskLauncher>)
    ensures |r| == n
    ensures forall i | 0 <= i < n :: r[i] == launcher
  {
    seq(n, _ => launcher)
  }

  /**
   * Registering several task IDs appends, under each task ID, the launcher
   * once per occurrence of that ID in the list, after the launchers it
   * already had; the other fields are unchanged.
   */
  lemma {:induction false} RegisterAllLaunchers(s: Ledger, taskIDs: seq<string>, dispatcher: Option<string>, handler: nat, t: string)
    ensures var s' := RegisterAll(s, taskIDs, dispatcher, handler);
      && s' == s.(launcherMap := s'.launcherMap)
      && Launchers(s', t)
           == Launchers(s, t) + Copies(TaskLauncher(dispatcher.GetOr(GlobalDispatcher), handler), multiset(taskIDs)[t])
    decreases |taskIDs|
  {
    var launcher := TaskLauncher(dispatcher.GetOr(GlobalDispatcher), handler);
    if taskIDs == [] {
      assert Copies(launcher, 0) == [];
    } else {
      var init := taskIDs[..|taskIDs| - 1];
      var last := taskIDs[|taskIDs| - 1];
      RegisterAllLaunchers(s, init, dispatcher, handler, t);
      assert taskIDs == init + [last];
      if t == last {
        assert multiset(taskIDs)[t] == multiset(init)[t] + 1;
        assert Copies(launcher, multiset(init)[t]) + [launcher] == Copies(launcher, multiset(taskIDs)[t]);
      } else {
        assert multiset(taskIDs)[t] == multiset(init)[t];
      }
    }
  }

  /** Every listed task ID ends with the launcher registered; every other keeps its launchers. */
  lemma RegisterAllRegistersEach(s: Ledger, taskIDs: seq<string>, dispatcher: Option<string>, handler: nat)
    ensures var s' := RegisterAll(s, taskIDs, dispatcher, handler);
      var launcher := TaskLauncher(dispatcher.GetOr(GlobalDispatcher), handler);
      && (forall t | t in taskIDs :: t in s'.launcherMap && launcher in Launchers(s', t))
      && (forall t | t !in taskIDs :: Launchers(s', t) == Launchers(s, t))
  {
    var s' := RegisterAll(s, taskIDs, dispatcher, handler);
    var launcher := TaskLauncher(dispatcher.GetOr(GlobalDispatcher), handler);
    forall t | t in taskIDs ensures t in s'.launcherMap && launcher in Launchers(s', t) {
      RegisterAllLaunchers(s, taskIDs, dispatcher, handler, t);
      assert Launchers(s', t)[|Launchers(s, t)|] == launcher;
    }
    forall t | t !in taskIDs ensures Launchers(s', t) == Launchers(s, t) {
      RegisterAllLaunchers(s, taskIDs, dispatcher, handler, t);
      assert Copies(launcher, 0) == [];
    }
  }

  // ---------------------------------------------------------------------
  // Attempts

  /** An attempt of a request that is no longer current does nothing. */
  lemma AttemptStaleIsNoOp(s: Ledger, r: TaskRequest, nextBackOff: real, env: Env)
    requires !IsRequestCurrent(s, r)
    ensures AttemptRequest(s, r, nextBackOff, env) == s
  {
  }

  /**
   * A current request that fails the requirements (less than 30 s of
   * background time, or no network when it needs one) or gets no background
   * task joins the waiting list and is not handed to its dispatcher;
   * otherwise it is handed over with the same back-off.
   */
  lemma AttemptAdmission(s: Ledger, r: TaskRequest, nextBackOff: real, env: Env)
    requires IsRequestCurrent(s, r)
    ensures var s' := AttemptRequest(s, r, nextBackOff, env);
      if env.timeRemaining < 30.0 || (r.options.isNetworkRequired && !env.isConnected) || !env.canBeginTask then
        s' == s.(waitingConditionsRequests := s.waitingConditionsRequests + [r])
      else
        s' == s.(pending := s.pending + [Dispatch(r, nextBackOff)])
  {
  }

  /** Attempting several requests parks exactly the blocked current ones and dispatches exactly the admitted current ones. */
  lemma {:induction false} AttemptAllEffect(s: Ledger, rs: seq<TaskRequest>, nextBackOff: real, env: Env)
    ensures AttemptAll(s, rs, nextBackOff, env)
         == s.(waitingConditionsRequests := s.waitingConditionsRequests + Blocked(s, rs, env),
               pending := s.pending + Dispatches(s, rs, nextBackOff, env))
    decreases |rs|
  {
    if rs == [] {
      assert s.waitingConditionsRequests + [] == s.waitingConditionsRequests;
      assert s.pending + [] == s.pending;
    } else {
      var init, last := rs[..|rs| - 1], rs[|rs| - 1];
      AttemptAllEffect(s, init, nextBackOff, env);
      var a := AttemptAll(s, init, nextBackOff, env);
      assert IsRequestCurrent(a, last) == IsRequestCurrent(s, last);
      var w, p := Blocked(s, init, env), Dispatches(s, init, nextBackOff, env);
      assert s.waitingConditionsRequests + w + [last] == s.waitingConditionsRequests + (w + [last]);
      assert s.pending + p + [Dispatch(last, nextBackOff)] == s.pending + (p + [Dispatch(last, nextBackOff)]);
      assert w + [] == w;
      assert p + [] == p;
    }
  }

  /** `Blocked` and `Dispatches` look only at which requests are current. */
  lemma {:induction false} AttemptOutcomeDependsOnCurrent(s: Ledger, t: Ledger, rs: seq<TaskRequest>, nextBackOff: real, env: Env)
    requires s.currentRequests == t.currentRequests
    ensures Blocked(s, rs, env) == Blocked(t, rs, env)
    ensures Dispatches(s, rs, nextBackOff, env) == Dispatches(t, rs, nextBackOff, env)
    decreases |rs|
  {
    if rs != [] {
      AttemptOutcomeDependsOnCurrent(s, t, rs[..|rs| - 1], nextBackOff, env);
      assert IsRequestCurrent(s, rs[|rs| - 1]) == IsRequestCurrent(t, rs[|rs| - 1]);
    }
  }

  /**
   * Re-attempting the waiting list empties it and attempts each waiting
   * request with the back-off reset to 30 s: requests that are still blocked
   * come back in order, stale ones are dropped, the rest are dispatched.
   */
  lemma RetryWaitingConditionsEffect(s: Ledger, env: Env)
    ensures var s' := RetryWaitingConditions(s, env);
      && s'.waitingConditionsRequests == Blocked(s, s.waitingConditionsRequests, env)
      && s'.pending == s.pending + Dispatches(s, s.waitingConditionsRequests, InitialBackOff, env)
      && s' == s.(waitingConditionsRequests := s'.waitingConditionsRequests, pending := s'.pending)
  {
    var s0 := s.(waitingConditionsRequests := []);
    AttemptAllEffect(s0, s.waitingConditionsRequests, InitialBackOff, env);
    AttemptOutcomeDependsOnCurrent(s0, s, s.waitingConditionsRequests, InitialBackOff, env);
  }

  /**
   * Entering the background re-attempts the waiting list and then fires every
   * pending retry at once, both with the back-off reset to 30 s; the retrying
   * list ends empty.
   */
  lemma DidEnterBackgroundEffect(s: Ledger, env: Env)
    ensures var s' := DidEnterBackground(s, env);
      && s'.retryingRequests == []
      && s'.waitingConditionsRequests == Blocked(s, s.waitingConditionsRequests, env) + Blocked(s, s.retryingRequests, env)
      && s'.pending == s.pending + Dispatches(s, s.waitingConditionsRequests, InitialBackOff, env)
                                 + Dispatches(s, s.retryingRequests, InitialBackOff, env)
      && s' == s.(waitingConditionsRequests := s'.waitingConditionsRequests, retryingRequests := [], pending := s'.pending)
  {
    RetryWaitingConditionsEffect(s, env);
    var s1 := RetryWaitingConditions(s, env);
    var s2 := s1.(retryingRequests := []);
    AttemptAllEffect(s2, s.retryingRequests, InitialBackOff, env);
    AttemptOutcomeDependsOnCurrent(s2, s, s.retryingRequests, InitialBackOff, env);
  }

  // ---------------------------------------------------------------------
  // Enqueue and the conflict policies

  lemma EnqueueWithoutLaunchersIsNoOp(s: Ledger, taskID: string, rateLimitID: Option<string>,
                                      options: TaskRequestOptions, minDelay: real, env: Env)
    requires Launchers(s, taskID) == []
    ensures EnqueueRequest(s, taskID, rateLimitID, options, minDelay, env) == s
  {
  }

  /** Under `keep`, a task ID that already has current requests keeps them and nothing is initiated. */
  lemma EnqueueKeepSkips(s: Ledger, taskID: string, rateLimitID: Option<string>,
                         options: TaskRequestOptions, minDelay: real, env: Env)
    requires options.conflictPolicy == Keep && |CurrentFor(s, taskID)| > 0
    ensures EnqueueRequest(s, taskID, rateLimitID, options, minDelay, env) == s
  {
  }

  /**
   * An admitted enqueue creates one request per launcher, installs them as
   * the policy says (`append`: after the old ones, in order; `keep` on an
   * empty list and `replace`: alone), leaves every other task ID alone, and
   * schedules each new request's first attempt after
   * max(minDelay, rate-limit delay), attempting at once when that is not positive.
   */
  lemma EnqueueInstalls(s: Ledger, taskID: string, rateLimitID: Option<string>,
                        options: TaskRequestOptions, minDelay: real, env: Env)
    requires |Launchers(s, taskID)| > 0
    requires !(options.conflictPolicy == Keep && |CurrentFor(s, taskID)| > 0)
    ensures var s' := EnqueueRequest(s, taskID, rateLimitID, options, minDelay, env);
      var launchers := Launchers(s, taskID);
      var requests := NewRequests(taskID, rateLimitID, options, launchers, s.nextID);
      var delay := Max(minDelay, TaskRateLimitDelay(rateLimitID, env.overLimit).GetOr(0.0));
      && s'.currentRequests == s.currentRequests[taskID :=
           if options.conflictPolicy == Append then CurrentFor(s, taskID) + requests else requests]
      && s'.nextID == s.nextID + |launchers|
      && s'.launcherMap == s.launcherMap
      && s'.retryingRequests == s.retryingRequests
      && s'.tracked == s.tracked
      && (delay > 0.0 ==>
            s'.pending == s.pending + DelayedAttempts(requests, delay)
            && s'.waitingConditionsRequests == s.waitingConditionsRequests)
      && (delay <= 0.0 ==>
            s'.pending == s.pending + Dispatches(s', requests, InitialBackOff, env)
            && s'.waitingConditionsRequests == s.waitingConditionsRequests + Blocked(s', requests, env))
  {
    var launchers := Launchers(s, taskID);
    var requests := NewRequests(taskID, rateLimitID, options, launchers, s.nextID);
    var existing := CurrentFor(s, taskID);
    var list := if options.conflictPolicy == Append then existing + requests else requests;
    var admitted := s.(currentRequests := s.currentRequests[taskID := list], nextID := s.nextID + |launchers|);
    AttemptAllEffect(admitted, requests, InitialBackOff, env);
    var s' := EnqueueRequest(s, taskID, rateLimitID, options, minDelay, env);
    AttemptOutcomeDependsOnCurrent(admitted, s', requests, InitialBackOff, env);
  }

  /** Under `replace`, the requests that were current for the task ID stop being current. */
  lemma EnqueueReplaceSupersedes(s: Ledger, taskID: string, rateLimitID: Option<string>,
                                 options: TaskRequestOptions, minDelay: real, env: Env, old_: TaskRequest)
    requires Valid(s)
    requires options.conflictPolicy == Replace && |Launchers(s, taskID)| > 0
    requires old_ in CurrentFor(s, taskID)
    ensures !IsRequestCurrent(EnqueueRequest(s, taskID, rateLimitID, options, minDelay, env), old_)
  {
    EnqueueInstalls(s, taskID, rateLimitID, options, minDelay, env);
    var requests := NewRequests(taskID, rateLimitID, options, Launchers(s, taskID), s.nextID);
    assert old_.id < s.nextID;
  }

  // ---------------------------------------------------------------------
  // Outcomes

  lemma {:induction false} RemoveAbsentRequest(rs: seq<TaskRequest>, r: TaskRequest)
    requires !ContainsRequest(rs, r)
    ensures RemoveRequest(rs, r) == rs
  {
    if rs != [] {
      assert !ContainsRequest(rs[1..], r) by {
        forall i | 0 <= i < |rs[1..]| ensures rs[1..][i].id != r.id {
          assert rs[1..][i] == rs[i + 1];
        }
      }
      RemoveAbsentRequest(rs[1..], r);
    }
  }

  lemma UniqueTail(rs: seq<TaskRequest>)
    requires UniqueIDs(rs) && rs != []
    ensures UniqueIDs(rs[1..])
    ensures !ContainsRequest(rs[1..], rs[0])
  {
  }

  /** In a list where every request appears once, `removeAll` takes out exactly that one element. */
  lemma {:induction false} RemoveUniqueRequest(rs: seq<TaskRequest>, r: TaskRequest, j: nat)
    requires UniqueIDs(rs) && j < |rs| && rs[j].id == r.id
    ensures RemoveRequest(rs, r) == rs[..j] + rs[j + 1..]
  {
    var tail := rs[1..];
    UniqueTail(rs);
    if j == 0 {
      assert !ContainsRequest(tail, r);
      RemoveAbsentRequest(tail, r);
      assert RemoveRequest(rs, r) == [] + RemoveRequest(tail, r);
      assert rs[..0] + rs[1..] == tail;
    } else {
      assert rs[0].id != r.id;
      assert tail[j - 1] == rs[j];
      RemoveUniqueRequest(tail, r, j - 1);
      assert RemoveRequest(rs, r) == [rs[0]] + RemoveRequest(tail, r);
      assert tail[..j - 1] == rs[1..j];
      assert tail[j..] == rs[j + 1..];
      assert [rs[0]] + rs[1..j] == rs[..j];
    }
  }

  /** `removeAll` keeps exactly the elements that are not the request. */
  lemma {:induction false} RemoveRequestMembers(rs: seq<TaskRequest>, r: TaskRequest)
    ensures forall x | x in RemoveRequest(rs, r) :: x in rs && x.id != r.id
    ensures forall x | x in rs && x.id != r.id :: x in RemoveRequest(rs, r)
  {
    if rs != [] {
      RemoveRequestMembers(rs[1..], r);
      assert rs == [rs[0]] + rs[1..];
    }
  }

  lemma {:induction false} RemoveRequestKeepsUnique(rs: seq<TaskRequest>, r: TaskRequest)
    requires UniqueIDs(rs)
    ensures UniqueIDs(RemoveRequest(rs, r))
  {
    if rs != [] {
      RemoveRequestKeepsUnique(rs[1..], r);
      RemoveRequestMembers(rs[1..], r);
      var rest := RemoveRequest(rs[1..], r);
      forall x | x in rest ensures x.id != rs[0].id {
        var k :| 0 <= k < |rs[1..]| && rs[1..][k] == x;
        assert rs[k + 1] == x;
      }
    }
  }

  /**
   * A success outcome on a current request removes exactly that request from
   * its task's current list; every other part of the ledger is unchanged.
   */
  lemma CompleteSuccessRemovesRequest(s: Ledger, i: nat)
    requires Valid(s) && i < |s.pending| && s.pending[i].Running?
    requires IsRequestCurrent(s, s.pending[i].request)
    ensures var r := s.pending[i].request;
      var s' := CompleteTask(s, i, true);
      var before := s.currentRequests[r.taskID];
      && (exists j | 0 <= j < |before| && before[j].id == r.id ::
            s'.currentRequests == s.currentRequests[r.taskID := before[..j] + before[j + 1..]])
      && s'.launcherMap == s.launcherMap
      && s'.waitingConditionsRequests == s.waitingConditionsRequests
      && s'.retryingRequests == s.retryingRequests
      && s'.pending == RemoveAt(s.pending, i)
      && s'.tracked == s.tracked + (if r.rateLimitID.Some? then [r.rateLimitID.value] else [])
      && s'.nextID == s.nextID
  {
    var r := s.pending[i].request;
    var s1 := s.(pending := RemoveAt(s.pending, i));
    var s2 := if r.rateLimitID.Some? then s1.(tracked := s1.tracked + [r.rateLimitID.value]) else s1;
    assert s2.currentRequests == s.currentRequests;
    assert IsRequestCurrent(s2, r);
    assert CompleteTask(s, i, true) == RequestFinished(s2, r);
    var before := s.currentRequests[r.taskID];
    var j :| 0 <= j < |before| && before[j].id == r.id;
    RemoveUniqueRequest(before, r, j);
  }

  /** A failure outcome on a current request retries it after `nextBackOff` with the back-off doubled. */
  lemma CompleteFailureRetries(s: Ledger, i: nat)
    requires i < |s.pending| && s.pending[i].Running?
    requires IsRequestCurrent(s, s.pending[i].request)
    ensures var r, b := s.pending[i].request, s.pending[i].nextBackOff;
      var s' := CompleteTask(s, i, false);
      && s'.currentRequests == s.currentRequests
      && s'.retryingRequests == s.retryingRequests + [r]
      && s'.pending == RemoveAt(s.pending, i) + [RetryTimer(r, b, b * 2.0)]
      && s'.waitingConditionsRequests == s.waitingConditionsRequests
      && s'.launcherMap == s.launcherMap
      && s'.tracked == s.tracked + (if r.rateLimitID.Some? then [r.rateLimitID.value] else [])
      && s'.nextID == s.nextID
  {
  }

  /** Any outcome on a request that is no longer current leaves the ledger as it was; the usage is still tracked. */
  lemma CompleteStaleLeavesLedger(s: Ledger, i: nat, success: bool)
    requires i < |s.pending| && s.pending[i].Running?
    requires !IsRequestCurrent(s, s.pending[i].request)
    ensures var r := s.pending[i].request;
      CompleteTask(s, i, success)
        == s.(pending := RemoveAt(s.pending, i),
              tracked := s.tracked + if r.rateLimitID.Some? then [r.rateLimitID.value] else [])
  {
    var r := s.pending[i].request;
    if r.rateLimitID.None? {
      assert s.tracked + [] == s.tracked;
    }
  }

  // ---------------------------------------------------------------------
  // Timers, the rate limiter and the back-off

  /** A retry timer whose request is no longer in the retrying list does nothing. */
  lemma RetryTimerWithoutEntryIsNoOp(s: Ledger, i: nat, env: Env)
    requires i < |s.pending| && s.pending[i].RetryTimer?
    requires !ContainsRequest(s.retryingRequests, s.pending[i].request)
    ensures FireTimer(s, i, env) == s.(pending := RemoveAt(s.pending, i))
  {
  }

  /**
   * A retry timer whose request is in the retrying list takes out its first
   * entry and attempts it with the back-off capped at 120 s.
   */
  lemma RetryTimerLaunches(s: Ledger, i: nat, env: Env)
    requires i < |s.pending| && s.pending[i].RetryTimer?
    requires ContainsRequest(s.retryingRequests, s.pending[i].request)
    ensures var r, b := s.pending[i].request, s.pending[i].nextBackOff;
      exists k | 0 <= k < |s.retryingRequests| ::
        && s.retryingRequests[k].id == r.id
        && (forall j | 0 <= j < k :: s.retryingRequests[j].id != r.id)
        && FireTimer(s, i, env)
             == AttemptRequest(s.(pending := RemoveAt(s.pending, i), retryingRequests := RemoveAt(s.retryingRequests, k)),
                               r, if b <= 120.0 then b else 120.0, env)
  {
    var k := FirstIndexOf(s.retryingRequests, s.pending[i].request).value;
    assert s.retryingRequests[k].id == s.pending[i].request.id;
  }

  /**
   * When the dispatched block finds the request current and its requirements
   * met, an over-limit rate limiter re-arms a retry after the limiter's delay
   * with the SAME back-off; otherwise the handler is launched.
   */
  lemma DispatchRateLimited(s: Ledger, i: nat, env: Env)
    requires i < |s.pending| && s.pending[i].Dispatch?
    requires IsRequestCurrent(s, s.pending[i].request)
    requires CheckRequestRequirements(s.pending[i].request, env)
    ensures var r, b := s.pending[i].request, s.pending[i].nextBackOff;
      var s' := RunDispatch(s, i, env);
      match TaskRateLimitDelay(r.rateLimitID, env.overLimit)
      case Some(d) =>
        s' == s.(pending := RemoveAt(s.pending, i) + [RetryTimer(r, d, b)], retryingRequests := s.retryingRequests + [r])
      case None =>
        s' == s.(pending := RemoveAt(s.pending, i) + [Running(r, b)])
  {
  }

  /** A dispatched block whose request is stale, or whose requirements no longer hold, launches nothing. */
  lemma DispatchRechecks(s: Ledger, i: nat, env: Env)
    requires i < |s.pending| && s.pending[i].Dispatch?
    requires !IsRequestCurrent(s, s.pending[i].request) || !CheckRequestRequirements(s.pending[i].request, env)
    ensures var r := s.pending[i].request;
      RunDispatch(s, i, env)
        == s.(pending := RemoveAt(s.pending, i),
              waitingConditionsRequests := s.waitingConditionsRequests + if IsRequestCurrent(s, r) then [r] else [])
  {
  }

  lemma FirstIndexOfAppended(rs: seq<TaskRequest>, r: TaskRequest)
    requires !ContainsRequest(rs, r)
    ensures FirstIndexOf(rs + [r], r) == Some(|rs|)
  {
    var all := rs + [r];
    assert all[|rs|] == r;
    var k := FirstIndexOf(all, r);
    assert k.Some?;
  }

  /** The back-off in force after `k` consecutive failures: doubled at each failure, capped when the retry fires. */
  function BackOffAfterFailures(k: nat): real {
    if k == 0 then InitialBackOff else Min(MaxBackOff, BackOffAfterFailures(k - 1) * 2.0)
  }

  /** The retry delays of a request that keeps failing are 30, 60, 120, 120, ... */
  lemma {:induction false} BackOffSchedule(k: nat)
    ensures BackOffAfterFailures(k) == if k == 0 then 30.0 else if k == 1 then 60.0 else 120.0
  {
    if k > 0 {
      BackOffSchedule(k - 1);
    }
  }

  /**
   * A failure followed by its retry timer: the timer waits the old back-off
   * and the request is attempted again with the back-off doubled and capped,
   * i.e. the next value of `BackOffAfterFailures`.
   */
  lemma FailureThenRetry(s: Ledger, i: nat, env: Env, k: nat)
    requires i < |s.pending| && s.pending[i].Running?
    requires s.pending[i].nextBackOff == BackOffAfterFailures(k)
    requires IsRequestCurrent(s, s.pending[i].request)
    requires !ContainsRequest(s.retryingRequests, s.pending[i].request)
    ensures var r := s.pending[i].request;
      var s1 := CompleteTask(s, i, false);
      var last := |s1.pending| - 1;
      && s1.pending[last] == RetryTimer(r, BackOffAfterFailures(k), BackOffAfterFailures(k) * 2.0)
      && FireTimer(s1, last, env)
           == AttemptRequest(s1.(pending := RemoveAt(s.pending, i), retryingRequests := s.retryingRequests),
                             r, BackOffAfterFailures(k + 1), env)
  {
    var r := s.pending[i].request;
    CompleteFailureRetries(s, i);
    var s1 := CompleteTask(s, i, false);
    var last := |s1.pending| - 1;
    assert RemoveAt(s1.pending, last) == RemoveAt(s.pending, i);
    FirstIndexOfAppended(s.retryingRequests, r);
    var k' := |s.retryingRequests|;
    assert RemoveAt(s1.retryingRequests, k') == s.retryingRequests;
  }

  // ---------------------------------------------------------------------
  // Every step

  /** Everything that can happen to the scheduler, one event at a time, in any order. */
  datatype Step =
    | RegisterStep(taskID: string, dispatcher: Option<string>, handler: nat)
    | EnqueueStep(taskID: string, rateLimitID: Option<string>, options: TaskRequestOptions, minDelay: real, env: Env)
    | TimerStep(index: nat, env: Env)
    | DispatchStep(index: nat, env: Env)
    | OutcomeStep(index: nat, success: bool)
    | ConnectivityStep(env: Env)
    | BecomeActiveStep(env: Env)
    | EnterBackgroundStep(env: Env)

  predicate Enabled(s: Ledger, step: Step) {
    match step
    case TimerStep(i, _) => i < |s.pending| && IsTimer(s.pending[i])
    case DispatchStep(i, _) => i < |s.pending| && s.pending[i].Dispatch?
    case OutcomeStep(i, _) => i < |s.pending| && s.pending[i].Running?
    case _ => true
  }

  function Apply(s: Ledger, step: Step): Ledger
    requires Enabled(s, step)
  {
    match step
    case RegisterStep(taskID, dispatcher, handler) => Register(s, taskID, dispatcher, handler)
    case EnqueueStep(taskID, rateLimitID, options, minDelay, env) =>
      EnqueueRequest(s, taskID, rateLimitID, options, minDelay, env)
    case TimerStep(i, env) => FireTimer(s, i, env)
    case DispatchStep(i, env) => RunDispatch(s, i, env)
    case OutcomeStep(i, success) => CompleteTask(s, i, success)
    case ConnectivityStep(env) => RetryWaitingConditions(s, env)
    case BecomeActiveStep(env) => RetryWaitingConditions(s, env)
    case EnterBackgroundStep(env) => DidEnterBackground(s, env)
  }

  lemma AttemptPreservesValid(s: Ledger, r: TaskRequest, nextBackOff: real, env: Env)
    requires Valid(s) && r.id < s.nextID
    ensures Valid(AttemptRequest(s, r, nextBackOff, env))
  {
  }

  lemma AttemptAllPreservesValid(s: Ledger, rs: seq<TaskRequest>, nextBackOff: real, env: Env)
    requires Valid(s) && IssuedBefore(rs, s.nextID)
    ensures Valid(AttemptAll(s, rs, nextBackOff, env))
  {
  }

  lemma NewRequestsIssued(taskID: string, rateLimitID: Option<string>, options: TaskRequestOptions,
                          launchers: seq<TaskLauncher>, firstID: nat)
    ensures var rs := NewRequests(taskID, rateLimitID, options, launchers, firstID);
      && UniqueIDs(rs)
      && forall r | r in rs :: firstID <= r.id < firstID + |launchers| && r.taskID == taskID && r.launcher in launchers
  {
  }

  /** The current list an admitted enqueue installs keeps the invariant's per-list conditions. */
  lemma InstalledListValid(s: Ledger, taskID: string, existing: seq<TaskRequest>, requests: seq<TaskRequest>,
                           append: bool, n: nat)
    requires Valid(s) && existing == CurrentFor(s, taskID)
    requires UniqueIDs(requests) && s.nextID <= n
    requires forall r | r in requests :: s.nextID <= r.id < n && r.taskID == taskID && r.launcher in Launchers(s, taskID)
    ensures var list := if append then existing + requests else requests;
      && IssuedBefore(list, n)
      && UniqueIDs(list)
      && forall r | r in list :: r.taskID == taskID && r.launcher in Launchers(s, taskID)
  {
  }

  lemma AdmittedValid(s: Ledger, taskID: string, list: seq<TaskRequest>, n: nat)
    requires Valid(s) && s.nextID <= n
    requires IssuedBefore(list, n) && UniqueIDs(list)
    requires forall r | r in list :: r.taskID == taskID && r.launcher in Launchers(s, taskID)
    ensures Valid(s.(currentRequests := s.currentRequests[taskID := list], nextID := n))
  {
  }

  lemma EnqueuePreservesValid(s: Ledger, taskID: string, rateLimitID: Option<string>,
                              options: TaskRequestOptions, minDelay: real, env: Env)
    requires Valid(s)
    ensures Valid(EnqueueRequest(s, taskID, rateLimitID, options, minDelay, env))
  {
    var launchers := Launchers(s, taskID);
    var existing := CurrentFor(s, taskID);
    if |launchers| > 0 && !(options.conflictPolicy == Keep && |existing| > 0) {
      var requests := NewRequests(taskID, rateLimitID, options, launchers, s.nextID);
      var append := options.conflictPolicy == Append;
      var list := if append then existing + requests else requests;
      var n := s.nextID + |launchers|;
      NewRequestsIssued(taskID, rateLimitID, options, launchers, s.nextID);
      InstalledListValid(s, taskID, existing, requests, append, n);
      var admitted := s.(currentRequests := s.currentRequests[taskID := list], nextID := n);
      AdmittedValid(s, taskID, list, n);
      var delay := Max(minDelay, TaskRateLimitDelay(rateLimitID, env.overLimit).GetOr(0.0));
      InitiatePreservesValid(admitted, requests, delay, env);
      assert EnqueueRequest(s, taskID, rateLimitID, options, minDelay, env)
          == InitiateRequests(admitted, requests, delay, env);
    }
  }

  lemma InitiatePreservesValid(s: Ledger, rs: seq<TaskRequest>, delay: real, env: Env)
    requires Valid(s) && IssuedBefore(rs, s.nextID)
    ensures Valid(InitiateRequests(s, rs, delay, env))
  {
    if delay > 0.0 {
      var timers := DelayedAttempts(rs, delay);
      forall q | q in timers ensures q.request.id < s.nextID {
        var k :| 0 <= k < |timers| && timers[k] == q;
        assert q.request == rs[k];
      }
      assert forall q | q in s.pending + timers :: q in s.pending || q in timers;
    } else {
      AttemptAllPreservesValid(s, rs, InitialBackOff, env);
    }
  }

  lemma CompletePreservesValid(s: Ledger, i: nat, success: bool)
    requires Valid(s) && i < |s.pending| && s.pending[i].Running?
    ensures Valid(CompleteTask(s, i, success))
  {
    var r := s.pending[i].request;
    assert s.pending[i] in s.pending;
    var s1 := s.(pending := RemoveAt(s.pending, i));
    var s2 := if r.rateLimitID.Some? then s1.(tracked := s1.tracked + [r.rateLimitID.value]) else s1;
    assert Valid(s2);
    if IsRequestCurrent(s2, r) {
      if success {
        var rs := s.currentRequests[r.taskID];
        RemoveRequestKeepsUnique(rs, r);
        RemoveRequestMembers(rs, r);
        assert CompleteTask(s, i, success) == RequestFinished(s2, r);
      }
    }
  }

  lemma FireTimerPreservesValid(s: Ledger, i: nat, env: Env)
    requires Valid(s) && i < |s.pending| && IsTimer(s.pending[i])
    ensures Valid(FireTimer(s, i, env))
  {
    var p := s.pending[i];
    assert p in s.pending;
    var s1 := s.(pending := RemoveAt(s.pending, i));
    assert Valid(s1);
    if p.DelayedAttempt? {
      AttemptPreservesValid(s1, p.request, p.nextBackOff, env);
    } else {
      match FirstIndexOf(s1.retryingRequests, p.request)
      case None =>
      case Some(k) =>
        var s2 := s1.(retryingRequests := RemoveAt(s1.retryingRequests, k));
        assert Valid(s2);
        AttemptPreservesValid(s2, p.request, Min(MaxBackOff, p.nextBackOff), env);
    }
  }

  lemma RunDispatchPreservesValid(s: Ledger, i: nat, env: Env)
    requires Valid(s) && i < |s.pending| && s.pending[i].Dispatch?
    ensures Valid(RunDispatch(s, i, env))
  {
  }

  /** Every step keeps the ledger invariant. */
  lemma StepPreservesValid(s: Ledger, step: Step)
    requires Valid(s) && Enabled(s, step)
    ensures Valid(Apply(s, step))
  {
    match step
    case RegisterStep(taskID, dispatcher, handler) =>
    case EnqueueStep(taskID, rateLimitID, options, minDelay, env) =>
      EnqueuePreservesValid(s, taskID, rateLimitID, options, minDelay, env);
    case TimerStep(i, env) => FireTimerPreservesValid(s, i, env);
    case DispatchStep(i, env) => RunDispatchPreservesValid(s, i, env);
    case OutcomeStep(i, success) => CompletePreservesValid(s, i, success);
    case ConnectivityStep(env) =>
      AttemptAllPreservesValid(s.(waitingConditionsRequests := []), s.waitingConditionsRequests, InitialBackOff, env);
    case BecomeActiveStep(env) =>
      AttemptAllPreservesValid(s.(waitingConditionsRequests := []), s.waitingConditionsRequests, InitialBackOff, env);
    case EnterBackgroundStep(env) =>
      var s0 := s.(waitingConditionsRequests := []);
      AttemptAllPreservesValid(s0, s.waitingConditionsRequests, InitialBackOff, env);
      RetryWaitingConditionsEffect(s, env);
      var s1 := RetryWaitingConditions(s, env);
      AttemptAllPreservesValid(s1.(retryingRequests := []), s1.retryingRequests, InitialBackOff, env);
  }

  lemma EnqueueKeepsStale(s: Ledger, taskID: string, rateLimitID: Option<string>,
                          options: TaskRequestOptions, minDelay: real, env: Env, r: TaskRequest)
    requires Valid(s) && r.id < s.nextID && !IsRequestCurrent(s, r)
    ensures !IsRequestCurrent(EnqueueRequest(s, taskID, rateLimitID, options, minDelay, env), r)
  {
    var existing := CurrentFor(s, taskID);
    if |Launchers(s, taskID)| > 0 && !(options.conflictPolicy == Keep && |existing| > 0) {
      EnqueueInstalls(s, taskID, rateLimitID, options, minDelay, env);
      if r.taskID == taskID {
        NewRequestsIssued(taskID, rateLimitID, options, Launchers(s, taskID), s.nextID);
        var requests := NewRequests(taskID, rateLimitID, options, Launchers(s, taskID), s.nextID);
        StaleNotInstalled(existing, requests, options.conflictPolicy == Append, r);
      }
    }
  }

  /** A request absent from the old list and from the new requests is absent from the installed list. */
  lemma StaleNotInstalled(existing: seq<TaskRequest>, requests: seq<TaskRequest>, append: bool, r: TaskRequest)
    requires !ContainsRequest(existing, r)
    requires forall q | q in requests :: q.id != r.id
    ensures !ContainsRequest(if append then existing + requests else requests, r)
  {
    var list := if append then existing + requests else requests;
    forall j | 0 <= j < |list| ensures list[j].id != r.id {
      if append && j < |existing| {
        assert list[j] == existing[j];
      } else if append {
        assert list[j] == requests[j - |existing|];
      } else {
        assert list[j] in requests;
      }
    }
  }

  lemma CompleteKeepsStale(s: Ledger, i: nat, success: bool, r: TaskRequest)
    requires i < |s.pending| && s.pending[i].Running?
    requires !IsRequestCurrent(s, r)
    ensures !IsRequestCurrent(CompleteTask(s, i, success), r)
  {
    var q := s.pending[i].request;
    if q.taskID in s.currentRequests && r.taskID == q.taskID {
      var out := RemoveRequest(s.currentRequests[q.taskID], q);
      RemoveRequestMembers(s.currentRequests[q.taskID], q);
      forall j | 0 <= j < |out| ensures out[j].id != r.id {
        assert out[j] in s.currentRequests[q.taskID];
      }
    }
  }

  lemma TimerKeepsCurrent(s: Ledger, i: nat, env: Env)
    requires i < |s.pending| && IsTimer(s.pending[i])
    ensures FireTimer(s, i, env).currentRequests == s.currentRequests
  {
  }

  /**
   * A request that has stopped being current — superseded by `replace` or
   * finished — never becomes current again, whatever happens next; so no
   * later attempt, dispatched block or outcome acts on it.
   */
  lemma StaleStaysStale(s: Ledger, step: Step, r: TaskRequest)
    requires Valid(s) && Enabled(s, step)
    requires r.id < s.nextID && !IsRequestCurrent(s, r)
    ensures !IsRequestCurrent(Apply(s, step), r)
  {
    match step
    case RegisterStep(taskID, dispatcher, handler) =>
    case EnqueueStep(taskID, rateLimitID, options, minDelay, env) =>
      EnqueueKeepsStale(s, taskID, rateLimitID, options, minDelay, env, r);
    case TimerStep(i, env) => TimerKeepsCurrent(s, i, env);
    case DispatchStep(i, env) =>
    case OutcomeStep(i, success) => CompleteKeepsStale(s, i, success, r);
    case ConnectivityStep(env) => RetryWaitingConditionsEffect(s, env);
    case BecomeActiveStep(env) => RetryWaitingConditionsEffect(s, env);
    case EnterBackgroundStep(env) => DidEnterBackgroundEffect(s, env);
  }
}
