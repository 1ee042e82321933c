/** The cycle of `startMainProcess` (main.js): a bounded pool of workers over
    the account queue, driven by the workers' `error` and `exit` events, and
    the sleep between cycles. A worker is identified by the queue position of
    its account, which is `taskPointer` at its launch. */
module Scheduler {
  import opened Config

  /** The variables the cycle's closures share. */
  datatype CycleState = CycleState(
    n: nat,                 // accountQueue.length
    maxThreads: int,        // config.maxThreads
    taskPointer: nat,       // next queue position to launch
    active: set<nat>,       // activeWorkers
    processed: nat,         // processedInCycleCount
    resolved: bool)         // resolveCalled

  function Init(n: nat, maxThreads: int): CycleState
  {
    CycleState(n, maxThreads, 0, {}, 0, false)
  }

  /** The first test of `launchNextWorker`. */
  predicate CanResolve(s: CycleState)
  {
    (s.taskPointer >= s.n && |s.active| == 0) || (s.processed >= s.n && |s.active| == 0)
  }

  /** `launchNextWorker()`: resolve the cycle, or launch the next account
      when there is one and a free thread, or do nothing. */
  function Launch(s: CycleState): CycleState
  {
    if CanResolve(s) then s.(resolved := true)
    else if s.taskPointer < s.n && |s.active| < s.maxThreads then
      s.(active := s.active + {s.taskPointer}, taskPointer := s.taskPointer + 1)
    else s
  }

  /** The `error` and the `exit` handler as written: both remove the worker,
      count it, and launch the next one. */
  function Signal(s: CycleState, w: nat): CycleState
  {
    Launch(s.(active := s.active - {w}, processed := s.processed + 1))
  }

  /** The handler counting each worker once: a signal from a worker that is
      no longer active (the `exit` that follows an `error`) changes nothing. */
  function SignalOnce(s: CycleState, w: nat): CycleState
  {
    if w in s.active then Signal(s, w) else s
  }

  /** `k` calls of `launchNextWorker` in a row. */
  function LaunchTimes(s: CycleState, k: nat): CycleState
  {
    if k == 0 then s else Launch(LaunchTimes(s, k - 1))
  }

  /** The two checks after the launch loop. */
  function Finish(s: CycleState): CycleState
  {
    var s1 := if s.taskPointer >= s.n && |s.active| == 0 then s.(resolved := true) else s;
    if s.n == 0 then s1.(resolved := true) else s1
  }

  /** The state once the promise body has run: `maxThreads` launches (none
      when it is not positive), then the two checks. */
  function StartState(n: nat, maxThreads: int): CycleState
  {
    Finish(LaunchTimes(Init(n, maxThreads), if maxThreads > 0 then maxThreads else 0))
  }

  /** What should hold throughout a cycle: the active workers are launched
      ones, every launched worker is either active or counted, and a
      resolved cycle has launched and counted every account. */
  predicate Sound(s: CycleState)
  {
    && s.taskPointer <= s.n
    && (forall w :: w in s.active ==> w < s.taskPointer)
    && s.processed + |s.active| == s.taskPointer
    && (s.resolved ==> s.taskPointer == s.n && s.processed == s.n && s.active == {})
  }

  /** A cycle that is not resolved still has a worker whose event will come. */
  predicate Live(s: CycleState)
  {
    s.resolved || s.active != {}
  }

  lemma LaunchKeepsSound(s: CycleState)
    requires Sound(s)
    ensures Sound(Launch(s))
    ensures Launch(s).n == s.n && Launch(s).maxThreads == s.maxThreads && Launch(s).processed == s.processed
  {
    if !CanResolve(s) && s.taskPointer < s.n && |s.active| < s.maxThreads {
      assert s.taskPointer !in s.active;
    }
  }

  /** The corrected handler keeps the cycle sound and, with at least one
      thread, live; each real completion counts exactly one worker. */
  lemma SignalOnceKeepsSound(s: CycleState, w: nat)
    requires Sound(s)
    ensures Sound(SignalOnce(s, w))
    ensures s.maxThreads >= 1 && Live(s) ==> Live(SignalOnce(s, w))
    ensures w in s.active ==> SignalOnce(s, w).processed == s.processed + 1
    ensures w !in s.active ==> SignalOnce(s, w) == s
  {
    if w in s.active {
      var r := s.(active := s.active - {w}, processed := s.processed + 1);
      assert s.active == r.active + {w};
      LaunchKeepsSound(r);
    }
  }

  lemma {:induction false} LaunchTimesKeepsSound(s: CycleState, k: nat)
    requires Sound(s)
    ensures Sound(LaunchTimes(s, k))
    ensures LaunchTimes(s, k).n == s.n && LaunchTimes(s, k).maxThreads == s.maxThreads
  {
    if k > 0 {
      LaunchTimesKeepsSound(s, k - 1);
      LaunchKeepsSound(LaunchTimes(s, k - 1));
    }
  }

  /** The start of a cycle is sound. */
  lemma StartIsSound(n: nat, maxThreads: int)
    ensures Sound(StartState(n, maxThreads))
  {
    var k := if maxThreads > 0 then maxThreads else 0;
    LaunchTimesKeepsSound(Init(n, maxThreads), k);
  }

  /** After `k` launches from the start of a cycle: the accounts
      `0 .. min(n, k, maxThreads)` run, none is counted, and only an empty
      queue is resolved. */
  ghost predicate Admitted(s: CycleState, n: nat, maxThreads: int, k: nat)
  {
    && s.n == n && s.maxThreads == maxThreads
    && s.taskPointer == Min(n, Min(k, if maxThreads > 0 then maxThreads else 0))
    && (forall w: nat :: w in s.active <==> w < s.taskPointer)
    && |s.active| == s.taskPointer
    && s.processed == 0
    && (s.resolved <==> n == 0 && k >= 1)
  }

  lemma AdmitStep(s: CycleState, n: nat, maxThreads: int, k: nat)
    requires Admitted(s, n, maxThreads, k)
    ensures Admitted(Launch(s), n, maxThreads, k + 1)
  {
    if !CanResolve(s) && s.taskPointer < s.n && |s.active| < s.maxThreads {
      var t := Launch(s);
      assert s.taskPointer !in s.active;
      assert t.active == s.active + {s.taskPointer};
    }
  }

  /** The first `k` launches of a cycle start the accounts in queue order,
      up to the thread limit. */
  lemma {:induction false} LaunchTimesAdmits(n: nat, maxThreads: int, k: nat)
    ensures Admitted(LaunchTimes(Init(n, maxThreads), k), n, maxThreads, k)
  {
    if k > 0 {
      LaunchTimesAdmits(n, maxThreads, k - 1);
      AdmitStep(LaunchTimes(Init(n, maxThreads), k - 1), n, maxThreads, k - 1);
      assert LaunchTimes(Init(n, maxThreads), k) == Launch(LaunchTimes(Init(n, maxThreads), k - 1));
    } else {
      assert LaunchTimes(Init(n, maxThreads), k) == Init(n, maxThreads);
    }
  }

  function Min(a: int, b: int): int
  {
    if a < b then a else b
  }

  /** Starting a cycle launches the first `min(n, maxThreads)` accounts and
      resolves only an empty queue. */
  lemma StartAdmits(n: nat, maxThreads: int)
    ensures var s := StartState(n, maxThreads);
            && s.taskPointer == Min(n, if maxThreads > 0 then maxThreads else 0)
            && (forall w: nat :: w in s.active <==> w < s.taskPointer)
            && s.processed == 0
            && (s.resolved <==> n == 0)
  {
    var k := if maxThreads > 0 then maxThreads else 0;
    LaunchTimesAdmits(n, maxThreads, k);
  }

  /** A cycle with at least one thread starts live. */
  lemma StartIsLive(n: nat, maxThreads: int)
    requires maxThreads >= 1
    ensures Live(StartState(n, maxThreads))
  {
    StartAdmits(n, maxThreads);
    var s := StartState(n, maxThreads);
    if n > 0 {
      assert 0 in s.active;
    }
  }

  /** With no positive thread limit and a non-empty queue nothing is ever
      launched and the cycle never resolves: no worker exists to send the
      event that would move it. */
  lemma NoThreadsNoProgress(n: nat, maxThreads: int)
    requires maxThreads <= 0 && n > 0
    ensures StartState(n, maxThreads) == Init(n, maxThreads)
    ensures !Live(StartState(n, maxThreads))
  {
  }

  /** The thread limit as a bound on the pool: `size < maxThreads` never
      admits anything when the limit is not positive. */
  function Cap(s: CycleState): nat
  {
    if s.maxThreads > 0 then s.maxThreads else 0
  }

  /** A launch keeps the pool within the thread limit, drops no worker, and
      adds at most the account at `taskPointer`, moving the pointer past it;
      a resolved cycle stays resolved. */
  lemma LaunchAdmission(s: CycleState)
    ensures |s.active| <= Cap(s) ==> |Launch(s).active| <= Cap(s)
    ensures s.active <= Launch(s).active && Launch(s).active - s.active <= {s.taskPointer}
    ensures Launch(s).taskPointer == s.taskPointer || Launch(s).taskPointer == s.taskPointer + 1
    ensures Launch(s).taskPointer == s.taskPointer + 1 ==>
              s.taskPointer < s.n && s.taskPointer in Launch(s).active && |s.active| < s.maxThreads
    ensures s.resolved ==> Launch(s).resolved
    ensures !s.resolved && Launch(s).resolved ==> Launch(s).active == {} && Launch(s).taskPointer == s.taskPointer
  {
    if !CanResolve(s) && s.taskPointer < s.n && |s.active| < s.maxThreads {
      var t := Launch(s);
      if s.taskPointer in s.active {
        assert t.active == s.active;
      } else {
        assert |t.active| == |s.active| + 1;
      }
    }
  }

  /** An `error` or `exit` of a launched worker, as written, removes it for
      good and keeps the pool within the thread limit. */
  lemma SignalAdmission(s: CycleState, w: nat)
    requires w < s.taskPointer
    ensures |s.active| <= Cap(s) ==> |Signal(s, w).active| <= Cap(s)
    ensures w !in Signal(s, w).active
    ensures Signal(s, w).processed == s.processed + 1
    ensures s.taskPointer <= Signal(s, w).taskPointer <= s.taskPointer + 1
  {
    var r := s.(active := s.active - {w}, processed := s.processed + 1);
    assert |r.active| <= |s.active| by {
      if w in s.active {
        assert s.active == r.active + {w};
      } else {
        assert r.active == s.active;
      }
    }
    LaunchAdmission(r);
  }

  /** The invariant the handlers as written keep: signals can only count a
      worker too often, never too rarely. */
  predicate OverCounted(s: CycleState)
  {
    && s.taskPointer <= s.n
    && (forall w :: w in s.active ==> w < s.taskPointer)
    && s.processed + |s.active| >= s.taskPointer
  }

  lemma SignalKeepsOverCounted(s: CycleState, w: nat)
    requires OverCounted(s)
    ensures OverCounted(Signal(s, w))
  {
    var r := s.(active := s.active - {w}, processed := s.processed + 1);
    if w in s.active {
      assert s.active == r.active + {w};
    } else {
      assert r.active == s.active;
    }
    assert OverCounted(r);
    if !CanResolve(r) && r.taskPointer < r.n && |r.active| < r.maxThreads {
      assert r.taskPointer !in r.active;
    }
  }

  /** A worker that sends `error` and then `exit` is counted twice, and the
      cycle resolves with an account never launched: three accounts, one
      thread, the first worker errors (both events), the second errors once. */
  lemma DoubleCountSkipsAccount()
    ensures var s := Signal(Signal(Signal(StartState(3, 1), 0), 0), 1);
            s.resolved && s.taskPointer == 2 && s.n == 3
  {
    var s0 := StartState(3, 1);
    assert LaunchTimes(Init(3, 1), 1) == CycleState(3, 1, 1, {0}, 0, false);
    assert s0 == CycleState(3, 1, 1, {0}, 0, false);
    var s1 := Signal(s0, 0);
    assert {0} - {0} == {};
    assert s1 == CycleState(3, 1, 2, {1}, 1, false);
    var s2 := Signal(s1, 0);
    assert {1} - {0} == {1};
    assert s2 == CycleState(3, 1, 2, {1}, 2, false);
    var s3 := Signal(s2, 1);
    assert {1} - {1} == {};
    assert s3 == CycleState(3, 1, 2, {}, 3, true);
  }

  /** `(config.timeSleepMinutesAtCycleEnd || 60) * 60` */
  function CycleSleepSeconds(minutes: int): int
  {
    (if minutes != 0 then minutes else 60) * 60
  }

  /** The configuration never yields 0 minutes, so the fallback is never
      taken: the sleep is the configured minutes in seconds, one hour by
      default. */
  lemma CycleSleepFromEnv(env: Env)
    ensures CycleSleepSeconds(Load(env).timeSleepMinutesAtCycleEnd) == Load(env).timeSleepMinutesAtCycleEnd * 60
    ensures "SAYECHO_CYCLE_SLEEP_MINUTES" !in env ==> CycleSleepSeconds(Load(env).timeSleepMinutesAtCycleEnd) == 3600
  {
    MaxThreadsFollowsUseProxy(env);
  }

  /** The state of one cycle, shared by the launch function and the
      workers' event handlers. */
  class Cycle {
    const n: nat
    const maxThreads: int
    var taskPointer: nat
    var active: set<nat>
    var processed: nat
    var resolveCalled: bool

    function State(): CycleState
      reads this
    {
      CycleState(n, maxThreads, taskPointer, active, processed, resolveCalled)
    }

    constructor (n: nat, maxThreads: int)
      ensures State() == Init(n, maxThreads)
    {
      this.n := n;
      this.maxThreads := maxThreads;
      taskPointer := 0;
      active := {};
      processed := 0;
      resolveCalled := false;
    }

    method LaunchNextWorker()
      modifies this
      ensures State() == Launch(old(State()))
    {
      if (taskPointer >= n && |active| == 0) || (processed >= n && |active| == 0) {
        if !resolveCalled {
          resolveCalled := true;
        }
        return;
      }
      if taskPointer < n && |active| < maxThreads {
        active := active + {taskPointer};
        taskPointer := taskPointer + 1;
      }
    }

    /** The `error` and `exit` handlers of the worker for account `w`, as
        written. */
    method OnWorkerSignal(w: nat)
      requires w < taskPointer
      modifies this
      ensures State() == Signal(old(State()), w)
    {
      active := active - {w};
      processed := processed + 1;
      LaunchNextWorker();
    }

    /** The handlers counting each worker once. */
    method OnWorkerFinished(w: nat)
      modifies this
      ensures State() == SignalOnce(old(State()), w)
    {
      if w in active {
        active := active - {w};
        processed := processed + 1;
        LaunchNextWorker();
      }
    }

    /** The body of the cycle's promise: the launch loop and the two checks. */
    method Start()
      requires State() == Init(n, maxThreads)
      modifies this
      ensures State() == StartState(n, maxThreads)
    {
      var i := 0;
      while i < maxThreads
        invariant 0 <= i && (maxThreads > 0 ==> i <= maxThreads) && (maxThreads <= 0 ==> i == 0)
        invariant State() == LaunchTimes(Init(n, maxThreads), i)
        decreases maxThreads - i
      {
        LaunchNextWorker();
        i := i + 1;
      }
      assert State() == LaunchTimes(Init(n, maxThreads), if maxThreads > 0 then maxThreads else 0);
      if taskPointer >= n && |active| == 0 && !resolveCalled {
        resolveCalled := true;
      }
      if n == 0 && !resolveCalled {
        resolveCalled := true;
      }
    }
  }

  /** One cycle over `n` accounts, its workers finishing in any order, with
      each worker counted once: it ends resolved, every account launched and
      counted, and no worker left running. */
  method RunCycle(n: nat, maxThreads: int) returns (resolved: bool, launched: nat, processed: nat, running: set<nat>)
    requires maxThreads >= 1 || n == 0
    ensures resolved
    ensures launched == n && processed == n && running == {}
  {
    var cycle := new Cycle(n, maxThreads);
    cycle.Start();
    StartIsSound(n, maxThreads);
    if maxThreads >= 1 {
      StartIsLive(n, maxThreads);
    }
    while !cycle.resolveCalled
      invariant Sound(cycle.State()) && cycle.n == n && cycle.maxThreads == maxThreads
      invariant Live(cycle.State())
      decreases n - cycle.processed
    {
      var w :| w in cycle.active;
      SignalOnceKeepsSound(cycle.State(), w);
      cycle.OnWorkerFinished(w);
    }
    return cycle.resolveCalled, cycle.taskPointer, cycle.processed, cycle.active;
  }
}
