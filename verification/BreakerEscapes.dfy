/** Which half-open circuits with no call in flight can still let a request through. */
module BreakerEscapes {
  import opened Common
  import opened Breaker
  import opened BreakerWorkers
  import opened BreakerScenarios

  predicate Resting(w: World) {
    forall t :: t in w.tasks ==> t.wait.Finished?
  }

  /** Some call begun since has let its request through. */
  predicate LetsThrough(w: World, w': World) {
    exists i :: |w.tasks| <= i < |w'.tasks| && w'.tasks[i].wait == Finished(true)
  }

  lemma {:induction false} AboveAll(ps: set<Process>) returns (p: Process)
    ensures forall q :: q in ps ==> q < p
  {
    p := 0;
    if ps != {} {
      var some :| some in ps;
      var r := AboveAll(ps - {some});
      p := if some < r then r else some + 1;
      forall q | q in ps
        ensures q < p
      {
        assert q == some || q in ps - {some};
      }
    }
  }

  /** A process that has done nothing yet. */
  lemma NewProcess(w: World) returns (p: Process)
    ensures p !in w.memory
  {
    p := AboveAll(w.memory.Keys);
    assert forall q :: q in w.memory ==> q in w.memory.Keys;
  }

  /** The lock is held: whoever reads half-open is let through. */
  lemma HeldLockLetsThrough(st: Settings, w: World) returns (acts: seq<Action>)
    requires w.redis.mode == HalfOpen && LockHeld(w.redis, w.now)
    ensures Fair(st, w, acts) && LetsThrough(w, RunFrom(st, w, acts))
  {
    var p := NewProcess(w);
    var i := |w.tasks|;
    acts := ReadAndProceed(st, w, p, Allowing);
    var w1 := RunFrom(st, w, acts);
    assert w1.tasks[i].wait == Sent(ReadLock, w.now);
    Then(st, w, acts, Execute(i, true));
    acts := acts + [Execute(i, true)];
    assert RunFrom(st, w, acts).tasks[i].wait.reply == Taken(true);
    Then(st, w, acts, Resume(i));
    acts := acts + [Resume(i)];
    assert RunFrom(st, w, acts).tasks[i].wait == Finished(true);
  }

  /** A cache still says closed. */
  lemma ClosedCacheLetsThrough(st: Settings, w: World, p: Process) returns (acts: seq<Action>)
    requires CacheFresh(MemoryOf(w, p), w.now) && MemoryOf(w, p).l1.value.cached.view.mode == Closed
    ensures Fair(st, w, acts) && LetsThrough(w, RunFrom(st, w, acts))
  {
    Then(st, w, [], Begin(p, Allowing));
    acts := [] + [Begin(p, Allowing)];
    assert RunFrom(st, w, acts).tasks[|w.tasks|].wait == Finished(true);
  }

  /** A cache says open, and its recovery falls due before it runs out. */
  lemma OpenCacheLetsThrough(st: Settings, w: World, p: Process) returns (acts: seq<Action>)
    requires CacheFresh(MemoryOf(w, p), w.now) && !LockHeld(w.redis, w.now) && st.recoveryTimeout >= 1
    requires var c := MemoryOf(w, p).l1.value.cached;
             c.view.mode == Open && Truthy(c.view.recoveryAt) && c.view.recoveryAt.value < c.at + L1_TTL
    ensures Fair(st, w, acts) && LetsThrough(w, RunFrom(st, w, acts))
  {
    var due := MemoryOf(w, p).l1.value.cached.view.recoveryAt.value;
    var tick := Tick(if due > w.now then due - w.now else 0.0);
    Then(st, w, [], tick);
    acts := [] + [tick];
    Then(st, w, acts, Begin(p, Allowing));
    acts := acts + [Begin(p, Allowing)];
    var w2 := RunFrom(st, w, acts);
    var i := |w.tasks|;
    assert w2.tasks[i].wait == Sent(TakeLock, w2.now);
    var more := TakeAndSet(st, w2, i);
    RunConcat(st, w, acts, more);
    acts := acts + more;
    assert RunFrom(st, w, acts).tasks[i].wait == Finished(true);
  }

  /** A request under way can still fail often enough to open the circuit again. */
  lemma {:induction false} FailUntilReopened(st: Settings, w: World, p: Process) returns (acts: seq<Action>)
    requires w.redis.mode == HalfOpen && MemoryOf(w, p).outstanding > 0
    ensures Fair(st, w, acts)
    ensures var w' := RunFrom(st, w, acts);
            && w'.now == w.now && |w.tasks| <= |w'.tasks| && w'.memory.Keys == w.memory.Keys + {p}
            && w'.redis.mode == Open && w'.redis.openedAt == Some(w.now) && w'.redis.lockUntil == None
    decreases st.failureThreshold - w.redis.failures
  {
    acts := CountFailureOf(st, w, p);
    var w1 := RunFrom(st, w, acts);
    var more;
    if w1.redis.failures >= st.failureThreshold {
      more := OpenUp(st, w1, |w.tasks|);
    } else {
      more := FailUntilReopened(st, w1, p);
    }
    RunConcat(st, w, acts, more);
    acts := acts + more;
  }

  /** An open circuit whose lock is free, from its recovery on. */
  lemma ReopenedLetsThrough(st: Settings, w: World) returns (acts: seq<Action>)
    requires w.redis.mode == Open && w.redis.openedAt == Some(w.now) && w.redis.lockUntil == None
    requires w.now > 0.0 && st.recoveryTimeout >= 1
    ensures Fair(st, w, acts) && LetsThrough(w, RunFrom(st, w, acts))
  {
    var tick := Tick(st.recoveryTimeout as real);
    Then(st, w, [], tick);
    acts := [] + [tick];
    var w1 := RunFrom(st, w, acts);
    var p := NewProcess(w1);
    var i := |w.tasks|;
    var a2 := ReadAndProceed(st, w1, p, Allowing);
    var w2 := RunFrom(st, w1, a2);
    RunConcat(st, w, acts, a2);
    assert w2.tasks[i].wait == Sent(TakeLock, w1.now);
    var a3 := TakeAndSet(st, w2, i);
    RunConcat(st, w, acts + a2, a3);
    acts := acts + a2 + a3;
    assert RunFrom(st, w, acts).tasks[i].wait == Finished(true);
  }

  lemma UnderWayLetsThrough(st: Settings, w: World, p: Process) returns (acts: seq<Action>)
    requires w.redis.mode == HalfOpen && MemoryOf(w, p).outstanding > 0 && w.now >= 0.0 && st.recoveryTimeout >= 1
    ensures Fair(st, w, acts) && LetsThrough(w, RunFrom(st, w, acts))
  {
    Then(st, w, [], Tick(1.0));
    acts := [] + [Tick(1.0)];
    var w1 := RunFrom(st, w, acts);
    var a2 := FailUntilReopened(st, w1, p);
    var w2 := RunFrom(st, w1, a2);
    RunConcat(st, w, acts, a2);
    var a3 := ReopenedLetsThrough(st, w2);
    RunConcat(st, w, acts + a2, a3);
    acts := acts + a2 + a3;
    var i :| |w2.tasks| <= i < |RunFrom(st, w2, a3).tasks| && RunFrom(st, w2, a3).tasks[i].wait == Finished(true);
  }

  lemma NotStuckLetsThrough(st: Settings, w: World) returns (acts: seq<Action>)
    requires w.redis.mode == HalfOpen && Resting(w) && w.now >= 0.0 && st.recoveryTimeout >= 1 && !Stuck(w)
    ensures Fair(st, w, acts) && LetsThrough(w, RunFrom(st, w, acts))
  {
    if LockHeld(w.redis, w.now) {
      acts := HeldLockLetsThrough(st, w);
    } else if p :| p in w.memory && w.memory[p].outstanding > 0 {
      acts := UnderWayLetsThrough(st, w, p);
    } else {
      HarmlessAtRest(w);
      var p :| p in w.memory && w.memory[p].l1.Some? && !Useless(w.memory[p].l1.value.cached, w.now);
      if w.memory[p].l1.value.cached.view.mode == Closed {
        acts := ClosedCacheLetsThrough(st, w, p);
      } else {
        acts := OpenCacheLetsThrough(st, w, p);
      }
    }
  }

  lemma HarmlessAtRest(w: World)
    requires Resting(w)
    ensures forall t :: t in w.tasks ==> Harmless(t)
  {
  }

  lemma StuckLetsNobodyThrough(st: Settings, w: World, acts: seq<Action>)
    requires Stuck(w) && Fair(st, w, acts)
    ensures !LetsThrough(w, RunFrom(st, w, acts))
  {
    StuckForEver(st, w, acts);
  }

  ghost predicate CanLetThrough(st: Settings, w: World) {
    exists acts :: Fair(st, w, acts) && LetsThrough(w, RunFrom(st, w, acts))
  }

  /** A half-open circuit with no call in flight can let another request through, without a fault, exactly
      if it is not stuck: if the lock is held, a request is under way, or some cache says closed, or
      open with a recovery due before the cache runs out. */
  lemma EscapesIffNotStuck(st: Settings, w: World)
    requires w.redis.mode == HalfOpen && Resting(w) && w.now >= 0.0 && st.recoveryTimeout >= 1
    ensures CanLetThrough(st, w) <==> !Stuck(w)
  {
    if Stuck(w) {
      forall acts | Fair(st, w, acts)
        ensures !LetsThrough(w, RunFrom(st, w, acts))
      {
        StuckLetsNobodyThrough(st, w, acts);
      }
    } else {
      var acts := NotStuckLetsThrough(st, w);
    }
  }
}
