/** What becomes of the breaker in particular circumstances: the state it never leaves, the
    late write that strips half-open of its timestamp, and a worker that nobody interrupts. */
module BreakerScenarios {
  import opened Common
  import opened Breaker
  import opened BreakerWorkers

  /** No fault, and an outcome only where a request let through is under way. */
  predicate FairStep(w: World, a: Action) {
    match a
    case Begin(p, purpose) => purpose in {Succeeding, Failing} ==> MemoryOf(w, p).outstanding > 0
    case Execute(_, heard) => heard
    case Drop(_) => false
    case _ => true
  }

  predicate Fair(st: Settings, w: World, acts: seq<Action>) {
    acts != [] ==>
      Fair(st, w, acts[..|acts| - 1]) && FairStep(RunFrom(st, w, acts[..|acts| - 1]), acts[|acts| - 1])
  }

  lemma Then(st: Settings, w: World, acts: seq<Action>, a: Action)
    ensures RunFrom(st, w, acts + [a]) == Next(st, RunFrom(st, w, acts), a)
    ensures Fair(st, w, acts + [a]) <==> Fair(st, w, acts) && FairStep(RunFrom(st, w, acts), a)
  {
    assert (acts + [a])[..|acts|] == acts;
  }

  lemma {:induction false} RunConcat(st: Settings, w: World, a: seq<Action>, b: seq<Action>)
    ensures RunFrom(st, w, a + b) == RunFrom(st, RunFrom(st, w, a), b)
    ensures Fair(st, w, a + b) <==> Fair(st, w, a) && Fair(st, RunFrom(st, w, a), b)
  {
    if b == [] {
      assert a + b == a;
    } else {
      var n := |b| - 1;
      assert a + b == (a + b[..n]) + [b[n]];
      Then(st, w, a + b[..n], b[n]);
      RunConcat(st, w, a, b[..n]);
    }
  }

  // ---------- Half-open for ever ----------

  /** A call that can still do nothing but find the circuit half-open and the lock gone. */
  predicate Harmless(t: Task) {
    || t.wait == Finished(false) || t.wait == Finished(true)
    || ((t.purpose == Looking || t.purpose == Allowing)
        && match t.wait
           case Sent(cmd, _) => cmd == ReadKeys || cmd == ReadLock
           case Answered(ReadKeys, _, Keys(r), _) => r.mode == HalfOpen
           case Answered(ReadLock, _, Taken(held), _) => !held
           case _ => false)
  }

  /** A cached view that lets nobody through while it lasts: half-open, past its time, or open with a
      recovery not due within it. */
  predicate Useless(c: Cached, now: real) {
    || c.view.mode == HalfOpen
    || now - c.at >= L1_TTL
    || (c.view.mode == Open && (Truthy(c.view.recoveryAt) ==> c.view.recoveryAt.value >= c.at + L1_TTL))
  }

  /** Half-open, the lock gone, nobody's outcome still to come, and no cache of any use. */
  ghost predicate Stuck(w: World) {
    && w.redis.mode == HalfOpen
    && !LockHeld(w.redis, w.now)
    && (forall p :: p in w.memory ==>
          && w.memory[p].outstanding == 0
          && (w.memory[p].l1.Some? ==> Useless(w.memory[p].l1.value.cached, w.now)))
    && (forall t :: t in w.tasks ==> Harmless(t))
  }

  lemma StuckStaysStuck(st: Settings, w: World, a: Action)
    requires Stuck(w) && FairStep(w, a)
    ensures var w' := Next(st, w, a);
            Stuck(w') && |w.tasks| <= |w'.tasks|
            && forall i :: 0 <= i < |w'.tasks| && w'.tasks[i].wait == Finished(true) ==>
                 i < |w.tasks| && w.tasks[i].wait == Finished(true)
  {
    var w' := Next(st, w, a);
    if Enabled(w, a) {
      if a.Execute? || a.Resume? {
        assert w.tasks[a.task] in w.tasks;
      }
      forall t | t in w'.tasks
        ensures Harmless(t)
      {
        var i: nat :| i < |w'.tasks| && w'.tasks[i] == t;
        if i < |w.tasks| {
          assert w.tasks[i] in w.tasks;
        }
      }
    }
  }

  /** From there no sequence of steps, short of a Redis fault, lets another request through. */
  lemma {:induction false} StuckForEver(st: Settings, w: World, acts: seq<Action>)
    requires Stuck(w) && Fair(st, w, acts)
    ensures var w' := RunFrom(st, w, acts);
            && Stuck(w') && |w.tasks| <= |w'.tasks|
            && forall i :: |w.tasks| <= i < |w'.tasks| ==> w'.tasks[i].wait != Finished(true)
  {
    if acts != [] {
      StuckForEver(st, w, acts[..|acts| - 1]);
      StuckStaysStuck(st, RunFrom(st, w, acts[..|acts| - 1]), acts[|acts| - 1]);
    }
  }

  /** An open circuit at rest whose recovery is due. */
  ghost predicate RestingOpen(st: Settings, w: World) {
    && w.redis.mode == Open
    && RecoveryDue(ViewOf(st, w.redis), w.now)
    && LockFree(st, w.redis, w.now)
    && AtRest(w)
  }

  /** The four steps of a worker about to take the lock. */
  lemma TakeAndSet(st: Settings, w: World, i: nat) returns (acts: seq<Action>)
    requires i < |w.tasks| && w.tasks[i].wait.Sent? && w.tasks[i].wait.cmd == TakeLock
    requires LockFree(st, w.redis, w.now)
    ensures Fair(st, w, acts) && forall a :: a in acts ==> !a.Begin?
    ensures var w' := RunFrom(st, w, acts);
            var locked := w.redis.(lockUntil := Some(w.now + st.recoveryTimeout as real));
            var p := w.tasks[i].process;
            && w'.now == w.now
            && w'.redis == locked.(mode := HalfOpen)
            && w'.memory == w.memory[p := Memory(None, 0, MemoryOf(w, p).outstanding + 1)]
            && w'.tasks == w.tasks[i := w.tasks[i].(wait := Finished(true))]
            && w'.log == w.log + [Moment(w.now, TakeLock, true, w.redis, locked),
                                  Moment(w.now, SetHalfOpen, false, locked, locked.(mode := HalfOpen))]
  {
    acts := [];
    var w1 := Next(st, w, Execute(i, true));
    var w2 := Next(st, w1, Resume(i));
    var w3 := Next(st, w2, Execute(i, true));
    var w4 := Next(st, w3, Resume(i));
    Then(st, w, acts, Execute(i, true));
    acts := acts + [Execute(i, true)];
    Then(st, w, acts, Resume(i));
    acts := acts + [Resume(i)];
    assert w2.tasks[i].wait == Sent(SetHalfOpen, w.now);
    Then(st, w, acts, Execute(i, true));
    acts := acts + [Execute(i, true)];
    Then(st, w, acts, Resume(i));
    acts := acts + [Resume(i)];
    assert RunFrom(st, w, acts) == w4;
  }

  /** The three steps of a call that reads the keys and acts on them. */
  lemma ReadAndProceed(st: Settings, w: World, p: Process, purpose: Purpose) returns (acts: seq<Action>)
    requires purpose != Failing && (purpose == Succeeding ==> MemoryOf(w, p).outstanding > 0)
    requires !CacheFresh(MemoryOf(w, p), w.now)
    ensures Fair(st, w, acts) && forall a :: a in acts ==> (a.Begin? ==> a.purpose == purpose)
    ensures var w' := RunFrom(st, w, acts);
            var cached := MemoryOf(w, p).(l1 := Some(Entry(Cached(ViewOf(st, w.redis), w.now), w.now, |w.log|)));
            var (m', wait) := Proceed(st, cached, purpose, ViewOf(st, w.redis), w.now);
            && w'.now == w.now && w'.redis == w.redis
            && w'.memory == w.memory[p := if wait.Finished? && wait.passed then m'.(outstanding := m'.outstanding + 1) else m']
            && w'.tasks == w.tasks + [Task(p, purpose, wait)]
            && |w'.log| == |w.log| + 1 && w'.log[..|w.log|] == w.log
  {
    var i := |w.tasks|;
    acts := [];
    var w1 := Next(st, w, Begin(p, purpose));
    var w2 := Next(st, w1, Execute(i, true));
    var w3 := Next(st, w2, Resume(i));
    Then(st, w, acts, Begin(p, purpose));
    acts := acts + [Begin(p, purpose)];
    assert w1.tasks[i].wait == Sent(ReadKeys, w.now);
    Then(st, w, acts, Execute(i, true));
    acts := acts + [Execute(i, true)];
    assert w2.tasks[i].wait == Answered(ReadKeys, w.now, Keys(w.redis), |w.log|);
    Then(st, w, acts, Resume(i));
    acts := acts + [Resume(i)];
    assert RunFrom(st, w, acts) == w3;
  }

  /** A look reads the circuit, and its answer is held up. */
  lemma LookIsHeldUp(st: Settings, w: World) returns (acts: seq<Action>)
    requires !CacheFresh(MemoryOf(w, 0), w.now)
    ensures Fair(st, w, acts) && forall a :: a in acts ==> (a.Begin? ==> a.purpose == Looking)
    ensures var w' := RunFrom(st, w, acts);
            && w'.now == w.now && w'.redis == w.redis && w'.memory == w.memory[0 := MemoryOf(w, 0)]
            && w'.tasks == w.tasks + [Task(0, Looking, Answered(ReadKeys, w.now, Keys(w.redis), |w.log|))]
  {
    var look := |w.tasks|;
    acts := [];
    Then(st, w, acts, Begin(0, Looking));
    acts := acts + [Begin(0, Looking)];
    var w1 := RunFrom(st, w, acts);
    assert w1.tasks == w.tasks + [Task(0, Looking, Sent(ReadKeys, w.now))] && w1.log == w.log;
    assert w1.memory == w.memory[0 := MemoryOf(w, 0)];
    Then(st, w, acts, Execute(look, true));
    acts := acts + [Execute(look, true)];
  }

  lemma ProbeIsWon(st: Settings, w: World) returns (acts: seq<Action>)
    requires w.redis.mode == Open && RecoveryDue(ViewOf(st, w.redis), w.now) && LockFree(st, w.redis, w.now)
    requires MemoryOf(w, 0) == Memory(None, MemoryOf(w, 0).successes, 0)
    ensures Fair(st, w, acts) && forall a :: a in acts ==> (a.Begin? ==> a.purpose == Allowing)
    ensures var w' := RunFrom(st, w, acts);
            && w'.now == w.now
            && w'.redis == w.redis.(mode := HalfOpen, lockUntil := Some(w.now + st.recoveryTimeout as real))
            && w'.memory == w.memory[0 := Memory(None, 0, 1)]
            && w'.tasks == w.tasks + [Task(0, Allowing, Finished(true))]
  {
    var a1 := ReadAndProceed(st, w, 0, Allowing);
    var w1 := RunFrom(st, w, a1);
    var a2 := TakeAndSet(st, w1, |w.tasks|);
    RunConcat(st, w, a1, a2);
    acts := a1 + a2;
  }

  /** Two calls, one held up: a look reads the open circuit and is not yet answered when another
      call of the same process wins the probe. */
  lemma ProbeOvertakesLook(st: Settings, w: World) returns (acts: seq<Action>)
    requires RestingOpen(st, w)
    ensures Fair(st, w, acts) && forall a :: a in acts ==> (a.Begin? ==> a.purpose != Failing)
    ensures var w' := RunFrom(st, w, acts);
            && w'.now == w.now
            && w'.redis == w.redis.(mode := HalfOpen, lockUntil := Some(w.now + st.recoveryTimeout as real))
            && w'.memory == w.memory[0 := Memory(None, 0, 1)]
            && w'.tasks == w.tasks + [Task(0, Looking, Answered(ReadKeys, w.now, Keys(w.redis), |w.log|))]
                           + [Task(0, Allowing, Finished(true))]
  {
    var a1 := LookIsHeldUp(st, w);
    var w1 := RunFrom(st, w, a1);
    var a2 := ProbeIsWon(st, w1);
    RunConcat(st, w, a1, a2);
    acts := a1 + a2;
  }

  /** The look's answer comes, and leaves "open" in the cache just cleared; the probe's success then
      reads that, and is not counted. */
  lemma SuccessReadsOpen(st: Settings, w: World, look: nat, seen: Redis, from: nat) returns (acts: seq<Action>)
    requires look < |w.tasks| && seen.mode == Open && MemoryOf(w, 0) == Memory(None, 0, 1)
    requires w.tasks[look] == Task(0, Looking, Answered(ReadKeys, w.now, Keys(seen), from))
    ensures Fair(st, w, acts) && forall a :: a in acts ==> (a.Begin? ==> a.purpose == Succeeding)
    ensures var w' := RunFrom(st, w, acts);
            && w'.now == w.now && w'.redis == w.redis
            && w'.memory == w.memory[0 := Memory(Some(Entry(Cached(ViewOf(st, seen), w.now), w.now, from)), 0, 0)]
            && w'.tasks == w.tasks[look := Task(0, Looking, Finished(false))] + [Task(0, Succeeding, Finished(false))]
  {
    acts := [];
    Then(st, w, acts, Resume(look));
    acts := acts + [Resume(look)];
    assert MemoryOf(RunFrom(st, w, acts), 0).l1 == Some(Entry(Cached(ViewOf(st, seen), w.now), w.now, from));
    Then(st, w, acts, Begin(0, Succeeding));
    acts := acts + [Begin(0, Succeeding)];
    Then(st, w, acts, Leave(0));
    acts := acts + [Leave(0)];
  }

  /** Lock and cache both run out. */
  lemma WaitItOut(st: Settings, w: World) returns (acts: seq<Action>)
    requires w.redis.mode == HalfOpen && w.redis.lockUntil == Some(w.now + st.recoveryTimeout as real)
    requires MemoryOf(w, 0).l1.Some? && MemoryOf(w, 0).l1.value.cached.at == w.now && st.recoveryTimeout >= 1
    requires forall p :: p in w.memory ==> w.memory[p].outstanding == 0 && (p != 0 ==> w.memory[p].l1.None?)
    requires forall t :: t in w.tasks ==> t.wait.Finished?
    ensures Fair(st, w, acts) && forall a :: a in acts ==> !a.Begin?
    ensures Stuck(RunFrom(st, w, acts))
  {
    var tick := Tick(st.recoveryTimeout as real + L1_TTL);
    Then(st, w, [], tick);
    acts := [] + [tick];
  }

  /** A healthy backend leads there, whatever the thresholds: one process, one probe that succeeds,
      and a look that was asked before the probe was won and answered after. */
  lemma HealthyProbeGetsStuck(st: Settings, w: World) returns (acts: seq<Action>)
    requires RestingOpen(st, w)
    ensures Stuck(RunFrom(st, w, acts))
    ensures Fair(st, w, acts) && forall a :: a in acts ==> (a.Begin? ==> a.purpose != Failing)
  {
    var a1 := ProbeOvertakesLook(st, w);
    var w1 := RunFrom(st, w, a1);
    var a2 := SuccessReadsOpen(st, w1, |w.tasks|, w.redis, |w.log|);
    var w2 := RunFrom(st, w1, a2);
    RunConcat(st, w, a1, a2);
    var a3 := WaitItOut(st, w2);
    RunConcat(st, w, a1 + a2, a3);
    acts := a1 + a2 + a3;
  }

  /** A closed circuit at rest with n failures counted. */
  ghost predicate RestingClosed(w: World, n: int) {
    w.redis == Redis(Closed, n, None, None) && AtRest(w)
  }

  /** The three steps that count a failure. */
  lemma CountFailureOf(st: Settings, w: World, p: Process) returns (acts: seq<Action>)
    requires MemoryOf(w, p).outstanding > 0
    ensures Fair(st, w, acts)
    ensures var w' := RunFrom(st, w, acts);
            var m, n := MemoryOf(w, p), w.redis.failures + 1;
            && w'.now == w.now
            && w'.redis == w.redis.(failures := n)
            && w'.memory == w.memory[p := Memory(None, m.successes, m.outstanding)]
            && w'.tasks == w.tasks + [Task(p, Failing, if n >= st.failureThreshold then Sent(ReadMode, w.now) else Finished(false))]
  {
    var i := |w.tasks|;
    acts := [];
    var w1 := Next(st, w, Begin(p, Failing));
    var w2 := Next(st, w1, Execute(i, true));
    var w3 := Next(st, w2, Resume(i));
    Then(st, w, acts, Begin(p, Failing));
    acts := acts + [Begin(p, Failing)];
    assert w1.tasks[i].wait == Sent(CountFailure, w.now);
    Then(st, w, acts, Execute(i, true));
    acts := acts + [Execute(i, true)];
    assert w2.tasks[i].wait.reply == Count(w.redis.failures + 1);
    Then(st, w, acts, Resume(i));
    acts := acts + [Resume(i)];
    assert RunFrom(st, w, acts) == w3;
  }

  /** What a failure makes of a closed circuit with n of them counted. */
  function AfterFailure(st: Settings, n: int, now: real): Redis {
    if n + 1 < st.failureThreshold then Redis(Closed, n + 1, None, None) else Redis(Open, n + 1, Some(now), None)
  }

  /** One request let through a closed circuit, and its failure recorded. */
  lemma RecordOneFailure(st: Settings, w: World, n: int) returns (acts: seq<Action>)
    requires RestingClosed(w, n)
    ensures Fair(st, w, acts)
    ensures var w' := RunFrom(st, w, acts);
            && w'.now == w.now && w'.redis == AfterFailure(st, n, w.now)
            && w'.memory == w.memory[0 := Memory(None, MemoryOf(w, 0).successes, 1)]
            && (forall t :: t in w'.tasks ==> t.wait.Finished?)
  {
    var a1 := ReadAndProceed(st, w, 0, Looking);
    var w1 := RunFrom(st, w, a1);
    var a2 := CountFailureOf(st, w1, 0);
    var w2 := RunFrom(st, w1, a2);
    RunConcat(st, w, a1, a2);
    acts := a1 + a2;
    if n + 1 >= st.failureThreshold {
      var a3 := OpenUp(st, w2, |w1.tasks|);
      RunConcat(st, w, acts, a3);
      acts := acts + a3;
    }
  }

  predicate AtRest(w: World) {
    && (forall p :: p in w.memory ==> w.memory[p].outstanding == 0 && w.memory[p].l1.None?)
    && (forall t :: t in w.tasks ==> t.wait.Finished?)
  }

  lemma FailOnce(st: Settings, w: World, n: int) returns (acts: seq<Action>)
    requires RestingClosed(w, n)
    ensures Fair(st, w, acts)
    ensures var w' := RunFrom(st, w, acts);
            w'.now == w.now && w'.redis == AfterFailure(st, n, w.now) && AtRest(w')
  {
    acts := RecordOneFailure(st, w, n);
    Then(st, w, acts, Leave(0));
    acts := acts + [Leave(0)];
  }

  /** The four steps of a worker that saw the threshold reached. */
  lemma OpenUp(st: Settings, w: World, i: nat) returns (acts: seq<Action>)
    requires i < |w.tasks| && w.tasks[i].wait == Sent(ReadMode, w.now) && w.redis.mode != Open
    ensures Fair(st, w, acts)
    ensures var w' := RunFrom(st, w, acts);
            var p := w.tasks[i].process;
            && w'.now == w.now
            && w'.redis == w.redis.(mode := Open, openedAt := Some(w.now), lockUntil := None)
            && w'.memory == w.memory[p := MemoryOf(w, p).(l1 := None)]
            && w'.tasks == w.tasks[i := w.tasks[i].(wait := Finished(false))]
  {
    acts := [];
    var w1 := Next(st, w, Execute(i, true));
    var w2 := Next(st, w1, Resume(i));
    var w3 := Next(st, w2, Execute(i, true));
    var w4 := Next(st, w3, Resume(i));
    Then(st, w, acts, Execute(i, true));
    acts := acts + [Execute(i, true)];
    Then(st, w, acts, Resume(i));
    acts := acts + [Resume(i)];
    assert w2.tasks[i].wait == Sent(OpenAll(w.now), w.now);
    Then(st, w, acts, Execute(i, true));
    acts := acts + [Execute(i, true)];
    Then(st, w, acts, Resume(i));
    acts := acts + [Resume(i)];
    assert RunFrom(st, w, acts) == w4;
  }

  lemma {:induction false} FailUntilOpen(st: Settings, w: World, n: int) returns (acts: seq<Action>)
    requires RestingClosed(w, n) && n < st.failureThreshold
    requires w.now > 0.0 && st.recoveryTimeout > 0
    ensures Fair(st, w, acts)
    ensures RestingOpen(st, RunFrom(st, w, acts))
    decreases st.failureThreshold - n
  {
    acts := FailOnce(st, w, n);
    var more;
    if n + 1 < st.failureThreshold {
      more := FailUntilOpen(st, RunFrom(st, w, acts), n + 1);
    } else {
      more := [Tick(st.recoveryTimeout as real)];
      Then(st, RunFrom(st, w, acts), [], Tick(st.recoveryTimeout as real));
      assert [] + more == more;
    }
    RunConcat(st, w, acts, more);
    acts := acts + more;
  }

  lemma OpenIsReachable(st: Settings) returns (acts: seq<Action>)
    requires st.failureThreshold >= 1 && st.recoveryTimeout >= 1
    ensures Fair(st, INITIAL, acts)
    ensures RestingOpen(st, Run(st, acts))
  {
    var start := [Tick(1.0)];
    assert start == [] + [Tick(1.0)];
    Then(st, INITIAL, [], Tick(1.0));
    var more := FailUntilOpen(st, Run(st, start), 0);
    RunConcat(st, INITIAL, start, more);
    acts := start + more;
  }

  /** Under every configuration a faultless run from the start ends half-open for ever. */
  lemma StuckIsReachable(st: Settings) returns (acts: seq<Action>)
    requires st.failureThreshold >= 1 && st.recoveryTimeout >= 1
    ensures Fair(st, INITIAL, acts)
    ensures Stuck(Run(st, acts))
  {
    var opening := OpenIsReachable(st);
    var probing := HealthyProbeGetsStuck(st, Run(st, opening));
    RunConcat(st, INITIAL, opening, probing);
    acts := opening + probing;
  }

  // ---------- The late write ----------

  /** Process 1 looks at an open circuit, and process 0 wins its probe. */
  lemma SeenOpenThenProbed(st: Settings, w: World) returns (acts: seq<Action>)
    requires RestingOpen(st, w)
    ensures Fair(st, w, acts)
    ensures var w' := RunFrom(st, w, acts);
            && w'.now == w.now && w'.redis.mode == HalfOpen
            && MemoryOf(w', 0) == Memory(None, 0, 1)
            && MemoryOf(w', 1).l1.Some? && MemoryOf(w', 1).l1.value.cached == Cached(ViewOf(st, w.redis), w.now)
  {
    var a1 := ReadAndProceed(st, w, 1, Looking);
    var w1 := RunFrom(st, w, a1);
    var a2 := ReadAndProceed(st, w1, 0, Allowing);
    var w2 := RunFrom(st, w1, a2);
    var a3 := TakeAndSet(st, w2, |w1.tasks|);
    RunConcat(st, w, a1, a2);
    RunConcat(st, w, a1 + a2, a3);
    acts := a1 + a2 + a3;
  }

  /** Half-open cached, process 0 short of the threshold: its next successes close the circuit. */
  lemma {:induction false} SucceedUntilDelete(st: Settings, w: World, seen: View) returns (acts: seq<Action>)
    requires seen.mode == HalfOpen && MemoryOf(w, 0).successes < st.successThreshold && MemoryOf(w, 0).outstanding > 0
    requires MemoryOf(w, 0).l1.Some? && MemoryOf(w, 0).l1.value.cached == Cached(seen, w.now)
    ensures Fair(st, w, acts)
    ensures var w' := RunFrom(st, w, acts);
            && w'.now == w.now && w'.redis == w.redis && MemoryOf(w', 1) == MemoryOf(w, 1)
            && |w'.tasks| > 0 && w'.tasks[|w'.tasks| - 1].wait == Sent(DeleteAll, w.now)
    decreases st.successThreshold - MemoryOf(w, 0).successes
  {
    Then(st, w, [], Begin(0, Succeeding));
    acts := [] + [Begin(0, Succeeding)];
    var w1 := RunFrom(st, w, acts);
    if MemoryOf(w1, 0).successes < st.successThreshold {
      var more := SucceedUntilDelete(st, w1, seen);
      RunConcat(st, w, acts, more);
      acts := acts + more;
    }
  }

  /** The probe succeeds as often as it has to, and the circuit is closed. */
  lemma ProbeCloses(st: Settings, w: World) returns (acts: seq<Action>)
    requires w.redis.mode == HalfOpen && MemoryOf(w, 0) == Memory(None, 0, 1)
    ensures Fair(st, w, acts)
    ensures var w' := RunFrom(st, w, acts);
            w'.now == w.now && w'.redis == EMPTY && MemoryOf(w', 1) == MemoryOf(w, 1)
  {
    acts := ReadAndProceed(st, w, 0, Succeeding);
    var w1 := RunFrom(st, w, acts);
    if st.successThreshold > 1 {
      var more := SucceedUntilDelete(st, w1, ViewOf(st, w.redis));
      RunConcat(st, w, acts, more);
      acts := acts + more;
    }
    var w2 := RunFrom(st, w, acts);
    var last := |w2.tasks| - 1;
    assert w2.tasks[last].wait == Sent(DeleteAll, w.now);
    Then(st, w, acts, Execute(last, true));
    acts := acts + [Execute(last, true)];
  }

  /** A worker whose cache still says open takes the freed lock. */
  lemma LateWrite(st: Settings, w: World, seen: View) returns (acts: seq<Action>)
    requires st.recoveryTimeout > 0 && w.redis == EMPTY && seen.mode == Open && RecoveryDue(seen, w.now)
    requires MemoryOf(w, 1).l1.Some? && MemoryOf(w, 1).l1.value.cached == Cached(seen, w.now)
    ensures Fair(st, w, acts)
    ensures var w' := RunFrom(st, w, acts);
            && w'.redis.mode == HalfOpen && w'.redis.openedAt == None
            && exists m :: m in w'.log && Stale(m)
  {
    var i := |w.tasks|;
    var w1 := Next(st, w, Begin(1, Allowing));
    Then(st, w, [], Begin(1, Allowing));
    assert [] + [Begin(1, Allowing)] == [Begin(1, Allowing)];
    assert w1.tasks[i].wait == Sent(TakeLock, w.now);
    var a2 := TakeAndSet(st, w1, i);
    RunConcat(st, w, [Begin(1, Allowing)], a2);
    acts := [Begin(1, Allowing)] + a2;
    var log := RunFrom(st, w, acts).log;
    var m := log[|log| - 1];
    assert m in log && Stale(m);
  }

  /** Process 1 caches "open"; process 0 probes and closes the circuit; process 1, its cache still
      fresh, takes the freed lock and writes half-open over a store with no opened_at. */
  lemma StaleCacheStripsOpenedAt(st: Settings) returns (acts: seq<Action>)
    requires st.failureThreshold >= 1 && st.recoveryTimeout >= 1
    ensures Fair(st, INITIAL, acts)
    ensures Run(st, acts).redis.mode == HalfOpen && Run(st, acts).redis.openedAt == None
    ensures exists m :: m in Run(st, acts).log && Stale(m)
  {
    var a0 := OpenIsReachable(st);
    var w := Run(st, a0);
    var a1 := SeenOpenThenProbed(st, w);
    var w1 := RunFrom(st, w, a1);
    RunConcat(st, INITIAL, a0, a1);
    var a2 := ProbeCloses(st, w1);
    var w2 := RunFrom(st, w1, a2);
    RunConcat(st, INITIAL, a0 + a1, a2);
    var a3 := LateWrite(st, w2, ViewOf(st, w.redis));
    RunConcat(st, INITIAL, a0 + a1 + a2, a3);
    acts := a0 + a1 + a2 + a3;
  }

  // ---------- Left alone, a worker makes the sequential call ----------

  function Push(st: Settings, w: World, i: nat): World {
    if i < |w.tasks| && w.tasks[i].wait.Sent? then Next(st, w, Execute(i, true)) else Next(st, w, Resume(i))
  }

  function Drive(st: Settings, w: World, i: nat, steps: nat): World
    decreases steps
  {
    if steps == 0 then w else Push(st, Drive(st, w, i, steps - 1), i)
  }

  /** All that a task's own steps depend on: the keys, its process's memory, and itself. */
  datatype Focus = Focus(redis: Redis, m: Memory, t: Task, logged: nat)

  function FocusOn(w: World, i: nat): Focus
    requires i < |w.tasks|
  {
    Focus(w.redis, MemoryOf(w, w.tasks[i].process), w.tasks[i], |w.log|)
  }

  function PushFocus(st: Settings, f: Focus, now: real): Focus {
    match f.t.wait
    case Sent(cmd, asked) =>
      var (r, reply) := Apply(st, f.redis, cmd, now);
      f.(redis := r, t := f.t.(wait := Answered(cmd, asked, reply, f.logged)), logged := f.logged + 1)
    case Answered(_, _, _, _) =>
      var (m, wait) := ResumeCall(st, f.m, f.t, now);
      f.(m := if wait.Finished? && wait.passed then m.(outstanding := m.outstanding + 1) else m, t := f.t.(wait := wait))
    case Finished(_) => f
  }

  function DriveFocus(st: Settings, f: Focus, now: real, steps: nat): Focus
    decreases steps
  {
    if steps == 0 then f else DriveFocus(st, PushFocus(st, f, now), now, steps - 1)
  }

  lemma {:induction false} DriveFocusBack(st: Settings, f: Focus, now: real, steps: nat)
    ensures DriveFocus(st, f, now, steps + 1) == PushFocus(st, DriveFocus(st, f, now, steps), now)
    decreases steps
  {
    if steps > 0 {
      DriveFocusBack(st, PushFocus(st, f, now), now, steps - 1);
    }
  }

  lemma PushIsFocus(st: Settings, w: World, i: nat)
    requires i < |w.tasks|
    ensures var t := Push(st, w, i);
            |t.tasks| == |w.tasks| && t.now == w.now && FocusOn(t, i) == PushFocus(st, FocusOn(w, i), w.now)
  {
  }

  lemma {:induction false} DriveIsFocus(st: Settings, w: World, i: nat, steps: nat)
    requires i < |w.tasks|
    ensures var t := Drive(st, w, i, steps);
            |t.tasks| == |w.tasks| && t.now == w.now && FocusOn(t, i) == DriveFocus(st, FocusOn(w, i), w.now, steps)
    decreases steps
  {
    if steps > 0 {
      DriveIsFocus(st, w, i, steps - 1);
      PushIsFocus(st, Drive(st, w, i, steps - 1), i);
      DriveFocusBack(st, FocusOn(w, i), w.now, steps - 1);
    }
  }

  function LocalOf(m: Memory): Local {
    Local(if m.l1.Some? then Some(m.l1.value.cached) else None, m.successes)
  }

  /** How the sequential Breaker answers a call, and what it leaves behind. */
  function Sequential(st: Settings, s: Sys, purpose: Purpose, now: real): (bool, Sys) {
    match purpose
    case Looking => var (v, t) := Look(st, s, now); (v.mode == Closed, t)
    case Allowing => Allow(st, s, now, now)
    case Succeeding => (false, Succeed(st, s, now))
    case Failing => (false, Fail(st, s, now))
  }

  /** A call that nobody interleaves with finishes within six steps, and is Breaker's own call. */
  lemma AloneIsSequential(st: Settings, w: World, p: Process, purpose: Purpose)
    ensures var i := |w.tasks|;
            var t := Drive(st, Next(st, w, Begin(p, purpose)), i, 6);
            var (passed, s) := Sequential(st, Sys(w.redis, LocalOf(MemoryOf(w, p))), purpose, w.now);
            && i < |t.tasks| && t.tasks[i].wait == Finished(passed)
            && Sys(t.redis, LocalOf(MemoryOf(t, p))) == s
  {
    var i := |w.tasks|;
    var w0 := Next(st, w, Begin(p, purpose));
    DriveIsFocus(st, w0, i, 6);
    var f := FocusOn(w0, i);
    assert f.t.process == p && f.t.purpose == purpose && f.redis == w.redis;
    FocusAlone(st, MemoryOf(w, p), f, w.now);
    assert Drive(st, w0, i, 6).tasks[i].process == p;
  }

  ghost predicate Begun(st: Settings, m: Memory, f: Focus, now: real) {
    var (m', wait) := BeginCall(st, m, f.t.purpose, now);
    f.t.wait == wait && f.m == if wait.Finished? && wait.passed then m'.(outstanding := m'.outstanding + 1) else m'
  }

  ghost predicate Ends(st: Settings, m: Memory, f: Focus, now: real) {
    var g := DriveFocus(st, f, now, 6);
    var (passed, s) := Sequential(st, Sys(f.redis, LocalOf(m)), f.t.purpose, now);
    g.t == f.t.(wait := Finished(passed)) && Sys(g.redis, LocalOf(g.m)) == s
  }

  lemma DriveTwo(st: Settings, f: Focus, now: real, steps: nat)
    ensures DriveFocus(st, f, now, steps + 2) == DriveFocus(st, PushFocus(st, PushFocus(st, f, now), now), now, steps)
  {
  }

  lemma {:induction false} DriveFinished(st: Settings, f: Focus, now: real, steps: nat)
    requires f.t.wait.Finished?
    ensures DriveFocus(st, f, now, steps) == f
    decreases steps
  {
    if steps > 0 {
      DriveFinished(st, f, now, steps - 1);
    }
  }

  /** Sends its command, hears back, runs on: two steps at a time. */
  lemma FocusAlone(st: Settings, m: Memory, f: Focus, now: real)
    requires Begun(st, m, f, now)
    ensures Ends(st, m, f, now)
  {
    match f.t.purpose
    case Looking =>
      DriveTwo(st, f, now, 4);
      DriveFinished(st, PushFocus(st, PushFocus(st, f, now), now), now, 4);
    case Allowing => AllowingAlone(st, m, f, now);
    case Succeeding => SucceedingAlone(st, m, f, now);
    case Failing => FailingAlone(st, m, f, now);
  }

  lemma FailingAlone(st: Settings, m: Memory, f: Focus, now: real)
    requires Begun(st, m, f, now) && f.t.purpose == Failing
    ensures Ends(st, m, f, now)
  {
    DriveTwo(st, f, now, 4);
    var f2 := PushFocus(st, PushFocus(st, f, now), now);
    DriveTwo(st, f2, now, 2);
    if f.redis.failures + 1 < st.failureThreshold {
      DriveFinished(st, f2, now, 4);
    } else {
      assert f2.t.wait == Sent(ReadMode, now);
      var f4 := PushFocus(st, PushFocus(st, f2, now), now);
      DriveTwo(st, f4, now, 0);
      if f.redis.mode == Open {
        DriveFinished(st, f4, now, 2);
      } else {
        assert f4.t.wait == Sent(OpenAll(now), now);
      }
    }
  }

  lemma SucceedingAlone(st: Settings, m: Memory, f: Focus, now: real)
    requires Begun(st, m, f, now) && f.t.purpose == Succeeding
    ensures Ends(st, m, f, now)
  {
    var f2 := if CacheFresh(m, now) then f else PushFocus(st, PushFocus(st, f, now), now);
    DriveTwo(st, f, now, 4);
    assert f2.redis == f.redis;
    if f2.t.wait.Finished? {
      DriveFinished(st, f2, now, 4);
      DriveFinished(st, f2, now, 6);
    } else {
      var f4 := PushFocus(st, PushFocus(st, f2, now), now);
      assert f4.t.wait == Finished(false);
      DriveTwo(st, f2, now, 2);
      DriveTwo(st, f2, now, 4);
      DriveFinished(st, f4, now, 2);
      DriveFinished(st, f4, now, 4);
    }
  }

  lemma AllowingAlone(st: Settings, m: Memory, f: Focus, now: real)
    requires Begun(st, m, f, now) && f.t.purpose == Allowing
    ensures Ends(st, m, f, now)
  {
    var v := if CacheFresh(m, now) then m.l1.value.cached.view else ViewOf(st, f.redis);
    var f2 := if CacheFresh(m, now) then f else PushFocus(st, PushFocus(st, f, now), now);
    DriveTwo(st, f, now, 4);
    assert f2.redis == f.redis;
    if v.mode == Closed || (v.mode == Open && !RecoveryDue(v, now)) {
      DriveFinished(st, f2, now, 4);
      DriveFinished(st, f2, now, 6);
    } else {
      var f4 := PushFocus(st, PushFocus(st, f2, now), now);
      DriveTwo(st, f2, now, 2);
      DriveTwo(st, f2, now, 4);
      if v.mode == Open && LockFree(st, f.redis, now) {
        assert f4.t.wait == Sent(SetHalfOpen, now);
        var f6 := PushFocus(st, PushFocus(st, f4, now), now);
        DriveTwo(st, f4, now, 0);
        DriveTwo(st, f4, now, 2);
        DriveFinished(st, f6, now, 0);
        DriveFinished(st, f6, now, 2);
      } else {
        DriveFinished(st, f4, now, 2);
        DriveFinished(st, f4, now, 4);
      }
    }
  }
}
