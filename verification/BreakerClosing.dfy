/** When a circuit that is not closed closes: which recorded successes count, in which process, and
    when there are enough of them. */
module BreakerClosing {
  import opened Common
  import opened Breaker
  import opened BreakerWorkers

  /** The process whose code a step runs. */
  function Actor(w: World, a: Action): Process {
    match a
    case Begin(p, _) => p
    case Resume(i) => if i < |w.tasks| then w.tasks[i].process else 0
    case _ => 0
  }

  /** A record_success that reads half-open, from its cache or from Redis, at this step. */
  predicate HalfOpenSuccess(w: World, a: Action) {
    match a
    case Begin(p, purpose) =>
      && purpose == Succeeding && CacheFresh(MemoryOf(w, p), w.now)
      && MemoryOf(w, p).l1.value.cached.view.mode == HalfOpen
    case Resume(i) =>
      && Enabled(w, a)
      && var t := w.tasks[i];
         t.purpose == Succeeding && t.wait.cmd == ReadKeys && t.wait.reply.Keys? && t.wait.reply.redis.mode == HalfOpen
    case _ => false
  }

  /** The process's count starts over: it has won a probe, or heard that the circuit is closed. */
  predicate Restarts(w: World, a: Action) {
    && a.Resume? && Enabled(w, a)
    && var t := w.tasks[a.task];
       t.wait.cmd == SetHalfOpen || (t.wait.cmd == DeleteAll && t.wait.reply == Done)
  }

  /** The half-open successes a process has recorded since its count last started over. */
  function Tally(st: Settings, w: World, acts: seq<Action>, p: Process): int {
    if acts == [] then MemoryOf(w, p).successes
    else
      var before, a := acts[..|acts| - 1], acts[|acts| - 1];
      var v := RunFrom(st, w, before);
      if Actor(v, a) != p then Tally(st, w, before, p)
      else if Restarts(v, a) then 0
      else Tally(st, w, before, p) + if HalfOpenSuccess(v, a) then 1 else 0
  }

  lemma StepTally(st: Settings, w: World, a: Action, p: Process)
    ensures MemoryOf(Next(st, w, a), p).successes ==
            if Actor(w, a) != p then MemoryOf(w, p).successes
            else if Restarts(w, a) then 0
            else MemoryOf(w, p).successes + if HalfOpenSuccess(w, a) then 1 else 0
  {
  }

  /** A process's counter is its tally, whatever the other processes, the clock and the faults did. */
  lemma {:induction false} CounterIsTheTally(st: Settings, w: World, acts: seq<Action>, p: Process)
    ensures MemoryOf(RunFrom(st, w, acts), p).successes == Tally(st, w, acts, p)
  {
    if acts != [] {
      var before := acts[..|acts| - 1];
      CounterIsTheTally(st, w, before, p);
      StepTally(st, RunFrom(st, w, before), acts[|acts| - 1], p);
    }
  }

  /** A half-open success that brings its process's count to the threshold. */
  predicate Suffices(st: Settings, w: World, a: Action) {
    HalfOpenSuccess(w, a) && MemoryOf(w, Actor(w, a)).successes + 1 >= st.successThreshold
  }

  // ---------- Every sufficient success closes, and nothing else does ----------

  predicate Deleting(t: Task) {
    t.wait.Sent? && t.wait.cmd == DeleteAll
  }

  /** Somebody is about to close the circuit. */
  predicate Pending(w: World) {
    exists i :: 0 <= i < |w.tasks| && Deleting(w.tasks[i])
  }

  /** The closing command never reaches Redis. */
  predicate DropsDelete(w: World, a: Action) {
    a.Drop? && Enabled(w, a) && Deleting(w.tasks[a.task])
  }

  lemma BeginPends(st: Settings, w: World, p: Process, purpose: Purpose)
    ensures var w' := Next(st, w, Begin(p, purpose));
            && |w'.tasks| == |w.tasks| + 1 && w'.tasks[..|w.tasks|] == w.tasks && w'.redis == w.redis
            && (Deleting(w'.tasks[|w.tasks|]) <==> Suffices(st, w, Begin(p, purpose)))
  {
  }

  lemma ResumePends(st: Settings, w: World, i: nat)
    requires Enabled(w, Resume(i))
    ensures var w' := Next(st, w, Resume(i));
            && w'.tasks == w.tasks[i := w'.tasks[i]] && w'.redis == w.redis && !Deleting(w.tasks[i])
            && (Deleting(w'.tasks[i]) <==> Suffices(st, w, Resume(i)))
  {
  }

  lemma ExecutePends(st: Settings, w: World, i: nat, heard: bool)
    requires Enabled(w, Execute(i, heard))
    ensures var w' := Next(st, w, Execute(i, heard));
            && w'.tasks == w.tasks[i := w'.tasks[i]] && !Deleting(w'.tasks[i])
            && (Deleting(w.tasks[i]) ==> w'.redis.mode == Closed)
            && (w'.redis.mode == Closed ==> w.redis.mode == Closed || Deleting(w.tasks[i]))
  {
  }

  lemma StepPends(st: Settings, w: World, a: Action)
    ensures var w' := Next(st, w, a);
            && (Pending(w') ==> Pending(w) || Suffices(st, w, a))
            && (Suffices(st, w, a) ==> Pending(w'))
            && (Pending(w) && !DropsDelete(w, a) ==> Pending(w') || w'.redis.mode == Closed)
            && (w'.redis.mode == Closed ==> w.redis.mode == Closed || Pending(w))
  {
    var w' := Next(st, w, a);
    if Enabled(w, a) {
      match a
      case Begin(p, purpose) =>
        BeginPends(st, w, p, purpose);
        assert forall i :: 0 <= i < |w.tasks| ==> w'.tasks[i] == w.tasks[i];
      case Resume(i) =>
        ResumePends(st, w, i);
        assert forall j :: 0 <= j < |w.tasks| && j != i ==> w'.tasks[j] == w.tasks[j];
      case Execute(i, heard) =>
        ExecutePends(st, w, i, heard);
        assert forall j :: 0 <= j < |w.tasks| && j != i ==> w'.tasks[j] == w.tasks[j];
      case Drop(i) => assert forall j :: 0 <= j < |w.tasks| && j != i ==> w'.tasks[j] == w.tasks[j];
      case _ => assert w'.tasks == w.tasks && w'.redis == w.redis;
    }
  }

  /** Closed at some moment of these steps. */
  predicate EverClosed(st: Settings, w: World, acts: seq<Action>) {
    RunFrom(st, w, acts).redis.mode == Closed || (acts != [] && EverClosed(st, w, acts[..|acts| - 1]))
  }

  /** One of these steps is a sufficient success. */
  predicate EverSuffices(st: Settings, w: World, acts: seq<Action>) {
    acts != [] &&
    (|| EverSuffices(st, w, acts[..|acts| - 1])
     || Suffices(st, RunFrom(st, w, acts[..|acts| - 1]), acts[|acts| - 1]))
  }

  predicate NoDeleteDropped(st: Settings, w: World, acts: seq<Action>) {
    acts != [] ==>
      && NoDeleteDropped(st, w, acts[..|acts| - 1])
      && !DropsDelete(RunFrom(st, w, acts[..|acts| - 1]), acts[|acts| - 1])
  }

  lemma {:induction false} ClosingIsPending(st: Settings, w: World, acts: seq<Action>)
    requires w.redis.mode != Closed && !Pending(w) && NoDeleteDropped(st, w, acts)
    ensures EverSuffices(st, w, acts) ==> EverClosed(st, w, acts) || Pending(RunFrom(st, w, acts))
    ensures EverClosed(st, w, acts) || Pending(RunFrom(st, w, acts)) ==> EverSuffices(st, w, acts)
  {
    if acts != [] {
      var before := acts[..|acts| - 1];
      ClosingIsPending(st, w, before);
      StepPends(st, RunFrom(st, w, before), acts[|acts| - 1]);
      if RunFrom(st, w, before).redis.mode == Closed {
        assert EverClosed(st, w, before);
      }
    }
  }

  /** A circuit that is open or half-open closes, by the time no closing command is on its way, exactly
      if some process recorded a success that read half-open and was its successThreshold-th since
      it last won a probe or closed the circuit. The probe lock and its expiry do not come into it. */
  lemma ClosesIffEnoughSuccesses(st: Settings, w: World, acts: seq<Action>)
    requires w.redis.mode != Closed && !Pending(w) && NoDeleteDropped(st, w, acts) && !Pending(RunFrom(st, w, acts))
    ensures EverClosed(st, w, acts) <==> EverSuffices(st, w, acts)
  {
    ClosingIsPending(st, w, acts);
  }

  // ---------- One prober ----------

  /** How many of these steps are half-open successes. */
  function HalfOpenSuccesses(st: Settings, w: World, acts: seq<Action>): nat {
    if acts == [] then 0
    else
      var before := acts[..|acts| - 1];
      HalfOpenSuccesses(st, w, before) + if HalfOpenSuccess(RunFrom(st, w, before), acts[|acts| - 1]) then 1 else 0
  }

  /** The only half-open successes are p's, and nobody wins another probe. */
  predicate OnlyProber(st: Settings, w: World, acts: seq<Action>, p: Process) {
    acts != [] ==>
      var before, a := acts[..|acts| - 1], acts[|acts| - 1];
      var v := RunFrom(st, w, before);
      && OnlyProber(st, w, before, p)
      && (HalfOpenSuccess(v, a) ==> Actor(v, a) == p)
      && !(a.Resume? && Enabled(v, a) && v.tasks[a.task].wait.cmd == SetHalfOpen)
  }

  predicate NoDelete(w: World) {
    forall i :: 0 <= i < |w.tasks| && !w.tasks[i].wait.Finished? ==> w.tasks[i].wait.cmd != DeleteAll
  }

  lemma StepNoDelete(st: Settings, w: World, a: Action)
    requires NoDelete(w) && !Suffices(st, w, a)
    ensures NoDelete(Next(st, w, a))
  {
    if Enabled(w, a) {
      match a
      case Begin(p, purpose) => BeginPends(st, w, p, purpose);
      case Resume(i) => ResumePends(st, w, i);
      case _ =>
    }
  }

  lemma {:induction false} ProberCounts(st: Settings, w: World, acts: seq<Action>, p: Process)
    requires MemoryOf(w, p).successes == 0 && NoDelete(w) && OnlyProber(st, w, acts, p)
    ensures !EverSuffices(st, w, acts) ==>
              && NoDelete(RunFrom(st, w, acts))
              && MemoryOf(RunFrom(st, w, acts), p).successes == HalfOpenSuccesses(st, w, acts)
    ensures EverSuffices(st, w, acts) <==>
              HalfOpenSuccesses(st, w, acts) >= 1 && HalfOpenSuccesses(st, w, acts) >= st.successThreshold
  {
    if acts != [] {
      var before, a := acts[..|acts| - 1], acts[|acts| - 1];
      ProberCounts(st, w, before, p);
      var v := RunFrom(st, w, before);
      if !EverSuffices(st, w, before) {
        StepTally(st, v, a, p);
        if !Suffices(st, v, a) {
          StepNoDelete(st, v, a);
        }
      }
    }
  }

  /** From the moment a process has won the probe, and while only its successes read half-open, the
      circuit closes exactly if at least successThreshold of them do. */
  lemma ProbeClosesIff(st: Settings, w: World, acts: seq<Action>, p: Process)
    requires w.redis.mode != Closed && MemoryOf(w, p).successes == 0 && NoDelete(w)
    requires OnlyProber(st, w, acts, p) && NoDeleteDropped(st, w, acts) && !Pending(RunFrom(st, w, acts))
    ensures EverClosed(st, w, acts) <==>
            HalfOpenSuccesses(st, w, acts) >= 1 && HalfOpenSuccesses(st, w, acts) >= st.successThreshold
  {
    ClosesIffEnoughSuccesses(st, w, acts);
    ProberCounts(st, w, acts, p);
  }
}
