/** Many worker processes, each with many calls in flight, on one backend's breaker keys: every
    Redis command is sent, executed and answered in separate steps, and may fail. */
module BreakerWorkers {
  import opened Common
  import opened Breaker

  type Process = nat

  datatype Command =
    | ReadKeys | TakeLock | SetHalfOpen | ReadLock | ZeroFailures | DeleteAll | CountFailure | ReadMode
    | OpenAll(at: real)

  datatype Reply = Keys(redis: Redis) | Taken(yes: bool) | Count(n: int) | ModeIs(mode: Mode) | Done | Fault

  /** get_state, allow_request, record_success, record_failure. */
  datatype Purpose = Looking | Allowing | Succeeding | Failing

  datatype Wait =
    | Sent(cmd: Command, asked: real)
    | Answered(cmd: Command, asked: real, reply: Reply, from: nat)   // executed as log[from]
    | Finished(passed: bool)                                         // whether a request may go to the backend

  datatype Task = Task(process: Process, purpose: Purpose, wait: Wait)

  /** A cache entry, with where its value came from: read as log[from], asked for at `asked`. */
  datatype Entry = Entry(cached: Cached, asked: real, from: nat)

  /** One process: its cache, its successes while half-open, and the requests it let through that
      are still under way, each of which may record any number of outcomes. */
  datatype Memory = Memory(l1: Option<Entry>, successes: int, outstanding: nat)

  /** A command that reached Redis: when, and what the keys were before and after. */
  datatype Moment = Moment(at: real, cmd: Command, won: bool, before: Redis, after: Redis)

  datatype World = World(now: real, redis: Redis, memory: map<Process, Memory>, tasks: seq<Task>, log: seq<Moment>)

  datatype Action =
    | Begin(process: Process, purpose: Purpose)
    | Execute(task: nat, heard: bool)   // unless heard, its reply is lost on the way back
    | Drop(task: nat)                   // the command fails and never reaches Redis
    | Resume(task: nat)
    | Leave(process: Process)           // a request let through is done with
    | Tick(seconds: real)

  const INITIAL := World(0.0, EMPTY, map[], [], [])

  function MemoryOf(w: World, p: Process): Memory {
    if p in w.memory then w.memory[p] else Memory(None, 0, 0)
  }

  // ---------- Redis ----------

  function Apply(st: Settings, r: Redis, cmd: Command, now: real): (Redis, Reply) {
    match cmd
    case ReadKeys => (r, Keys(r))
    case TakeLock =>
      if st.recoveryTimeout <= 0 then (r, Fault)
      else if LockHeld(r, now) then (r, Taken(false))
      else (r.(lockUntil := Some(now + st.recoveryTimeout as real)), Taken(true))
    case SetHalfOpen => (r.(mode := HalfOpen), Done)
    case ReadLock => (r, Taken(LockHeld(r, now)))
    case ZeroFailures => (r.(failures := 0), Done)
    case DeleteAll => (EMPTY, Done)
    case CountFailure => (r.(failures := r.failures + 1), Count(r.failures + 1))
    case ReadMode => (r, ModeIs(r.mode))
    case OpenAll(at) => (r.(mode := Open, openedAt := Some(at), lockUntil := None), Done)
  }

  // ---------- The code between two awaits ----------

  /** What get_state's caller does with the view, up to its next command. */
  function Proceed(st: Settings, m: Memory, purpose: Purpose, v: View, now: real): (Memory, Wait) {
    match purpose
    case Looking => (m, Finished(v.mode == Closed))
    case Allowing => (
      match v.mode
      case Closed => (m, Finished(true))
      case Open => (m, if RecoveryDue(v, now) then Sent(TakeLock, now) else Finished(false))
      case HalfOpen => (m, Sent(ReadLock, now)))
    case Succeeding => (
      match v.mode
      case HalfOpen =>
        var m' := m.(successes := m.successes + 1);
        (m', if m'.successes >= st.successThreshold then Sent(DeleteAll, now) else Finished(false))
      case Closed => (m, Sent(ZeroFailures, now))
      case Open => (m, Finished(false)))
    case Failing => (m, Finished(false))
  }

  function CacheFresh(m: Memory, now: real): bool {
    m.l1.Some? && Unexpired(Some(m.l1.value.cached), now)
  }

  function BeginCall(st: Settings, m: Memory, purpose: Purpose, now: real): (Memory, Wait) {
    if purpose == Failing then (m, Sent(CountFailure, now))
    else if CacheFresh(m, now) then Proceed(st, m, purpose, m.l1.value.cached.view, now)
    else (m, Sent(ReadKeys, now))
  }

  function ResumeCall(st: Settings, m: Memory, t: Task, now: real): (Memory, Wait)
    requires t.wait.Answered?
  {
    match (t.wait.cmd, t.wait.reply)
    case (ReadKeys, Keys(r)) =>
      var m' := m.(l1 := Some(Entry(Cached(ViewOf(st, r), now), t.wait.asked, t.wait.from)));
      Proceed(st, m', t.purpose, ViewOf(st, r), now)
    case (ReadKeys, _) => Proceed(st, m, t.purpose, FAIL_OPEN, now)
    case (TakeLock, Taken(true)) => (m, Sent(SetHalfOpen, now))
    case (SetHalfOpen, _) => (m.(l1 := None, successes := 0), Finished(true))
    case (ReadLock, Taken(held)) => (m, Finished(held))
    case (ZeroFailures, Done) => (m.(l1 := None), Finished(false))
    case (DeleteAll, Done) => (m.(l1 := None, successes := 0), Finished(false))
    case (CountFailure, Count(n)) =>
      (m.(l1 := None), if n >= st.failureThreshold then Sent(ReadMode, now) else Finished(false))
    case (ReadMode, ModeIs(mode)) => (m, if mode != Open then Sent(OpenAll(now), now) else Finished(false))
    case (OpenAll(_), Done) => (m.(l1 := None), Finished(false))
    case _ => (m, Finished(false))
  }

  // ---------- Steps ----------

  predicate Enabled(w: World, a: Action) {
    match a
    case Begin(_, _) => true
    case Execute(i, _) => i < |w.tasks| && w.tasks[i].wait.Sent?
    case Drop(i) => i < |w.tasks| && w.tasks[i].wait.Sent?
    case Resume(i) => i < |w.tasks| && w.tasks[i].wait.Answered?
    case Leave(p) => MemoryOf(w, p).outstanding > 0
    case Tick(d) => d >= 0.0
  }

  /** Files the memory and the next wait of a task; a verdict that lets a request through leaves it outstanding. */
  function Settle(w: World, p: Process, m: Memory, purpose: Purpose, wait: Wait): map<Process, Memory> {
    w.memory[p := if wait.Finished? && wait.passed then m.(outstanding := m.outstanding + 1) else m]
  }

  function Next(st: Settings, w: World, a: Action): World {
    if !Enabled(w, a) then w
    else
      match a
      case Begin(p, purpose) =>
        var (m', wait) := BeginCall(st, MemoryOf(w, p), purpose, w.now);
        w.(memory := Settle(w, p, m', purpose, wait), tasks := w.tasks + [Task(p, purpose, wait)])
      case Execute(i, heard) =>
        var t := w.tasks[i];
        var (r, reply) := Apply(st, w.redis, t.wait.cmd, w.now);
        var moment := Moment(w.now, t.wait.cmd, t.wait.cmd == TakeLock && reply == Taken(true), w.redis, r);
        w.(redis := r,
           tasks := w.tasks[i := t.(wait := Answered(t.wait.cmd, t.wait.asked, if heard then reply else Fault, |w.log|))],
           log := w.log + [moment])
      case Drop(i) =>
        var t := w.tasks[i];
        w.(tasks := w.tasks[i := t.(wait := Answered(t.wait.cmd, t.wait.asked, Fault, 0))])
      case Resume(i) =>
        var t := w.tasks[i];
        var (m', wait) := ResumeCall(st, MemoryOf(w, t.process), t, w.now);
        w.(memory := Settle(w, t.process, m', t.purpose, wait), tasks := w.tasks[i := t.(wait := wait)])
      case Leave(p) =>
        var m := MemoryOf(w, p);
        w.(memory := w.memory[p := m.(outstanding := m.outstanding - 1)])
      case Tick(d) => w.(now := w.now + d)
  }

  function RunFrom(st: Settings, w: World, acts: seq<Action>): World {
    if acts == [] then w else Next(st, RunFrom(st, w, acts[..|acts| - 1]), acts[|acts| - 1])
  }

  function Run(st: Settings, acts: seq<Action>): World {
    RunFrom(st, INITIAL, acts)
  }

  lemma RunOneMore(st: Settings, w: World, acts: seq<Action>, a: Action)
    ensures RunFrom(st, w, acts + [a]) == Next(st, RunFrom(st, w, acts), a)
  {
    assert (acts + [a])[..|acts|] == acts;
  }

  // ---------- The log is what happened to Redis ----------

  ghost predicate Chained(w: World) {
    && (w.log == [] ==> w.redis == EMPTY)
    && (w.log != [] ==> w.log[0].before == EMPTY && w.redis == w.log[|w.log| - 1].after)
    && (forall k :: 0 < k < |w.log| ==> w.log[k].before == w.log[k - 1].after)
    && (forall j, k :: 0 <= j <= k < |w.log| ==> w.log[j].at <= w.log[k].at)
    && (forall k :: 0 <= k < |w.log| ==> w.log[k].at <= w.now)
  }

  ghost predicate Lawful(st: Settings, m: Moment) {
    var (r, reply) := Apply(st, m.before, m.cmd, m.at);
    m.after == r && m.won == (m.cmd == TakeLock && reply == Taken(true))
  }

  ghost predicate History(st: Settings, w: World) {
    Chained(w) && forall m :: m in w.log ==> Lawful(st, m)
  }

  lemma ChainGrows(w: World, w': World, m: Moment)
    requires Chained(w) && w'.log == w.log + [m] && m.before == w.redis && m.at == w.now
    requires w'.redis == m.after && w'.now == w.now
    ensures Chained(w')
  {
    var n := |w.log|;
    assert forall k :: 0 <= k < n ==> w'.log[k] == w.log[k];
    assert w'.log[n] == m;
  }

  lemma ExecuteHistory(st: Settings, w: World, i: nat, heard: bool)
    requires History(st, w) && Enabled(w, Execute(i, heard))
    ensures var w' := Next(st, w, Execute(i, heard));
            History(st, w') && |w.log| < |w'.log| && w'.log[..|w.log|] == w.log
  {
    var w' := Next(st, w, Execute(i, heard));
    var m := w'.log[|w.log|];
    assert w'.log == w.log + [m];
    ChainGrows(w, w', m);
    assert Lawful(st, m);
    assert forall k: Moment :: k in w'.log ==> k in w.log || k == m;
  }

  /** Only an executed command touches Redis, and each one is logged. */
  lemma NextHistory(st: Settings, w: World, a: Action)
    requires History(st, w)
    ensures var w' := Next(st, w, a);
            && History(st, w')
            && |w.log| <= |w'.log| && w'.log[..|w.log|] == w.log
            && w.now <= w'.now
  {
    if Enabled(w, a) && a.Execute? {
      ExecuteHistory(st, w, a.task, a.heard);
    } else {
      var w' := Next(st, w, a);
      assert w'.log == w.log && w'.redis == w.redis;
      assert w'.log[..|w.log|] == w.log;
    }
  }

  lemma {:induction false} LogIsHistory(st: Settings, acts: seq<Action>)
    ensures History(st, Run(st, acts))
  {
    if acts != [] {
      LogIsHistory(st, acts[..|acts| - 1]);
      NextHistory(st, Run(st, acts[..|acts| - 1]), acts[|acts| - 1]);
    }
  }

  // ---------- opened_at ----------

  predicate OpenIsStamped(r: Redis) {
    && (r.mode == Open ==> r.openedAt.Some?)
    && (r.mode == Closed ==> r.openedAt.None?)
  }

  /** In every reachable state, faults included, an open circuit knows when it opened. */
  lemma {:induction false} OpenAlwaysStamped(st: Settings, acts: seq<Action>)
    ensures OpenIsStamped(Run(st, acts).redis)
    ensures forall m :: m in Run(st, acts).log ==> OpenIsStamped(m.before) && OpenIsStamped(m.after)
  {
    if acts != [] {
      OpenAlwaysStamped(st, acts[..|acts| - 1]);
    }
  }

  predicate Stamped(r: Redis) {
    r.mode != Closed ==> r.openedAt.Some?
  }

  /** SET half-open by a worker that still believed the circuit open after another closed it. */
  predicate Stale(m: Moment) {
    m.cmd == SetHalfOpen && m.before.mode == Closed
  }

  /** Half-open keeps its opened_at throughout a run exactly when no such late write happened in it. */
  lemma HalfOpenStampedIffNoStaleWrite(st: Settings, acts: seq<Action>)
    ensures var log := Run(st, acts).log;
            (forall m :: m in log ==> Stamped(m.after)) <==> (forall m :: m in log ==> !Stale(m))
  {
    var log := Run(st, acts).log;
    LogIsHistory(st, acts);
    OpenAlwaysStamped(st, acts);
    if forall m :: m in log ==> !Stale(m) {
      NoStaleWriteMeansStamped(st, acts, |log|);
      forall m | m in log
        ensures Stamped(m.after)
      {
        var k: nat :| k < |log| && log[k] == m;
      }
    }
  }

  lemma {:induction false} NoStaleWriteMeansStamped(st: Settings, acts: seq<Action>, k: nat)
    requires k <= |Run(st, acts).log|
    requires forall m :: m in Run(st, acts).log ==> !Stale(m)
    ensures forall j :: 0 <= j < k ==> Stamped(Run(st, acts).log[j].after)
  {
    if k > 0 {
      NoStaleWriteMeansStamped(st, acts, k - 1);
      LogIsHistory(st, acts);
      OpenAlwaysStamped(st, acts);
      var log := Run(st, acts).log;
      var m := log[k - 1];
      assert m in log && Lawful(st, m) && !Stale(m);
      assert Stamped(m.before) by {
        if k >= 2 {
          assert m.before == log[k - 2].after;
        }
      }
      assert Stamped(m.after);
    }
  }

  // ---------- The probe lock ----------

  predicate Freed(m: Moment) {
    m.cmd == DeleteAll || m.cmd.OpenAll?
  }

  ghost predicate FreedBetween(log: seq<Moment>, i: int, j: int) {
    exists k :: 0 <= i < k < j <= |log| && Freed(log[k])
  }

  /** A lock once won outlives its winner's moment by the recovery timeout unless it is freed. */
  ghost predicate LockKept(st: Settings, w: World) {
    forall i :: 0 <= i < |w.log| && w.log[i].won ==>
      || FreedBetween(w.log, i, |w.log|)
      || (w.redis.lockUntil.Some? && w.redis.lockUntil.value >= w.log[i].at + st.recoveryTimeout as real)
  }

  lemma {:induction false} RunKeepsLock(st: Settings, acts: seq<Action>)
    ensures LockKept(st, Run(st, acts))
  {
    if acts != [] {
      var before, a := acts[..|acts| - 1], acts[|acts| - 1];
      RunKeepsLock(st, before);
      LogIsHistory(st, before);
      var w := Run(st, before);
      var w' := Run(st, acts);
      if Enabled(w, a) && a.Execute? {
        var n := |w.log|;
        forall i | 0 <= i < |w'.log| && w'.log[i].won
          ensures FreedBetween(w'.log, i, |w'.log|)
               || (w'.redis.lockUntil.Some? && w'.redis.lockUntil.value >= w'.log[i].at + st.recoveryTimeout as real)
        {
          if i < n {
            assert w'.log[i] == w.log[i];
            if k :| 0 <= i < k < n && Freed(w.log[k]) {
              assert Freed(w'.log[k]);
            } else if Freed(w'.log[n]) {
              assert FreedBetween(w'.log, i, n + 1);
            }
          }
        }
      }
    }
  }

  /** Two workers win the probe only with the lock freed in between, or a recovery timeout apart. */
  lemma {:induction false} ProbesAreSeparated(st: Settings, acts: seq<Action>, i: nat, j: nat)
    requires var log := Run(st, acts).log; i < j < |log| && log[i].won && log[j].won
    ensures var log := Run(st, acts).log;
            FreedBetween(log, i, j) || log[j].at >= log[i].at + st.recoveryTimeout as real
  {
    var before, a := acts[..|acts| - 1], acts[|acts| - 1];
    var w, w' := Run(st, before), Run(st, acts);
    if j < |w.log| {
      LogIsHistory(st, before);
      NextHistory(st, w, a);
      ProbesAreSeparated(st, before, i, j);
      if k :| 0 <= i < k < j <= |w.log| && Freed(w.log[k]) {
        assert Freed(w'.log[k]);
      }
    } else {
      RunKeepsLock(st, before);
      assert w'.log[i] == w.log[i];
      if k :| 0 <= i < k < |w.log| && Freed(w.log[k]) {
        assert Freed(w'.log[k]);
      }
    }
  }

  // ---------- How stale get_state can be ----------

  ghost predicate Sourced(st: Settings, w: World, e: Entry) {
    && e.from < |w.log|
    && e.cached.view == ViewOf(st, w.log[e.from].before)
    && e.asked <= w.log[e.from].at <= e.cached.at <= w.now
  }

  ghost predicate WaitSourced(w: World, t: Wait) {
    && (t.Sent? ==> t.asked <= w.now)
    && (t.Answered? && t.reply.Keys? ==>
          && t.from < |w.log|
          && t.reply.redis == w.log[t.from].before
          && t.asked <= w.log[t.from].at)
    && (t.Answered? && t.cmd == ReadLock && t.reply.Taken? ==>
          && t.from < |w.log|
          && t.reply.yes == LockHeld(w.log[t.from].before, w.log[t.from].at)
          && t.asked <= w.log[t.from].at)
  }

  ghost predicate AllSourced(st: Settings, w: World) {
    && Chained(w)
    && (forall p :: p in w.memory && w.memory[p].l1.Some? ==> Sourced(st, w, w.memory[p].l1.value))
    && (forall t :: t in w.tasks ==> WaitSourced(w, t.wait))
  }

  /** A command is sent at the moment the code before it runs; the cache only ever takes a delivered read. */
  lemma CodeIsPrompt(st: Settings, m: Memory, t: Task, now: real)
    ensures var (m', wait) := BeginCall(st, m, t.purpose, now);
            m'.l1 == m.l1 && !wait.Answered? && (wait.Sent? ==> wait.asked == now)
    ensures t.wait.Answered? ==>
              var (m', wait) := ResumeCall(st, m, t, now);
              && !wait.Answered? && (wait.Sent? ==> wait.asked == now)
              && (m'.l1 == m.l1 || m'.l1 == None
                  || (t.wait.cmd == ReadKeys && t.wait.reply.Keys?
                      && m'.l1 == Some(Entry(Cached(ViewOf(st, t.wait.reply.redis), now), t.wait.asked, t.wait.from))))
  {
  }

  lemma StillSourced(st: Settings, w: World, w': World)
    requires AllSourced(st, w)
    requires |w.log| <= |w'.log| && w'.log[..|w.log|] == w.log && w.now <= w'.now
    ensures forall p :: p in w.memory && w.memory[p].l1.Some? ==> Sourced(st, w', w.memory[p].l1.value)
    ensures forall t :: t in w.tasks ==> WaitSourced(w', t.wait)
  {
    assert forall k :: 0 <= k < |w.log| ==> w'.log[k] == w.log[k];
  }

  lemma TasksSourced(w': World, tasks: seq<Task>, i: nat, wait: Wait)
    requires i < |tasks| && (forall t :: t in tasks ==> WaitSourced(w', t.wait)) && WaitSourced(w', wait)
    ensures forall t :: t in tasks[i := tasks[i].(wait := wait)] ==> WaitSourced(w', t.wait)
  {
  }

  /** A step that files a memory and new tasks, and leaves Redis alone. */
  lemma FilingSourced(st: Settings, w: World, w': World, p: Process, m: Memory)
    requires AllSourced(st, w) && (m.l1.Some? ==> Sourced(st, w, m.l1.value))
    requires w'.log == w.log && w'.redis == w.redis && w'.now == w.now
    requires exists outstanding :: w'.memory == w.memory[p := m.(outstanding := outstanding)]
    requires forall t :: t in w'.tasks ==> WaitSourced(w, t.wait)
    ensures AllSourced(st, w')
  {
    forall q | q in w'.memory && w'.memory[q].l1.Some?
      ensures Sourced(st, w', w'.memory[q].l1.value)
    {
      if q != p {
        assert w'.memory[q] == w.memory[q];
        assert Sourced(st, w, w.memory[q].l1.value);
      }
    }
    assert forall t :: t in w'.tasks && WaitSourced(w, t.wait) ==> WaitSourced(w', t.wait);
  }

  lemma BeginSourced(st: Settings, w: World, p: Process, purpose: Purpose)
    requires AllSourced(st, w) && Enabled(w, Begin(p, purpose))
    ensures AllSourced(st, Next(st, w, Begin(p, purpose)))
  {
    var (m', wait) := BeginCall(st, MemoryOf(w, p), purpose, w.now);
    CodeIsPrompt(st, MemoryOf(w, p), Task(p, purpose, Finished(false)), w.now);
    var w' := Next(st, w, Begin(p, purpose));
    assert w'.memory == w.memory[p := m'.(outstanding := w'.memory[p].outstanding)];
    FilingSourced(st, w, w', p, m');
  }

  lemma ExecuteSourced(st: Settings, w: World, i: nat, heard: bool)
    requires AllSourced(st, w) && History(st, w) && Enabled(w, Execute(i, heard))
    ensures AllSourced(st, Next(st, w, Execute(i, heard)))
  {
    var w' := Next(st, w, Execute(i, heard));
    ExecuteHistory(st, w, i, heard);
    StillSourced(st, w, w');
    assert w.tasks[i] in w.tasks;
    TasksSourced(w', w.tasks, i, w'.tasks[i].wait);
  }

  /** What an answer leaves in memory was read when the answer was asked for, or was there before. */
  lemma AnswerSourced(st: Settings, w: World, t: Task, m: Memory)
    requires Chained(w) && t.wait.Answered? && WaitSourced(w, t.wait)
    requires m.l1.Some? ==> Sourced(st, w, m.l1.value)
    ensures var (m', wait) := ResumeCall(st, m, t, w.now);
            (m'.l1.Some? ==> Sourced(st, w, m'.l1.value)) && WaitSourced(w, wait)
  {
    CodeIsPrompt(st, m, t, w.now);
  }

  lemma ResumeSourced(st: Settings, w: World, i: nat)
    requires AllSourced(st, w) && Enabled(w, Resume(i))
    ensures AllSourced(st, Next(st, w, Resume(i)))
  {
    var w' := Next(st, w, Resume(i));
    var t := w.tasks[i];
    var (m', wait) := ResumeCall(st, MemoryOf(w, t.process), t, w.now);
    assert t in w.tasks;
    AnswerSourced(st, w, t, MemoryOf(w, t.process));
    TasksSourced(w, w.tasks, i, wait);
    assert w'.memory == w.memory[t.process := m'.(outstanding := w'.memory[t.process].outstanding)];
    FilingSourced(st, w, w', t.process, m');
  }

  lemma NextSourced(st: Settings, w: World, a: Action)
    requires AllSourced(st, w) && History(st, w)
    ensures AllSourced(st, Next(st, w, a))
  {
    if Enabled(w, a) {
      match a
      case Begin(p, purpose) => BeginSourced(st, w, p, purpose);
      case Execute(i, heard) => ExecuteSourced(st, w, i, heard);
      case Drop(i) =>
        StillSourced(st, w, Next(st, w, a));
        TasksSourced(Next(st, w, a), w.tasks, i, Next(st, w, a).tasks[i].wait);
      case Resume(i) => ResumeSourced(st, w, i);
      case Leave(p) => FilingSourced(st, w, Next(st, w, a), p, MemoryOf(w, p));
      case Tick(_) => StillSourced(st, w, Next(st, w, a));
    }
  }

  lemma {:induction false} RunSourced(st: Settings, acts: seq<Action>)
    ensures AllSourced(st, Run(st, acts))
  {
    if acts != [] {
      RunSourced(st, acts[..|acts| - 1]);
      LogIsHistory(st, acts[..|acts| - 1]);
      NextSourced(st, Run(st, acts[..|acts| - 1]), acts[|acts| - 1]);
    }
  }

  /** The cache entry a get_state call returns in this step, if one does. */
  function Served(st: Settings, w: World, a: Action): Option<Entry> {
    if !Enabled(w, a) then None
    else
      match a
      case Begin(p, purpose) =>
        if purpose != Failing && CacheFresh(MemoryOf(w, p), w.now) then MemoryOf(w, p).l1 else None
      case Resume(i) =>
        var t := w.tasks[i];
        if t.wait.cmd == ReadKeys && t.wait.reply.Keys? then
          Some(Entry(Cached(ViewOf(st, t.wait.reply.redis), w.now), t.wait.asked, t.wait.from))
        else None
      case _ => None
  }

  /** Every state a worker acts on was Redis's own at some moment less than 2 s plus that one
      read's duration ago. */
  lemma GetStateNearlyCurrent(st: Settings, acts: seq<Action>, a: Action)
    requires Served(st, Run(st, acts), a).Some?
    ensures var w := Run(st, acts);
            var e := Served(st, w, a).value;
            && e.from < |w.log|
            && e.cached.view == ViewOf(st, w.log[e.from].before)
            && w.log[e.from].at <= w.now < w.log[e.from].at + 2.0 + (e.cached.at - e.asked)
  {
    RunSourced(st, acts);
    var w := Run(st, acts);
    if a.Resume? {
      assert w.tasks[a.task] in w.tasks;
    }
  }

  /** Once half-open has been read, a request is let through exactly if the probe lock was held when
      the lock was read. */
  lemma HalfOpenAdmitsIffLocked(st: Settings, acts: seq<Action>, i: nat)
    requires var w := Run(st, acts);
             Enabled(w, Resume(i)) && w.tasks[i].wait.cmd == ReadLock && w.tasks[i].wait.reply.Taken?
    ensures var w := Run(st, acts);
            var from := w.tasks[i].wait.from;
            && from < |w.log| && w.tasks[i].wait.asked <= w.log[from].at <= w.now
            && Next(st, w, Resume(i)).tasks[i].wait == Finished(LockHeld(w.log[from].before, w.log[from].at))
  {
    RunSourced(st, acts);
    assert Run(st, acts).tasks[i] in Run(st, acts).tasks;
  }

  /** What a call makes of a command that failed, or whose reply was lost. A failed read is a closed circuit
      that nothing remembers: the request goes through, and a success is counted. A lock that was not taken or not
      read refuses; a probe that is won goes ahead though Redis could not be told; anything else ends the call
      and forgets nothing. */
  lemma FaultsFailOpen(st: Settings, w: World, i: nat)
    requires Enabled(w, Resume(i)) && w.tasks[i].wait.reply.Fault?
    ensures var t, w' := w.tasks[i], Next(st, w, Resume(i));
            var m, m', wait := MemoryOf(w, t.process), MemoryOf(w', t.process), w'.tasks[i].wait;
            && w'.redis == w.redis && w'.log == w.log
            && match t.wait.cmd
               case ReadKeys =>
                 && m'.l1 == m.l1 && m'.successes == m.successes
                 && wait == (if t.purpose == Succeeding then Sent(ZeroFailures, w.now) else Finished(t.purpose != Failing))
               case SetHalfOpen => wait == Finished(true) && m'.l1 == None && m'.successes == 0
               case _ => wait == Finished(false) && m' == m
  {
  }
}
