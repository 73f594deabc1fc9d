/** The circuit breaker of circuit_breaker.py as one worker sees it: calls that run to
    completion, and the three-state automaton they amount to. */
module Breaker {
  import opened Common

  const L1_TTL: real := 2.0

  datatype Mode = Closed | Open | HalfOpen

  /** The four keys of one backend. No state key means closed, no counter means zero; the
      probe lock is held until its expiry. */
  datatype Redis = Redis(mode: Mode, failures: int, openedAt: Option<real>, lockUntil: Option<real>)

  datatype Settings = Settings(failureThreshold: int, recoveryTimeout: int, successThreshold: int)

  /** CircuitState: what get_state returns. */
  datatype View = View(mode: Mode, failures: int, openedAt: Option<real>, recoveryAt: Option<real>)

  datatype Cached = Cached(view: View, at: real)

  /** What one process keeps in memory. */
  datatype Local = Local(l1: Option<Cached>, successes: int)

  datatype Sys = Sys(redis: Redis, local: Local)

  const EMPTY := Redis(Closed, 0, None, None)
  const FRESH := Sys(EMPTY, Local(None, 0))

  /** A timestamp of exactly zero is falsy in the source, and counts as absent. */
  predicate Truthy(t: Option<real>) {
    t.Some? && t.value != 0.0
  }

  function ViewOf(st: Settings, r: Redis): View {
    View(r.mode, r.failures, r.openedAt,
         if Truthy(r.openedAt) then Some(r.openedAt.value + st.recoveryTimeout as real) else None)
  }

  predicate Unexpired(l1: Option<Cached>, mono: real) {
    l1.Some? && mono - l1.value.at < L1_TTL
  }

  predicate LockHeld(r: Redis, wall: real) {
    r.lockUntil.Some? && wall < r.lockUntil.value
  }

  predicate RecoveryDue(v: View, wall: real) {
    Truthy(v.recoveryAt) && wall >= v.recoveryAt.value
  }

  // ---------- One call at a time ----------

  function Look(st: Settings, s: Sys, mono: real): (View, Sys) {
    if Unexpired(s.local.l1, mono) then (s.local.l1.value.view, s)
    else
      var v := ViewOf(st, s.redis);
      (v, s.(local := s.local.(l1 := Some(Cached(v, mono)))))
  }

  /** SET NX EX: refused while the lock is held, and an error for an expiry that is not positive. */
  predicate LockFree(st: Settings, r: Redis, wall: real) {
    st.recoveryTimeout > 0 && !LockHeld(r, wall)
  }

  function Allow(st: Settings, s: Sys, mono: real, wall: real): (bool, Sys) {
    var (v, s1) := Look(st, s, mono);
    match v.mode
    case Closed => (true, s1)
    case Open =>
      if RecoveryDue(v, wall) && LockFree(st, s1.redis, wall) then
        (true, Sys(s1.redis.(mode := HalfOpen, lockUntil := Some(wall + st.recoveryTimeout as real)), Local(None, 0)))
      else (false, s1)
    case HalfOpen => (LockHeld(s1.redis, wall), s1)
  }

  function Succeed(st: Settings, s: Sys, mono: real): Sys {
    var (v, s1) := Look(st, s, mono);
    match v.mode
    case HalfOpen =>
      if s1.local.successes + 1 >= st.successThreshold then FRESH
      else s1.(local := s1.local.(successes := s1.local.successes + 1))
    case Closed => Sys(s1.redis.(failures := 0), s1.local.(l1 := None))
    case Open => s1
  }

  function Fail(st: Settings, s: Sys, wall: real): Sys {
    var counted := s.redis.(failures := s.redis.failures + 1);
    Sys(if counted.failures >= st.failureThreshold && counted.mode != Open
        then counted.(mode := Open, openedAt := Some(wall), lockUntil := None) else counted,
        s.local.(l1 := None))
  }

  // ---------- With Redis away ----------

  /** A read that failed reports a closed circuit, uncached. */
  const FAIL_OPEN := View(Closed, 0, None, None)

  function LookAway(s: Sys, mono: real): View {
    if Unexpired(s.local.l1, mono) then s.local.l1.value.view else FAIL_OPEN
  }

  /** A success that a cached half-open view counts stays counted, and closes nothing. */
  function SucceedAway(s: Sys, mono: real): Sys {
    if LookAway(s, mono).mode == HalfOpen then s.(local := s.local.(successes := s.local.successes + 1)) else s
  }

  /** A circuit that knows when it opened recovers its timeout later. */
  predicate RecoversAt(st: Settings, v: View) {
    if v.openedAt.Some? && v.openedAt.value != 0.0
    then v.recoveryAt.Some? && v.recoveryAt.value - v.openedAt.value == st.recoveryTimeout as real
    else v.recoveryAt.None?
  }

  // ---------- The breaker object ----------

  /** The store, and whether it answers: a call finds it up or down throughout. */
  class RedisKeys {
    var keys: Redis
    var up: bool

    constructor ()
      ensures keys == EMPTY && up
    {
      keys, up := EMPTY, true;
    }
  }

  class CircuitBreaker {
    const redis: RedisKeys
    var settings: Settings
    var l1: Option<Cached>
    var halfOpenSuccesses: int

    constructor (redis: RedisKeys, settings: Settings)
      ensures this.redis == redis && this.settings == settings
      ensures l1 == None && halfOpenSuccesses == 0
    {
      this.redis := redis;
      this.settings := settings;
      l1 := None;
      halfOpenSuccesses := 0;
    }

    ghost function State(): Sys
      reads this, redis
    {
      Sys(redis.keys, Local(l1, halfOpenSuccesses))
    }

    /** Leaves the circuit alone: a cached recovery time keeps the old timeout until it expires. */
    method UpdateSettings(settings: Settings)
      modifies this`settings
      ensures this.settings == settings && State() == old(State())
    {
      this.settings := settings;
    }

    method GetState(mono: real) returns (view: View)
      modifies this`l1
      ensures redis.up ==> (view, State()) == Look(settings, old(State()), mono)
      ensures !redis.up ==> view == LookAway(old(State()), mono) && State() == old(State())
      // What is less than two seconds old answers; else Redis, or a circuit that never failed.
      ensures old(l1).Some? && mono - old(l1).value.at < 2.0 ==> view == old(l1).value.view && l1 == old(l1)
      ensures old(l1).None? || mono - old(l1).value.at >= 2.0 ==>
                if redis.up then
                  && view.mode == redis.keys.mode && view.failures == redis.keys.failures
                  && view.openedAt == redis.keys.openedAt && RecoversAt(settings, view)
                  && l1 == Some(Cached(view, mono))
                else view.mode == Closed && view.failures == 0 && view.openedAt.None? && view.recoveryAt.None?
    {
      if Unexpired(l1, mono) {
        return l1.value.view;
      }
      if !redis.up {
        return FAIL_OPEN;
      }
      view := ViewOf(settings, redis.keys);
      l1 := Some(Cached(view, mono));
    }

    method AllowRequest(mono: real, wall: real) returns (allowed: bool)
      modifies this`l1, this`halfOpenSuccesses, redis`keys
      ensures redis.up ==> (allowed, State()) == Allow(settings, old(State()), mono, wall)
      ensures !redis.up ==> allowed == (LookAway(old(State()), mono).mode == Closed) && State() == old(State())
      // Fail open, unless a cached view less than two seconds old says otherwise.
      ensures !redis.up ==>
                (allowed <==> old(l1).None? || mono - old(l1).value.at >= 2.0 || old(l1).value.view.mode == Closed)
    {
      var view := GetState(mono);
      if view.mode == Closed {
        return true;
      }
      if view.mode == Open {
        if RecoveryDue(view, wall) {
          if !redis.up || !LockFree(settings, redis.keys, wall) {
            return false;
          }
          redis.keys := redis.keys.(lockUntil := Some(wall + settings.recoveryTimeout as real));
          redis.keys := redis.keys.(mode := HalfOpen);
          l1 := None;
          halfOpenSuccesses := 0;
          return true;
        }
        return false;
      }
      allowed := redis.up && LockHeld(redis.keys, wall);
    }

    method RecordSuccess(mono: real)
      modifies this`l1, this`halfOpenSuccesses, redis`keys
      ensures redis.up ==> State() == Succeed(settings, old(State()), mono)
      ensures !redis.up ==> State() == SucceedAway(old(State()), mono)
      // Of what Redis does not hear, only a success under a fresh half-open cache is counted.
      ensures !redis.up ==>
                var counts := old(l1).Some? && mono - old(l1).value.at < 2.0 && old(l1).value.view.mode == HalfOpen;
                && halfOpenSuccesses == old(halfOpenSuccesses) + (if counts then 1 else 0)
                && redis.keys == old(redis.keys) && l1 == old(l1)
    {
      var view := GetState(mono);
      if view.mode == HalfOpen {
        halfOpenSuccesses := halfOpenSuccesses + 1;
        if halfOpenSuccesses >= settings.successThreshold {
          CloseCircuit();
        }
      } else if view.mode == Closed && redis.up {
        redis.keys := redis.keys.(failures := 0);
        l1 := None;
      }
    }

    method RecordFailure(wall: real)
      modifies this`l1, redis`keys
      ensures redis.up ==> State() == Fail(settings, old(State()), wall)
      ensures !redis.up ==> State() == old(State())
    {
      if !redis.up {
        return;
      }
      redis.keys := redis.keys.(failures := redis.keys.failures + 1);
      l1 := None;
      if redis.keys.failures >= settings.failureThreshold {
        if redis.keys.mode != Open {
          redis.keys := redis.keys.(mode := Open, openedAt := Some(wall), lockUntil := None);
          l1 := None;
        }
      }
    }

    method CloseCircuit()
      modifies this`l1, this`halfOpenSuccesses, redis`keys
      ensures redis.up ==> State() == FRESH
      ensures !redis.up ==> State() == old(State())
    {
      if !redis.up {
        return;
      }
      redis.keys := EMPTY;
      l1 := None;
      halfOpenSuccesses := 0;
    }
  }

  // ---------- Runs of calls, and the automaton ----------

  datatype Call =
    | Ask(mono: real, wall: real)        // allow_request
    | Peek(mono: real)                   // get_state
    | Success(mono: real)
    | Failure(wall: real)

  datatype Answer = Admitted(yes: bool) | Seen(mode: Mode) | Nothing

  function Step(st: Settings, s: Sys, c: Call): (Answer, Sys) {
    match c
    case Ask(mono, wall) => var (yes, t) := Allow(st, s, mono, wall); (Admitted(yes), t)
    case Peek(mono) => var (v, t) := Look(st, s, mono); (Seen(v.mode), t)
    case Success(mono) => (Nothing, Succeed(st, s, mono))
    case Failure(wall) => (Nothing, Fail(st, s, wall))
  }

  function Calls(st: Settings, calls: seq<Call>): Sys {
    if calls == [] then FRESH else Step(st, Calls(st, calls[..|calls| - 1]), calls[|calls| - 1]).1
  }

  /** The textbook breaker: no keys, no cache, no clock but the wall's. */
  datatype Automaton =
    | Shut(failures: int)
    | Tripped(since: real)
    | Probing(until: real, successes: int)

  function AutoStep(st: Settings, a: Automaton, c: Call): (Answer, Automaton) {
    match (a, c)
    case (Shut(_), Ask(_, _)) => (Admitted(true), a)
    case (Tripped(since), Ask(_, wall)) =>
      var due := since + st.recoveryTimeout as real;
      if st.recoveryTimeout > 0 && since != 0.0 && due != 0.0 && wall >= due
      then (Admitted(true), Probing(wall + st.recoveryTimeout as real, 0))
      else (Admitted(false), a)
    case (Probing(until, _), Ask(_, wall)) => (Admitted(wall < until), a)
    case (_, Peek(_)) => (Seen(ModeOf(a)), a)
    case (Shut(_), Success(_)) => (Nothing, Shut(0))
    case (Tripped(_), Success(_)) => (Nothing, a)
    case (Probing(until, n), Success(_)) =>
      (Nothing, if n + 1 >= st.successThreshold then Shut(0) else Probing(until, n + 1))
    case (Shut(n), Failure(wall)) => (Nothing, if n + 1 >= st.failureThreshold then Tripped(wall) else Shut(n + 1))
    case (Tripped(_), Failure(_)) => (Nothing, a)
    case (Probing(_, _), Failure(wall)) => (Nothing, Tripped(wall))
  }

  function AutoRun(st: Settings, a: Automaton, calls: seq<Call>): Automaton {
    if calls == [] then a else AutoStep(st, AutoRun(st, a, calls[..|calls| - 1]), calls[|calls| - 1]).1
  }

  function ModeOf(a: Automaton): Mode {
    match a
    case Shut(_) => Closed
    case Tripped(_) => Open
    case Probing(_, _) => HalfOpen
  }

  /** What one worker's calls keep true of Redis and its cache. */
  predicate Sound(st: Settings, s: Sys) {
    var r := s.redis;
    && (s.local.l1.Some? ==> s.local.l1.value.view == ViewOf(st, r))
    && (r.mode == Closed ==> r.failures < st.failureThreshold && r.openedAt.None? && r.lockUntil.None?)
    && (r.mode != Closed ==> r.failures >= st.failureThreshold && r.openedAt.Some?)
    && (r.mode == Open ==> r.lockUntil.None?)
    && (r.mode == HalfOpen ==> r.lockUntil.Some?)
  }

  function Abstract(st: Settings, s: Sys): Automaton
    requires Sound(st, s)
  {
    match s.redis.mode
    case Closed => Shut(s.redis.failures)
    case Open => Tripped(s.redis.openedAt.value)
    case HalfOpen => Probing(s.redis.lockUntil.value, s.local.successes)
  }

  lemma StepRefines(st: Settings, s: Sys, c: Call)
    requires st.failureThreshold >= 1 && Sound(st, s)
    ensures var (answer, t) := Step(st, s, c);
            Sound(st, t) && (answer, Abstract(st, t)) == AutoStep(st, Abstract(st, s), c)
  {
  }

  /** After any calls at any clock readings, the cache agrees with Redis and the breaker is in
      the automaton's state; its next answer, whatever the call, is the automaton's. */
  lemma {:induction false} OneWorkerIsTheAutomaton(st: Settings, calls: seq<Call>)
    requires st.failureThreshold >= 1
    ensures var s, a := Calls(st, calls), AutoRun(st, Shut(0), calls);
            && Sound(st, s)
            && Abstract(st, s) == a
            && forall c :: Step(st, s, c).0 == AutoStep(st, a, c).0
  {
    if calls != [] {
      OneWorkerIsTheAutomaton(st, calls[..|calls| - 1]);
      StepRefines(st, Calls(st, calls[..|calls| - 1]), calls[|calls| - 1]);
    }
    forall c: Call
      ensures Step(st, Calls(st, calls), c).0 == AutoStep(st, AutoRun(st, Shut(0), calls), c).0
    {
      StepRefines(st, Calls(st, calls), c);
    }
  }

  // ---------- When it opens, and when it closes ----------

  /** Failures since the last success. */
  function Streak(calls: seq<Call>): nat {
    if calls == [] then 0
    else
      var earlier := calls[..|calls| - 1];
      match calls[|calls| - 1]
      case Failure(_) => Streak(earlier) + 1
      case Success(_) => 0
      case _ => Streak(earlier)
  }

  /** Closed after every one of these calls, and before the first. */
  predicate ClosedThroughout(st: Settings, calls: seq<Call>) {
    Calls(st, calls).redis.mode == Closed && (calls != [] ==> ClosedThroughout(st, calls[..|calls| - 1]))
  }

  /** No streak, at any point of the calls, at the threshold. */
  predicate BelowThroughout(st: Settings, calls: seq<Call>) {
    Streak(calls) < st.failureThreshold && (calls != [] ==> BelowThroughout(st, calls[..|calls| - 1]))
  }

  /** From a fresh start the circuit stays closed exactly as long as no streak of failures has
      reached the threshold, and the counter is that streak. */
  lemma {:induction false} OpensExactlyAtTheThreshold(st: Settings, calls: seq<Call>)
    requires st.failureThreshold >= 1
    ensures ClosedThroughout(st, calls) <==> BelowThroughout(st, calls)
    ensures BelowThroughout(st, calls) ==> Calls(st, calls).redis.failures == Streak(calls)
  {
    if calls != [] {
      OpensExactlyAtTheThreshold(st, calls[..|calls| - 1]);
      CloserLook(st, calls);
    }
  }

  /** One call more, while the circuit is closed and the counter is the streak. */
  lemma CloserLook(st: Settings, calls: seq<Call>)
    requires st.failureThreshold >= 1 && calls != []
    ensures var earlier := calls[..|calls| - 1];
            Calls(st, earlier).redis.mode == Closed && Calls(st, earlier).redis.failures == Streak(earlier) ==>
              && (Calls(st, calls).redis.mode == Closed <==> Streak(calls) < st.failureThreshold)
              && (Calls(st, calls).redis.mode == Closed ==> Calls(st, calls).redis.failures == Streak(calls))
  {
    OneWorkerIsTheAutomaton(st, calls[..|calls| - 1]);
    StepRefines(st, Calls(st, calls[..|calls| - 1]), calls[|calls| - 1]);
  }

  /** Any failure while half-open opens the circuit again, from now, and drops the probe lock. */
  lemma HalfOpenFailureReopens(st: Settings, s: Sys, wall: real)
    requires Sound(st, s) && s.redis.mode == HalfOpen
    ensures var r := Fail(st, s, wall).redis; r.mode == Open && r.openedAt == Some(wall) && r.lockUntil == None
  {
  }

  function Successes(calls: seq<Call>): nat {
    if calls == [] then 0
    else Successes(calls[..|calls| - 1]) + if calls[|calls| - 1].Success? then 1 else 0
  }

  function CallsFrom(st: Settings, s: Sys, calls: seq<Call>): Sys {
    if calls == [] then s else Step(st, CallsFrom(st, s, calls[..|calls| - 1]), calls[|calls| - 1]).1
  }

  /** Once a probe is won, and until something fails, the circuit closes exactly at the
      success_threshold-th success, the lock's expiry notwithstanding. */
  lemma {:induction false} ClosesExactlyAtTheThreshold(st: Settings, s: Sys, calls: seq<Call>)
    requires st.failureThreshold >= 1
    requires Sound(st, s) && s.redis.mode == HalfOpen && s.local.successes == 0
    requires forall c :: c in calls ==> !c.Failure?
    ensures var t := CallsFrom(st, s, calls);
            var n := Successes(calls);
            && Sound(st, t)
            && (n > 0 && n >= st.successThreshold ==> t.redis.mode == Closed)
            && (n == 0 || n < st.successThreshold ==>
                  t.redis.mode == HalfOpen && t.local.successes == n && t.redis.lockUntil == s.redis.lockUntil)
  {
    if calls != [] {
      var earlier, c := calls[..|calls| - 1], calls[|calls| - 1];
      assert c in calls && forall d :: d in earlier ==> d in calls;
      ClosesExactlyAtTheThreshold(st, s, earlier);
      StepRefines(st, CallsFrom(st, s, earlier), c);
      StepWithoutFailure(st, CallsFrom(st, s, earlier), c);
    }
  }

  lemma StepWithoutFailure(st: Settings, s: Sys, c: Call)
    requires Sound(st, s) && !c.Failure?
    ensures var t := Step(st, s, c).1;
            && (s.redis.mode == Closed ==> t.redis.mode == Closed)
            && (s.redis.mode == HalfOpen && !c.Success? ==>
                  t.redis.mode == HalfOpen && t.local.successes == s.local.successes && t.redis.lockUntil == s.redis.lockUntil)
            && (s.redis.mode == HalfOpen && c.Success? ==>
                  if s.local.successes + 1 >= st.successThreshold then t.redis.mode == Closed
                  else t.redis.mode == HalfOpen && t.local.successes == s.local.successes + 1
                       && t.redis.lockUntil == s.redis.lockUntil)
  {
  }
}
