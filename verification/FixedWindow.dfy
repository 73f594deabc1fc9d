/** Many processes counting attempts on one key at once: reading the clock, the MULTI that
    increments, and the EXPIRE that may follow are separate steps. */
module FixedWindow {
  import opened Common
  import opened RateLimiter

  // ---------- The key's counters, a Redis step at a time ----------

  /** `expiring` buckets are owed an EXPIRE by a process whose increment found none. */
  datatype Store = Store(now: int, counters: map<int, Counter>, expiring: seq<int>)

  predicate Standing(st: Store, b: int) {
    b in st.counters && (st.counters[b].expires.Some? ==> st.now < st.counters[b].expires.value)
  }

  function Count(st: Store, b: int): int {
    if Standing(st, b) then st.counters[b].value else 0
  }

  function Later(st: Store, seconds: nat): Store {
    st.(now := st.now + seconds)
  }

  /** MULTI, INCRBY, TTL, EXEC. */
  function Bumped(st: Store, b: int, amount: int): Store {
    var expires := if Standing(st, b) then st.counters[b].expires else None;
    st.(counters := st.counters[b := Counter(Count(st, b) + amount, expires)],
        expiring := if expires.None? then st.expiring + [b] else st.expiring)
  }

  /** EXPIRE, which does nothing to a key that is gone. */
  function Expired(d: Dimension, st: Store, i: nat): Store {
    if i >= |st.expiring| then st
    else
      var b := st.expiring[i];
      st.(expiring := Dropped(st.expiring, i),
          counters := if Standing(st, b) then st.counters[b := st.counters[b].(expires := Some(st.now + Ttl(d)))]
                      else st.counters)
  }

  /** The counter of bucket b is `total` for a whole lifetime from the bucket's beginning. */
  predicate Keeps(d: Dimension, st: Store, b: int, total: int) {
    if b in st.counters then
      && b * Window(d) <= st.now
      && (st.counters[b].expires.Some? ==> st.counters[b].expires.value >= b * Window(d) + Ttl(d))
      && (st.now < b * Window(d) + Ttl(d) ==> st.counters[b].value == total)
    else total == 0
  }

  predicate BegunBuckets(d: Dimension, st: Store) {
    forall i :: 0 <= i < |st.expiring| ==> st.expiring[i] * Window(d) <= st.now
  }

  lemma KeptIsCounted(d: Dimension, st: Store, b: int, total: int)
    requires Keeps(d, st, b, total) && st.now < b * Window(d) + Ttl(d)
    ensures Count(st, b) == total
  {
  }

  lemma BumpKeeps(d: Dimension, st: Store, at: int, amount: int, b: int, total: int)
    requires Keeps(d, st, b, total) && at * Window(d) <= st.now
    ensures Keeps(d, Bumped(st, at, amount), b, if b == at then total + amount else total)
  {
  }

  lemma BumpBegun(d: Dimension, st: Store, at: int, amount: int)
    requires BegunBuckets(d, st) && at * Window(d) <= st.now
    ensures BegunBuckets(d, Bumped(st, at, amount))
  {
  }

  lemma ExpireKeeps(d: Dimension, st: Store, i: nat, b: int, total: int)
    requires Keeps(d, st, b, total) && BegunBuckets(d, st)
    ensures Keeps(d, Expired(d, st, i), b, total)
    ensures BegunBuckets(d, Expired(d, st, i))
  {
  }

  lemma LaterKeeps(d: Dimension, st: Store, seconds: nat, b: int, total: int)
    requires Keeps(d, st, b, total) && BegunBuckets(d, st)
    ensures Keeps(d, Later(st, seconds), b, total)
    ensures BegunBuckets(d, Later(st, seconds))
  {
  }

  // ---------- Attempts ----------

  /** An attempt: when it read the clock, when Redis counted it, and what it was told. */
  datatype Verdict = Verdict(begun: int, at: int, allowed: bool)

  /** `waiting` attempts have read the clock and not yet reached Redis. */
  datatype State = State(store: Store, waiting: seq<int>, log: seq<Verdict>)

  datatype Action = Tick(seconds: nat) | Begin | Increment(i: nat) | Expire(i: nat)

  /** The key being counted, and its ceiling. */
  datatype Rule = Rule(dim: Dimension, limit: int)

  function Bucket(r: Rule, begun: int): int {
    BucketAt(r.dim, begun)
  }

  function Next(r: Rule, s: State, a: Action): State {
    match a
    case Tick(d) => s.(store := Later(s.store, d))
    case Begin => s.(waiting := s.waiting + [s.store.now])
    case Increment(i) => if i < |s.waiting| then Incremented(r, s, i) else s
    case Expire(i) => s.(store := Expired(r.dim, s.store, i))
  }

  function Incremented(r: Rule, s: State, i: nat): State
    requires i < |s.waiting|
  {
    var b := Bucket(r, s.waiting[i]);
    State(Bumped(s.store, b, 1), Dropped(s.waiting, i),
          s.log + [Verdict(s.waiting[i], s.store.now, Count(s.store, b) + 1 <= r.limit)])
  }

  const START := State(Store(0, map[], []), [], [])

  function RunFrom(r: Rule, s: State, acts: seq<Action>): State {
    if acts == [] then s else Next(r, RunFrom(r, s, acts[..|acts| - 1]), acts[|acts| - 1])
  }

  function Run(r: Rule, acts: seq<Action>): State {
    RunFrom(r, START, acts)
  }

  /** An attempt reaches Redis before its bucket's counter could have expired. */
  predicate InTime(r: Rule, s: State, a: Action) {
    a.Increment? && a.i < |s.waiting| ==> s.store.now < Bucket(r, s.waiting[a.i]) * Window(r.dim) + Ttl(r.dim)
  }

  predicate Prompt(r: Rule, s: State, acts: seq<Action>) {
    acts != [] ==>
      && Prompt(r, s, acts[..|acts| - 1])
      && InTime(r, RunFrom(r, s, acts[..|acts| - 1]), acts[|acts| - 1])
  }

  // ---------- Counting verdicts ----------

  function Tried(r: Rule, b: int): Verdict -> int {
    (v: Verdict) => if Bucket(r, v.begun) == b then 1 else 0
  }

  function Admitted(r: Rule, b: int): Verdict -> int {
    (v: Verdict) => if Bucket(r, v.begun) == b && v.allowed then 1 else 0
  }

  function AdmittedBetween(from: int, until: int): Verdict -> int {
    (v: Verdict) => if from <= v.begun < until && v.allowed then 1 else 0
  }

  function AdmittedAt(from: int, until: int): Verdict -> int {
    (v: Verdict) => if from <= v.at < until && v.allowed then 1 else 0
  }

  // ---------- Exactness ----------

  /** An attempt on bucket b that finds its counter there once, and expired. */
  predicate Restarts(r: Rule, s: State, a: Action, b: int) {
    a.Increment? && a.i < |s.waiting| && Bucket(r, s.waiting[a.i]) == b && b in s.store.counters && !Standing(s.store, b)
  }

  /** No attempt on b found its counter expired. */
  predicate Unbroken(r: Rule, acts: seq<Action>, b: int) {
    acts != [] ==>
      && Unbroken(r, acts[..|acts| - 1], b)
      && !Restarts(r, Run(r, acts[..|acts| - 1]), acts[|acts| - 1], b)
  }

  /** Unbroken, a counter holds all its attempts and the first of them up to the limit were let in.
      Broken, it holds fewer, and of attempts beyond the limit at least one more was let in. */
  predicate LifeAt(r: Rule, s: State, b: int, unbroken: bool) {
    var n, admitted, limit := Sum(s.log, Tried(r, b)), Sum(s.log, Admitted(r, b)), Max(0, r.limit);
    && n >= 0
    && (b in s.store.counters <==> n > 0)
    && (b in s.store.counters ==> s.store.counters[b].value >= 1)
    && (if unbroken then
          && (b in s.store.counters ==> s.store.counters[b].value == n)
          && admitted == Min(n, limit)
        else
          && b in s.store.counters && s.store.counters[b].value < n
          && (if limit == 0 then admitted == 0 else Min(n, limit + 1) <= admitted <= n))
  }

  lemma IncrementLives(r: Rule, s: State, i: nat, b: int, unbroken: bool)
    requires i < |s.waiting| && LifeAt(r, s, b, unbroken)
    ensures LifeAt(r, Incremented(r, s, i), b, unbroken && !Restarts(r, s, Increment(i), b))
  {
    var at := Bucket(r, s.waiting[i]);
    var v := Verdict(s.waiting[i], s.store.now, Count(s.store, at) + 1 <= r.limit);
    SumAppend(s.log, v, Tried(r, b));
    SumAppend(s.log, v, Admitted(r, b));
  }

  lemma OthersLive(r: Rule, s: State, a: Action, b: int, unbroken: bool)
    requires !a.Increment? && LifeAt(r, s, b, unbroken)
    ensures LifeAt(r, Next(r, s, a), b, unbroken)
  {
    var s' := Next(r, s, a);
    assert s'.log == s.log && (b in s'.store.counters <==> b in s.store.counters);
    assert b in s.store.counters ==> s'.store.counters[b].value == s.store.counters[b].value;
  }

  lemma StepLives(r: Rule, s: State, a: Action, b: int, unbroken: bool)
    requires LifeAt(r, s, b, unbroken)
    ensures LifeAt(r, Next(r, s, a), b, unbroken && !Restarts(r, s, a, b))
  {
    if !a.Increment? {
      OthersLive(r, s, a, b, unbroken);
    } else if a.i < |s.waiting| {
      IncrementLives(r, s, a.i, b, unbroken);
    }
  }

  lemma {:induction false} RunLives(r: Rule, acts: seq<Action>, b: int)
    ensures LifeAt(r, Run(r, acts), b, Unbroken(r, acts, b))
  {
    if acts != [] {
      var n := |acts| - 1;
      RunLives(r, acts[..n], b);
      StepLives(r, Run(r, acts[..n]), acts[n], b, Unbroken(r, acts[..n], b));
    }
  }

  /** Whatever the delays, an attempt is counted with all before it on its bucket exactly if none of them,
      itself included, found the counter expired. */
  lemma CounterIsExactIffUnbroken(r: Rule, acts: seq<Action>, b: int)
    requires Sum(Run(r, acts).log, Tried(r, b)) > 0
    ensures b in Run(r, acts).store.counters
    ensures Run(r, acts).store.counters[b].value == Sum(Run(r, acts).log, Tried(r, b)) <==> Unbroken(r, acts, b)
  {
    RunLives(r, acts, b);
  }

  /** Whatever the interleaving and the delays, of n attempts in a bucket exactly min(n, limit) are
      allowed if and only if there were no more than the limit, or there is no limit to keep, or the
      counter never expired between them. */
  lemma ExactlyTheLimitIff(r: Rule, acts: seq<Action>, b: int)
    ensures var log := Run(r, acts).log;
            Sum(log, Admitted(r, b)) == Min(Sum(log, Tried(r, b)), Max(0, r.limit)) <==>
            Sum(log, Tried(r, b)) <= r.limit || r.limit <= 0 || Unbroken(r, acts, b)
  {
    RunLives(r, acts, b);
  }

  // ---------- Promptness ----------

  /** A bucket's counter holds all its attempts for a lifetime from the bucket's beginning. */
  predicate CountedAt(r: Rule, s: State, b: int) {
    Keeps(r.dim, s.store, b, Sum(s.log, Tried(r, b)))
  }

  ghost predicate Counted(r: Rule, s: State) {
    && (forall b :: CountedAt(r, s, b))
    && (forall i :: 0 <= i < |s.waiting| ==> s.waiting[i] <= s.store.now)
    && BegunBuckets(r.dim, s.store)
    && AllTimely(r, s.log)
  }

  predicate AllTimely(r: Rule, log: seq<Verdict>) {
    forall v :: v in log ==> Timely(r, v)
  }

  lemma OneMoreTimely(r: Rule, log: seq<Verdict>, v: Verdict)
    requires AllTimely(r, log) && Timely(r, v)
    ensures AllTimely(r, log + [v])
  {
  }

  predicate Timely(r: Rule, v: Verdict) {
    v.begun <= v.at < Bucket(r, v.begun) * Window(r.dim) + Ttl(r.dim)
  }

  lemma StartsBefore(r: Rule, at: int)
    ensures Bucket(r, at) * Window(r.dim) <= at < (Bucket(r, at) + 1) * Window(r.dim)
  {
  }

  lemma IncrementCounts(r: Rule, s: State, i: nat)
    requires Counted(r, s) && i < |s.waiting| && InTime(r, s, Increment(i))
    ensures Counted(r, Incremented(r, s, i))
  {
    StartsBefore(r, s.waiting[i]);
    BumpBegun(r.dim, s.store, Bucket(r, s.waiting[i]), 1);
    OneMoreTimely(r, s.log, Incremented(r, s, i).log[|s.log|]);
    assert forall j :: 0 <= j < |s.waiting| - 1 ==> Dropped(s.waiting, i)[j] in s.waiting;
    forall b
      ensures CountedAt(r, Incremented(r, s, i), b)
    {
      assert CountedAt(r, s, b);
      IncrementCountsAt(r, s, i, b);
    }
  }

  lemma IncrementCountsAt(r: Rule, s: State, i: nat, b: int)
    requires i < |s.waiting| && s.waiting[i] <= s.store.now && CountedAt(r, s, b)
    ensures CountedAt(r, Incremented(r, s, i), b)
  {
    var at := Bucket(r, s.waiting[i]);
    StartsBefore(r, s.waiting[i]);
    var v := Verdict(s.waiting[i], s.store.now, Count(s.store, at) + 1 <= r.limit);
    SumAppend(s.log, v, Tried(r, b));
    BumpKeeps(r.dim, s.store, at, 1, b, Sum(s.log, Tried(r, b)));
  }

  lemma OtherStepsCount(r: Rule, s: State, a: Action)
    requires Counted(r, s) && !a.Increment?
    ensures Counted(r, Next(r, s, a))
  {
    forall b
      ensures CountedAt(r, Next(r, s, a), b)
      ensures BegunBuckets(r.dim, Next(r, s, a).store)
    {
      assert CountedAt(r, s, b);
      var n := Sum(s.log, Tried(r, b));
      match a
      case Tick(d) => LaterKeeps(r.dim, s.store, d, b, n);
      case Expire(i) => ExpireKeeps(r.dim, s.store, i, b, n);
      case _ =>
    }
    assert CountedAt(r, Next(r, s, a), 0);
  }

  lemma {:induction false} RunCounts(r: Rule, s: State, acts: seq<Action>)
    requires Counted(r, s) && Prompt(r, s, acts)
    ensures Counted(r, RunFrom(r, s, acts))
  {
    if acts != [] {
      var n := |acts| - 1;
      RunCounts(r, s, acts[..n]);
      var t := RunFrom(r, s, acts[..n]);
      if !acts[n].Increment? {
        OtherStepsCount(r, t, acts[n]);
      } else if acts[n].i < |t.waiting| {
        IncrementCounts(r, t, acts[n].i);
      }
    }
  }

  /** Attempts that reach Redis within a counter's lifetime of their bucket never find it expired. */
  lemma {:induction false} PromptIsUnbroken(r: Rule, acts: seq<Action>, b: int)
    requires Prompt(r, START, acts)
    ensures Unbroken(r, acts, b)
  {
    if acts != [] {
      var n := |acts| - 1;
      PromptIsUnbroken(r, acts[..n], b);
      RunCounts(r, START, acts[..n]);
      assert CountedAt(r, Run(r, acts[..n]), b);
    }
  }

  /** So of n of them in a bucket exactly min(n, limit) are allowed, whatever the interleaving. */
  lemma ExactlyTheLimit(r: Rule, acts: seq<Action>, b: int)
    requires Prompt(r, START, acts)
    ensures var log := Run(r, acts).log;
            Sum(log, Admitted(r, b)) == Min(Sum(log, Tried(r, b)), Max(0, r.limit))
  {
    PromptIsUnbroken(r, acts, b);
    RunLives(r, acts, b);
  }

  // ---------- Any stretch as long as a window ----------

  lemma NoMoreThanLimit(r: Rule, acts: seq<Action>, b: int)
    requires Prompt(r, START, acts)
    ensures Sum(Run(r, acts).log, Admitted(r, b)) <= Max(0, r.limit)
  {
    ExactlyTheLimit(r, acts, b);
  }

  /** No stretch as long as a window, wherever it starts, admits more than twice the limit of the
      attempts that read the clock in it. */
  lemma AtMostTwice(r: Rule, acts: seq<Action>, from: int)
    requires Prompt(r, START, acts)
    ensures Sum(Run(r, acts).log, AdmittedBetween(from, from + Window(r.dim))) <= 2 * Max(0, r.limit)
  {
    var b := Bucket(r, from);
    StretchIsTwoBuckets(r, Run(r, acts).log, from);
    NoMoreThanLimit(r, acts, b);
    NoMoreThanLimit(r, acts, b + 1);
  }

  lemma StretchIsTwoBuckets(r: Rule, log: seq<Verdict>, from: int)
    ensures var b := Bucket(r, from);
            Sum(log, AdmittedBetween(from, from + Window(r.dim))) <= Sum(log, Admitted(r, b)) + Sum(log, Admitted(r, b + 1))
  {
    var b := Bucket(r, from);
    forall v | v in log
      ensures AdmittedBetween(from, from + Window(r.dim))(v) <= Admitted(r, b)(v) + Admitted(r, b + 1)(v)
    {
      if from <= v.begun < from + Window(r.dim) {
        Straddles(r, from, v.begun);
      }
    }
    SumCovered(log, AdmittedBetween(from, from + Window(r.dim)), Admitted(r, b), Admitted(r, b + 1));
  }

  lemma Straddles(r: Rule, from: int, at: int)
    requires from <= at < from + Window(r.dim)
    ensures Bucket(r, at) == Bucket(r, from) || Bucket(r, at) == Bucket(r, from) + 1
  {
  }

  /** By the moment Redis counted them, twice the limit again, if every attempt is counted inside its own
      window. */
  lemma AtMostTwiceAtRedis(r: Rule, acts: seq<Action>, from: int)
    requires Prompt(r, START, acts) && AllInTheirWindow(r, Run(r, acts).log)
    ensures Sum(Run(r, acts).log, AdmittedAt(from, from + Window(r.dim))) <= 2 * Max(0, r.limit)
  {
    var b := Bucket(r, from);
    CountedInTwo(r, Run(r, acts).log, from);
    NoMoreThanLimit(r, acts, b);
    NoMoreThanLimit(r, acts, b + 1);
  }

  predicate AllInTheirWindow(r: Rule, log: seq<Verdict>) {
    forall v :: v in log ==> Bucket(r, v.at) == Bucket(r, v.begun)
  }

  lemma CountedInTwo(r: Rule, log: seq<Verdict>, from: int)
    requires AllInTheirWindow(r, log)
    ensures var b := Bucket(r, from);
            Sum(log, AdmittedAt(from, from + Window(r.dim))) <= Sum(log, Admitted(r, b)) + Sum(log, Admitted(r, b + 1))
  {
    var b := Bucket(r, from);
    forall v | v in log
      ensures AdmittedAt(from, from + Window(r.dim))(v) <= Admitted(r, b)(v) + Admitted(r, b + 1)(v)
    {
      if from <= v.at < from + Window(r.dim) {
        Straddles(r, from, v.at);
      }
    }
    SumCovered(log, AdmittedAt(from, from + Window(r.dim)), Admitted(r, b), Admitted(r, b + 1));
  }

  /** And three times, however late they are, short of the counter's expiry: the bucket before may
      still be arriving. */
  lemma AtMostThriceAtRedis(r: Rule, acts: seq<Action>, from: int)
    requires Prompt(r, START, acts)
    ensures Sum(Run(r, acts).log, AdmittedAt(from, from + Window(r.dim))) <= 3 * Max(0, r.limit)
  {
    var b := Bucket(r, from);
    RunCounts(r, START, acts);
    CountedInThree(r, Run(r, acts).log, from);
    NoMoreThanLimit(r, acts, b - 1);
    NoMoreThanLimit(r, acts, b);
    NoMoreThanLimit(r, acts, b + 1);
  }

  function AdmittedOfTwo(r: Rule, b: int): Verdict -> int {
    (v: Verdict) => if b <= Bucket(r, v.begun) <= b + 1 && v.allowed then 1 else 0
  }

  lemma CountedInThree(r: Rule, log: seq<Verdict>, from: int)
    requires AllTimely(r, log)
    ensures var b := Bucket(r, from);
            Sum(log, AdmittedAt(from, from + Window(r.dim))) <=
            Sum(log, Admitted(r, b - 1)) + Sum(log, Admitted(r, b)) + Sum(log, Admitted(r, b + 1))
  {
    var b := Bucket(r, from);
    forall v | v in log
      ensures AdmittedAt(from, from + Window(r.dim))(v) <= AdmittedOfTwo(r, b - 1)(v) + Admitted(r, b + 1)(v)
    {
      if from <= v.at < from + Window(r.dim) {
        ThreeBuckets(r, from, v);
      }
    }
    SumCovered(log, AdmittedAt(from, from + Window(r.dim)), AdmittedOfTwo(r, b - 1), Admitted(r, b + 1));
    SumCovered(log, AdmittedOfTwo(r, b - 1), Admitted(r, b - 1), Admitted(r, b));
  }

  lemma ThreeBuckets(r: Rule, from: int, v: Verdict)
    requires from <= v.at < from + Window(r.dim) && Timely(r, v)
    ensures Bucket(r, from) - 1 <= Bucket(r, v.begun) <= Bucket(r, from) + 1
  {
    StartsBefore(r, from);
    StartsBefore(r, v.begun);
  }

  // ---------- The bound is reached, and promptness is needed ----------

  lemma {:induction false} RunSplits(r: Rule, s: State, first: seq<Action>, then_: seq<Action>)
    ensures RunFrom(r, s, first + then_) == RunFrom(r, RunFrom(r, s, first), then_)
    ensures Prompt(r, s, first + then_) <==> Prompt(r, s, first) && Prompt(r, RunFrom(r, s, first), then_)
  {
    if then_ == [] {
      assert first + then_ == first;
    } else {
      var n := |then_| - 1;
      assert (first + then_)[..|first| + n] == first + then_[..n];
      RunSplits(r, s, first, then_[..n]);
    }
  }

  /** n attempts made one after another in the same second. */
  function Burst(n: nat): seq<Action> {
    if n == 0 then [] else Burst(n - 1) + [Begin, Increment(0)]
  }

  /** n more verdicts, on attempts begun at `begun` and counted at `at`. */
  predicate More(before: seq<Verdict>, after: seq<Verdict>, n: nat, begun: int, at: int) {
    && |after| == |before| + n
    && (forall i :: 0 <= i < |before| ==> after[i] == before[i])
    && (forall i :: |before| <= i < |after| ==> after[i].begun == begun && after[i].at == at)
  }

  predicate Quiet(s: State, at: int) {
    s.waiting == [] && s.store.now == at
  }

  lemma MoreAndMore(a: seq<Verdict>, b: seq<Verdict>, c: seq<Verdict>, n: nat, begun: int, at: int)
    requires More(a, b, n, begun, at) && More(b, c, 1, begun, at)
    ensures More(a, c, n + 1, begun, at)
  {
  }

  /** These actions are n attempts begun at `at`, promptly made and none left waiting. */
  predicate Bursts(r: Rule, s: State, acts: seq<Action>, n: nat, at: int) {
    Prompt(r, s, acts) && Quiet(RunFrom(r, s, acts), at) && More(s.log, RunFrom(r, s, acts).log, n, at, at)
  }

  lemma BurstsOnce(r: Rule, s: State, acts: seq<Action>, n: nat, at: int)
    requires Bursts(r, s, acts, n, at)
    ensures Bursts(r, s, acts + [Begin, Increment(0)], n + 1, at)
  {
    var once := [Begin, Increment(0)];
    var t := RunFrom(r, s, acts);
    TryOnce(r, t, at);
    RunSplits(r, s, acts, once);
    MoreAndMore(s.log, t.log, RunFrom(r, t, once).log, n, at, at);
  }

  lemma {:induction false} BurstTries(r: Rule, s: State, n: nat, at: int)
    requires Quiet(s, at)
    ensures Bursts(r, s, Burst(n), n, at)
  {
    if n > 0 {
      BurstTries(r, s, n - 1, at);
      BurstsOnce(r, s, Burst(n - 1), n - 1, at);
    }
  }

  lemma TryOnce(r: Rule, t: State, at: int)
    requires Quiet(t, at)
    ensures Bursts(r, t, [Begin, Increment(0)], 1, at)
  {
    var acts := [Begin, Increment(0)];
    assert acts[..1] == [Begin] && acts[..1][..0] == [];
    assert RunFrom(r, t, acts[..1][..0]) == t;
    assert RunFrom(r, t, acts[..1]) == t.(waiting := [t.store.now]);
    StartsBefore(r, t.store.now);
  }

  /** Not a sliding window: twice the limit gets through in two seconds, at every limit. */
  lemma TwiceInTwoSeconds(r: Rule)
    requires r.limit >= 0
    ensures exists acts :: Prompt(r, START, acts)
              && Sum(Run(r, acts).log, AdmittedBetween(Window(r.dim) - 1, Window(r.dim) + 1)) == 2 * r.limit
  {
    var acts := Straddling(r);
    StraddlingRun(r);
    TwoBursts(r, Run(r, acts).log);
    ExactlyTheLimit(r, acts, 0);
    ExactlyTheLimit(r, acts, 1);
  }

  /** A burst in the last second of one window and another in the first of the next. */
  function Straddling(r: Rule): seq<Action>
    requires r.limit >= 0
  {
    ([Tick(Window(r.dim) - 1)] + Burst(r.limit)) + ([Tick(1)] + Burst(r.limit))
  }

  lemma StraddlingRun(r: Rule)
    requires r.limit >= 0
    ensures Prompt(r, START, Straddling(r)) && TwoSeconds(r, Run(r, Straddling(r)).log)
  {
    var w := Window(r.dim);
    var first, second := [Tick(w - 1)] + Burst(r.limit), [Tick(1)] + Burst(r.limit);
    TickThenBurst(r, START, 0, w - 1, r.limit);
    TickThenBurst(r, RunFrom(r, START, first), w - 1, 1, r.limit);
    RunSplits(r, START, first, second);
    MoreTwice([], RunFrom(r, START, first).log, Run(r, Straddling(r)).log, r.limit, w - 1, w);
  }

  predicate TwoSeconds(r: Rule, log: seq<Verdict>) {
    && |log| == 2 * r.limit
    && forall i :: 0 <= i < |log| ==> log[i].begun == if i < r.limit then Window(r.dim) - 1 else Window(r.dim)
  }

  lemma MoreTwice(a: seq<Verdict>, b: seq<Verdict>, c: seq<Verdict>, n: nat, at: int, then_: int)
    requires a == [] && More(a, b, n, at, at) && More(b, c, n, then_, then_)
    ensures |c| == 2 * n && forall i :: 0 <= i < |c| ==> c[i].begun == if i < n then at else then_
  {
  }

  lemma TickThenBurst(r: Rule, s: State, at: int, d: nat, n: nat)
    requires Quiet(s, at)
    ensures var acts := [Tick(d)] + Burst(n);
            && Prompt(r, s, acts) && Quiet(RunFrom(r, s, acts), at + d)
            && More(s.log, RunFrom(r, s, acts).log, n, at + d, at + d)
  {
    assert [Tick(d)][..0] == [] && RunFrom(r, s, []) == s;
    RunSplits(r, s, [Tick(d)], Burst(n));
    BurstTries(r, s.(store := Later(s.store, d)), n, at + d);
  }

  lemma TwoBursts(r: Rule, log: seq<Verdict>)
    requires r.limit >= 0 && TwoSeconds(r, log)
    ensures Sum(log, Tried(r, 0)) == r.limit && Sum(log, Tried(r, 1)) == r.limit
    ensures Sum(log, AdmittedBetween(Window(r.dim) - 1, Window(r.dim) + 1)) ==
            Sum(log, Admitted(r, 0)) + Sum(log, Admitted(r, 1))
  {
    var w := Window(r.dim);
    SumOnes(log, Tried(r, 0), 0, r.limit);
    SumOnes(log, Tried(r, 1), r.limit, |log|);
    SumMinus(log, AdmittedBetween(w - 1, w + 1), Admitted(r, 0), Admitted(r, 1));
  }

  function Zeros(n: nat): seq<int> {
    if n == 0 then [] else Zeros(n - 1) + [0]
  }

  lemma {:induction false} ZerosAre(n: nat)
    ensures |Zeros(n)| == n && forall i :: 0 <= i < n ==> Zeros(n)[i] == 0
  {
    if n > 0 {
      ZerosAre(n - 1);
    }
  }

  function Begins(n: nat): seq<Action> {
    if n == 0 then [] else Begins(n - 1) + [Begin]
  }

  function Arrivals(n: nat): seq<Action> {
    if n == 0 then [] else Arrivals(n - 1) + [Increment(0)]
  }

  lemma {:induction false} AllBegin(r: Rule, n: nat)
    ensures Prompt(r, START, Begins(n)) && Run(r, Begins(n)) == START.(waiting := Zeros(n))
  {
    if n > 0 {
      AllBegin(r, n - 1);
      OneMore(r, Begins(n - 1), Begin);
      assert Begins(n)[..|Begins(n)| - 1] == Begins(n - 1);
    }
  }

  /** Of `waiting` attempts begun at 0, n have been counted at `at`, inside the counter's lifetime. */
  predicate Arrived(r: Rule, s: State, acts: seq<Action>, waiting: nat, n: nat, at: int) {
    && n <= waiting
    && Prompt(r, s, acts)
    && RunFrom(r, s, acts).waiting == Zeros(waiting - n) && RunFrom(r, s, acts).store.now == at
    && More(s.log, RunFrom(r, s, acts).log, n, 0, at)
  }

  lemma FirstZeroGoes(n: nat)
    requires n > 0
    ensures |Zeros(n)| == n && Zeros(n)[0] == 0 && Dropped(Zeros(n), 0) == Zeros(n - 1)
  {
    ZerosAre(n);
    ZerosAre(n - 1);
  }

  lemma OneArrives(r: Rule, t: State, n: nat, at: int)
    requires n > 0 && t.waiting == Zeros(n) && t.store.now == at && 0 <= at < Ttl(r.dim)
    ensures InTime(r, t, Increment(0))
    ensures var t' := Next(r, t, Increment(0));
            t'.waiting == Zeros(n - 1) && t'.store.now == at && More(t.log, t'.log, 1, 0, at)
  {
    FirstZeroGoes(n);
    assert Bucket(r, 0) == 0;
  }

  lemma RunOneMore(r: Rule, s: State, acts: seq<Action>, a: Action)
    ensures RunFrom(r, s, acts + [a]) == Next(r, RunFrom(r, s, acts), a)
    ensures Prompt(r, s, acts + [a]) <==> Prompt(r, s, acts) && InTime(r, RunFrom(r, s, acts), a)
  {
    assert (acts + [a])[..|acts|] == acts;
  }

  lemma ArrivedOnce(r: Rule, s: State, acts: seq<Action>, waiting: nat, n: nat, at: int)
    requires Arrived(r, s, acts, waiting, n, at) && n < waiting && 0 <= at < Ttl(r.dim)
    ensures Arrived(r, s, acts + [Increment(0)], waiting, n + 1, at)
  {
    var t := RunFrom(r, s, acts);
    OneArrives(r, t, waiting - n, at);
    RunOneMore(r, s, acts, Increment(0));
    MoreAndMore(s.log, t.log, Next(r, t, Increment(0)).log, n, 0, at);
  }

  lemma NoneArrived(r: Rule, s: State, waiting: nat, at: int)
    requires s.waiting == Zeros(waiting) && s.store.now == at
    ensures Arrived(r, s, [], waiting, 0, at)
  {
  }

  lemma ArrivalSteps(n: nat)
    requires n > 0
    ensures Arrivals(n) == Arrivals(n - 1) + [Increment(0)]
  {
  }

  lemma {:induction false} AllArrive(r: Rule, s: State, waiting: nat, n: nat, at: int)
    requires s.waiting == Zeros(waiting) && n <= waiting && s.store.now == at && 0 <= at < Ttl(r.dim)
    ensures Arrived(r, s, Arrivals(n), waiting, n, at)
  {
    if n == 0 {
      NoneArrived(r, s, waiting, at);
    } else {
      AllArrive(r, s, waiting, n - 1, at);
      ArrivedOnce(r, s, Arrivals(n - 1), waiting, n - 1, at);
      ArrivalSteps(n);
    }
  }

  /** A whole limit of attempts held up from the first second to the last of their counter's life. */
  function HeldUpTogether(r: Rule): seq<Action>
    requires r.limit >= 0
  {
    (Begins(r.limit) + [Tick(Ttl(r.dim) - 1)]) + Arrivals(r.limit)
  }

  lemma HeldUpRun(r: Rule)
    requires r.limit >= 0
    ensures var s := Run(r, HeldUpTogether(r));
            Prompt(r, START, HeldUpTogether(r)) && Quiet(s, Ttl(r.dim) - 1) && More([], s.log, r.limit, 0, Ttl(r.dim) - 1)
  {
    var begun := Begins(r.limit) + [Tick(Ttl(r.dim) - 1)];
    AllBegin(r, r.limit);
    OneMore(r, Begins(r.limit), Tick(Ttl(r.dim) - 1));
    assert begun[..|begun| - 1] == Begins(r.limit);
    AllArrive(r, Run(r, begun), r.limit, r.limit, Ttl(r.dim) - 1);
    RunSplits(r, START, begun, Arrivals(r.limit));
  }

  /** They, the next window's whole limit in the same second, and the one after's in its first. */
  function ThreeAtOnce(r: Rule): seq<Action>
    requires r.limit >= 0
  {
    (HeldUpTogether(r) + Burst(r.limit)) + ([Tick(2 * Window(r.dim) - (Ttl(r.dim) - 1))] + Burst(r.limit))
  }

  predicate ThreeWindows(r: Rule, log: seq<Verdict>) {
    var late := Ttl(r.dim) - 1;
    && |log| == 3 * r.limit
    && forall i :: 0 <= i < |log| ==>
         && Bucket(r, log[i].begun) == (if i < r.limit then 0 else if i < 2 * r.limit then 1 else 2)
         && late <= log[i].at < late + Window(r.dim)
  }

  lemma ThreeAtOnceRun(r: Rule)
    requires r.limit >= 0
    ensures Prompt(r, START, ThreeAtOnce(r)) && ThreeWindows(r, Run(r, ThreeAtOnce(r)).log)
  {
    var late, w := Ttl(r.dim) - 1, Window(r.dim);
    var first, last := HeldUpTogether(r) + Burst(r.limit), [Tick(2 * w - late)] + Burst(r.limit);
    HeldUpRun(r);
    BurstTries(r, Run(r, HeldUpTogether(r)), r.limit, late);
    RunSplits(r, START, HeldUpTogether(r), Burst(r.limit));
    TickThenBurst(r, Run(r, first), late, 2 * w - late, r.limit);
    RunSplits(r, START, first, last);
    MoreThrice(r, Run(r, HeldUpTogether(r)).log, Run(r, first).log, Run(r, ThreeAtOnce(r)).log);
  }

  lemma MoreThrice(r: Rule, a: seq<Verdict>, b: seq<Verdict>, c: seq<Verdict>)
    requires r.limit >= 0 && More([], a, r.limit, 0, Ttl(r.dim) - 1)
    requires More(a, b, r.limit, Ttl(r.dim) - 1, Ttl(r.dim) - 1)
    requires More(b, c, r.limit, 2 * Window(r.dim), 2 * Window(r.dim))
    ensures ThreeWindows(r, c)
  {
    assert Bucket(r, 0) == 0 && Bucket(r, Ttl(r.dim) - 1) == 1 && Bucket(r, 2 * Window(r.dim)) == 2;
  }

  /** So by the moment Redis counted, three times the limit is reached in one stretch, at every limit,
      without any counter expiring early. */
  lemma ThriceAtRedis(r: Rule)
    requires r.limit >= 0
    ensures exists acts :: Prompt(r, START, acts)
              && Sum(Run(r, acts).log, AdmittedAt(Ttl(r.dim) - 1, Ttl(r.dim) - 1 + Window(r.dim))) == 3 * r.limit
  {
    var acts := ThreeAtOnce(r);
    ThreeAtOnceRun(r);
    ThreeBursts(r, Run(r, acts).log);
    ExactlyTheLimit(r, acts, 0);
    ExactlyTheLimit(r, acts, 1);
    ExactlyTheLimit(r, acts, 2);
  }

  lemma ThreeBursts(r: Rule, log: seq<Verdict>)
    requires r.limit >= 0 && ThreeWindows(r, log)
    ensures Sum(log, Tried(r, 0)) == Sum(log, Tried(r, 1)) == Sum(log, Tried(r, 2)) == r.limit
    ensures Sum(log, AdmittedAt(Ttl(r.dim) - 1, Ttl(r.dim) - 1 + Window(r.dim))) ==
            Sum(log, Admitted(r, 0)) + Sum(log, Admitted(r, 1)) + Sum(log, Admitted(r, 2))
  {
    var all := AdmittedAt(Ttl(r.dim) - 1, Ttl(r.dim) - 1 + Window(r.dim));
    SumOnes(log, Tried(r, 0), 0, r.limit);
    SumOnes(log, Tried(r, 1), r.limit, 2 * r.limit);
    SumOnes(log, Tried(r, 2), 2 * r.limit, 3 * r.limit);
    SumMinus(log, AdmittedOfTwo(r, 0), Admitted(r, 0), Admitted(r, 1));
    SumMinus(log, all, AdmittedOfTwo(r, 0), Admitted(r, 2));
  }

  predicate LeftBy(s: State, n: nat) {
    s.waiting == [] && s.store.now == 0 && s.store.expiring == Zeros(n)
    && s.store.counters == if n == 0 then map[] else map[0 := Counter(n, None)]
  }

  predicate RunLeaves(r: Rule, acts: seq<Action>, n: nat) {
    LeftBy(Run(r, acts), n)
  }

  lemma TryLeaves(r: Rule, acts: seq<Action>, n: nat)
    requires RunLeaves(r, acts, n)
    ensures RunLeaves(r, acts + [Begin] + [Increment(0)], n + 1)
  {
    OneMore(r, acts, Begin);
    OneMore(r, acts + [Begin], Increment(0));
    assert Run(r, acts + [Begin]).waiting == [0];
  }

  lemma StartLeaves(r: Rule)
    ensures RunLeaves(r, [], 0)
  {
  }

  /** What n attempts in the first second leave in Redis, no EXPIRE having come yet. */
  lemma {:induction false} BurstLeaves(r: Rule, n: nat)
    ensures RunLeaves(r, Burst(n), n)
  {
    if n == 0 {
      StartLeaves(r);
    } else {
      BurstLeaves(r, n - 1);
      TryLeaves(r, Burst(n - 1), n - 1);
      BurstSteps(n);
    }
  }

  lemma BurstSteps(n: nat)
    requires n > 0
    ensures Burst(n) == Burst(n - 1) + [Begin] + [Increment(0)]
  {
  }

  /** The counter of a burst runs out before the last attempt, held up since the first second, arrives. */
  function HeldUp(r: Rule): seq<Action>
    requires r.limit >= 1
  {
    Burst(r.limit) + [Begin] + [Expire(0)] + [Tick(Ttl(r.dim))]
  }

  lemma HeldUpExpires(r: Rule)
    requires r.limit >= 1
    ensures var s := Run(r, HeldUp(r));
            && s.waiting == [0] && 0 in s.store.counters && !Standing(s.store, 0)
            && s.log == Run(r, Burst(r.limit)).log
  {
    BurstLeaves(r, r.limit);
    var a1 := Burst(r.limit) + [Begin];
    OneMore(r, Burst(r.limit), Begin);
    OneMore(r, a1, Expire(0));
    OneMore(r, a1 + [Expire(0)], Tick(Ttl(r.dim)));
    ZerosAre(r.limit);
    assert Run(r, a1 + [Expire(0)]).store.counters == map[0 := Counter(r.limit, Some(Ttl(r.dim)))];
  }

  /** At every limit, an attempt held up between its clock and Redis for as long as a counter lasts finds
      the count begun again: one more than the limit gets through. */
  lemma LateIncrementAdmitsMore(r: Rule)
    requires r.limit >= 1
    ensures exists acts ::
              && Sum(Run(r, acts).log, Tried(r, 0)) == r.limit + 1
              && Sum(Run(r, acts).log, Admitted(r, 0)) == r.limit + 1
  {
    var acts := HeldUp(r) + [Increment(0)];
    HeldUpExpires(r);
    OneMore(r, HeldUp(r), Increment(0));
    assert acts[..|HeldUp(r)|] == HeldUp(r);
    assert !Unbroken(r, acts, 0);
    RunLives(r, acts, 0);
    BurstTries(r, START, r.limit, 0);
    AllInFirst(r, Run(r, acts).log, r.limit + 1);
  }

  lemma AllInFirst(r: Rule, log: seq<Verdict>, n: nat)
    requires |log| == n && forall i :: 0 <= i < n ==> log[i].begun == 0
    ensures Sum(log, Tried(r, 0)) == n
  {
    SumOnes(log, Tried(r, 0), 0, n);
  }

  lemma OneMore(r: Rule, acts: seq<Action>, a: Action)
    ensures Run(r, acts + [a]) == Next(r, Run(r, acts), a)
  {
    RunOneMore(r, START, acts, a);
  }
}
