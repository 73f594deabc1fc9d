/** The gates that only read: tokens and images are counted after the work, so requests already
    under way when the limit is reached still add theirs. */
module Meter {
  import opened Common
  import opened RateLimiter
  import opened FixedWindow

  /** A request by where it has got to: it has read the clock but not the counter, is being served,
      or has read the clock again and not yet charged. */
  datatype Stage = Checking(bucket: int) | Working | Charging(at: int, amount: nat)

  /** It asks the gate for room for `ask`, and will use at most `most`. */
  datatype Flight = Flight(ask: nat, most: nat, stage: Stage)

  /** `charged` is what each bucket was ever charged, whatever has become of its counter. */
  datatype Hall = Hall(store: Store, flights: seq<Flight>, charged: map<int, nat>)

  datatype Step =
    | Pass(seconds: nat)
    | Arrive(ask: nat, most: nat)
    | Read(i: nat)
    | Finish(i: nat, amount: nat)
    | Charge(i: nat)
    | Mark(i: nat)                           // the EXPIRE that follows a first charge
    | Leave(i: nat)                          // refused elsewhere, failed, or used nothing

  /** The key and its ceiling, how many requests are in flight at most and how much each may use. */
  datatype Gate = Gate(rule: Rule, flights: nat, most: nat)

  function Charged(s: Hall, b: int): nat {
    if b in s.charged then s.charged[b] else 0
  }

  predicate Enabled(g: Gate, s: Hall, a: Step) {
    match a
    case Arrive(_, most) => |s.flights| < g.flights && most <= g.most
    case Read(i) => i < |s.flights| && s.flights[i].stage.Checking?
    case Finish(i, amount) => i < |s.flights| && s.flights[i].stage.Working? && amount <= s.flights[i].most
    case Charge(i) => i < |s.flights| && s.flights[i].stage.Charging?
    case Leave(i) => i < |s.flights|
    case _ => true
  }

  predicate Passes(g: Gate, s: Hall, f: Flight)
    requires f.stage.Checking?
  {
    Count(s.store, f.stage.bucket) + f.ask <= g.rule.limit
  }

  function Advance(g: Gate, s: Hall, a: Step): Hall {
    if !Enabled(g, s, a) then s
    else
      match a
      case Pass(d) => s.(store := Later(s.store, d))
      case Arrive(ask, most) =>
        s.(flights := s.flights + [Flight(ask, most, Checking(Bucket(g.rule, s.store.now)))])
      case Read(i) =>
        if Passes(g, s, s.flights[i]) then Moved(s, i, Working) else s.(flights := Dropped(s.flights, i))
      case Finish(i, amount) => Moved(s, i, Charging(Bucket(g.rule, s.store.now), amount))
      case Charge(i) =>
        var stage := s.flights[i].stage;
        Hall(Bumped(s.store, stage.at, stage.amount), Dropped(s.flights, i),
             s.charged[stage.at := Charged(s, stage.at) + stage.amount])
      case Mark(i) => s.(store := Expired(g.rule.dim, s.store, i))
      case Leave(i) => s.(flights := Dropped(s.flights, i))
  }

  function Moved(s: Hall, i: nat, stage: Stage): Hall
    requires i < |s.flights|
  {
    s.(flights := s.flights[i := s.flights[i].(stage := stage)])
  }

  const EMPTY := Hall(Store(0, map[], []), [], map[])

  function RunOf(g: Gate, acts: seq<Step>): Hall {
    if acts == [] then EMPTY else Advance(g, RunOf(g, acts[..|acts| - 1]), acts[|acts| - 1])
  }

  /** Requests say beforehand all they may use, as those for images do. */
  predicate AsksForAll(acts: seq<Step>) {
    forall i :: 0 <= i < |acts| && acts[i].Arrive? ==> acts[i].ask == acts[i].most
  }

  // ---------- What is still to come ----------

  /** The most a request may yet charge to bucket b without b's own gate being asked. */
  function Owed(r: Rule, now: int, b: int): Flight -> int {
    (f: Flight) =>
      match f.stage
      case Checking(at) => if at < b && Bucket(r, now) <= b && f.ask <= r.limit then f.most else 0
      case Working => if Bucket(r, now) <= b then f.most else 0
      case Charging(at, amount) => if at == b then amount else 0
  }

  function Exposure(g: Gate, s: Hall, b: int): int {
    Charged(s, b) + Sum(s.flights, Owed(g.rule, s.store.now, b))
  }

  function Bound(g: Gate, asksForAll: bool): int {
    Max(0, g.rule.limit) + (if asksForAll then g.flights - 1 else g.flights) * g.most
  }

  predicate Fits(g: Gate, asksForAll: bool, now: int, f: Flight) {
    && f.most <= g.most
    && (asksForAll ==> f.ask == f.most)
    && match f.stage
       case Checking(at) => at <= Bucket(g.rule, now)
       case Working => f.ask <= g.rule.limit
       case Charging(at, amount) => at <= Bucket(g.rule, now) && amount <= f.most
  }

  predicate BucketFine(g: Gate, asksForAll: bool, s: Hall, b: int) {
    && Keeps(g.rule.dim, s.store, b, Charged(s, b))
    && Exposure(g, s, b) <= Bound(g, asksForAll)
    && (b in s.store.counters ==> s.store.counters[b].value >= 0)
  }

  predicate AllFit(g: Gate, asksForAll: bool, s: Hall) {
    && |s.flights| <= g.flights
    && BegunBuckets(g.rule.dim, s.store)
    && forall i :: 0 <= i < |s.flights| ==> Fits(g, asksForAll, s.store.now, s.flights[i])
  }

  ghost predicate Safe(g: Gate, asksForAll: bool, s: Hall) {
    AllFit(g, asksForAll, s) && forall b :: BucketFine(g, asksForAll, s, b)
  }

  // ---------- Sums over the flights ----------

  /** However little room a limit leaves, n requests within it take no more than it and n - 1 others. */
  lemma ManyWithinLimit(limit: nat, most: nat, each: nat, n: nat)
    requires n >= 1 && each <= limit && each <= most
    ensures n * each <= limit + (n - 1) * most
  {
    assert (n - 1) * each <= (n - 1) * most;
  }

  // ---------- Each step is safe ----------

  lemma OwedIsSmall(g: Gate, asksForAll: bool, s: Hall, b: int, i: nat)
    requires AllFit(g, asksForAll, s) && i < |s.flights|
    ensures var w := Owed(g.rule, s.store.now, b)(s.flights[i]);
            && 0 <= w <= g.most
            && (asksForAll && b > Bucket(g.rule, s.store.now) ==> w <= Max(0, g.rule.limit))
  {
    assert Fits(g, asksForAll, s.store.now, s.flights[i]);
  }

  /** A bucket yet to come is owed no more than the bound, whoever is in flight. */
  lemma FutureIsBounded(g: Gate, asksForAll: bool, s: Hall, b: int)
    requires AllFit(g, asksForAll, s) && b > Bucket(g.rule, s.store.now)
    requires asksForAll ==> g.flights >= 1
    ensures Sum(s.flights, Owed(g.rule, s.store.now, b)) <= Bound(g, asksForAll)
  {
    var each := if asksForAll then Min(g.most, Max(0, g.rule.limit)) else g.most;
    forall i | 0 <= i < |s.flights|
      ensures Owed(g.rule, s.store.now, b)(s.flights[i]) <= each
    {
      OwedIsSmall(g, asksForAll, s, b, i);
    }
    SumBounded(s.flights, Owed(g.rule, s.store.now, b), each, g.flights);
    if asksForAll {
      ManyWithinLimit(Max(0, g.rule.limit), g.most, each, g.flights);
    }
  }

  lemma NothingChargedAhead(g: Gate, asksForAll: bool, s: Hall, b: int)
    requires BucketFine(g, asksForAll, s, b) && b > Bucket(g.rule, s.store.now)
    ensures Charged(s, b) == 0
  {
    StartsBefore(g.rule, s.store.now);
    assert b * Window(g.rule.dim) > s.store.now;
  }

  lemma PassIsSafe(g: Gate, asksForAll: bool, s: Hall, d: nat, b: int)
    requires AllFit(g, asksForAll, s) && BucketFine(g, asksForAll, s, b)
    ensures BucketFine(g, asksForAll, Advance(g, s, Pass(d)), b)
  {
    LaterKeeps(g.rule.dim, s.store, d, b, Charged(s, b));
    BucketsAdvance(g.rule, s.store.now, s.store.now + d);
    SumAtMost(s.flights, Owed(g.rule, s.store.now + d, b), Owed(g.rule, s.store.now, b));
  }

  lemma BucketsAdvance(r: Rule, now: int, later: int)
    requires now <= later
    ensures Bucket(r, now) <= Bucket(r, later)
  {
  }

  lemma ArriveIsSafe(g: Gate, asksForAll: bool, s: Hall, ask: nat, most: nat, b: int)
    requires AllFit(g, asksForAll, s) && BucketFine(g, asksForAll, s, b) && Enabled(g, s, Arrive(ask, most))
    requires asksForAll ==> ask == most
    ensures AllFit(g, asksForAll, Advance(g, s, Arrive(ask, most)))
    ensures BucketFine(g, asksForAll, Advance(g, s, Arrive(ask, most)), b)
  {
    var s' := Advance(g, s, Arrive(ask, most));
    var f := Flight(ask, most, Checking(Bucket(g.rule, s.store.now)));
    assert s'.flights == s.flights + [f];
    SumAppend(s.flights, f, Owed(g.rule, s.store.now, b));
    if b > Bucket(g.rule, s.store.now) {
      NothingChargedAhead(g, asksForAll, s, b);
      FutureIsBounded(g, asksForAll, s', b);
    }
  }

  lemma OthersAreBounded(g: Gate, asksForAll: bool, s: Hall, i: nat, b: int)
    requires AllFit(g, asksForAll, s) && i < |s.flights|
    ensures var w := Owed(g.rule, s.store.now, b);
            Sum(s.flights, w) - w(s.flights[i]) <= (g.flights - 1) * g.most
  {
    var w := Owed(g.rule, s.store.now, b);
    forall j | 0 <= j < |s.flights|
      ensures w(s.flights[j]) <= g.most
    {
      OwedIsSmall(g, asksForAll, s, b, j);
    }
    var others := Dropped(s.flights, i);
    assert forall j :: 0 <= j < |others| ==> others[j] in s.flights;
    SumBounded(others, w, g.most, g.flights - 1);
    SumDropped(s.flights, i, w);
  }

  /** A request let in by b's own gate, while b is open, is paid for by what the gate left. */
  lemma ReadIsSafe(g: Gate, asksForAll: bool, s: Hall, i: nat, b: int)
    requires AllFit(g, asksForAll, s) && BucketFine(g, asksForAll, s, b)
    requires i < |s.flights| && s.flights[i].stage.Checking? && Passes(g, s, s.flights[i])
    requires s.flights[i].ask <= g.rule.limit
    ensures BucketFine(g, asksForAll, Moved(s, i, Working), b)
  {
    var f := s.flights[i];
    SumUpdate(s.flights, i, f.(stage := Working), Owed(g.rule, s.store.now, b));
    assert Fits(g, asksForAll, s.store.now, f);
    if f.stage.bucket >= b && Bucket(g.rule, s.store.now) <= b {
      OpenGate(g, asksForAll, s, f, b);
      OthersAreBounded(g, asksForAll, s, i, b);
      OneOfMany(g.flights, g.most);
    }
  }

  lemma OneOfMany(n: int, each: int)
    ensures n * each == (n - 1) * each + each
  {
  }

  /** What an open bucket's gate reads is what was charged. */
  lemma OpenGate(g: Gate, asksForAll: bool, s: Hall, f: Flight, b: int)
    requires BucketFine(g, asksForAll, s, b) && f.stage.Checking? && f.stage.bucket == b && Passes(g, s, f)
    requires Bucket(g.rule, s.store.now) == b
    ensures Charged(s, b) + f.ask <= g.rule.limit
  {
    StartsBefore(g.rule, s.store.now);
    KeptIsCounted(g.rule.dim, s.store, b, Charged(s, b));
  }

  /** Nothing passes asking for more than there ever is. */
  lemma PassingAsksWithin(g: Gate, asksForAll: bool, s: Hall, f: Flight)
    requires f.stage.Checking? && Passes(g, s, f) && BucketFine(g, asksForAll, s, f.stage.bucket)
    ensures f.ask <= g.rule.limit
  {
  }

  lemma DropIsSafe(g: Gate, asksForAll: bool, s: Hall, i: nat, b: int)
    requires AllFit(g, asksForAll, s) && BucketFine(g, asksForAll, s, b) && i < |s.flights|
    ensures AllFit(g, asksForAll, s.(flights := Dropped(s.flights, i)))
    ensures BucketFine(g, asksForAll, s.(flights := Dropped(s.flights, i)), b)
  {
    SumDropped(s.flights, i, Owed(g.rule, s.store.now, b));
    OwedIsSmall(g, asksForAll, s, b, i);
  }

  lemma FinishIsSafe(g: Gate, asksForAll: bool, s: Hall, i: nat, amount: nat, b: int)
    requires AllFit(g, asksForAll, s) && BucketFine(g, asksForAll, s, b) && Enabled(g, s, Finish(i, amount))
    ensures BucketFine(g, asksForAll, Advance(g, s, Finish(i, amount)), b)
  {
    SumUpdate(s.flights, i, s.flights[i].(stage := Charging(Bucket(g.rule, s.store.now), amount)),
              Owed(g.rule, s.store.now, b));
  }

  lemma ChargeFits(g: Gate, asksForAll: bool, s: Hall, i: nat)
    requires AllFit(g, asksForAll, s) && Enabled(g, s, Charge(i))
    ensures s.flights[i].stage.at * Window(g.rule.dim) <= s.store.now
    ensures AllFit(g, asksForAll, Advance(g, s, Charge(i)))
  {
    var stage := s.flights[i].stage;
    assert Fits(g, asksForAll, s.store.now, s.flights[i]);
    StartsBefore(g.rule, s.store.now);
    BeginsBy(g.rule, stage.at, s.store.now);
    BumpBegun(g.rule.dim, s.store, stage.at, stage.amount);
  }

  lemma BeginsBy(r: Rule, b: int, now: int)
    requires b <= Bucket(r, now)
    ensures b * Window(r.dim) <= now
  {
    StartsBefore(r, now);
  }

  /** A charge moves what was owed to what was charged. */
  lemma ChargeIsSafe(g: Gate, asksForAll: bool, s: Hall, i: nat, b: int)
    requires AllFit(g, asksForAll, s) && BucketFine(g, asksForAll, s, b) && Enabled(g, s, Charge(i))
    requires BucketFine(g, asksForAll, s, s.flights[i].stage.at)
    ensures BucketFine(g, asksForAll, Advance(g, s, Charge(i)), b)
  {
    var stage := s.flights[i].stage;
    ChargeFits(g, asksForAll, s, i);
    SumDropped(s.flights, i, Owed(g.rule, s.store.now, b));
    BumpKeeps(g.rule.dim, s.store, stage.at, stage.amount, b, Charged(s, b));
    BumpStaysPositive(s.store, stage.at, stage.amount, b);
  }

  lemma BumpStaysPositive(st: Store, at: int, amount: nat, b: int)
    requires b in st.counters ==> st.counters[b].value >= 0
    requires at in st.counters ==> st.counters[at].value >= 0
    ensures b in Bumped(st, at, amount).counters ==> Bumped(st, at, amount).counters[b].value >= 0
  {
  }

  lemma MarkIsSafe(g: Gate, asksForAll: bool, s: Hall, i: nat, b: int)
    requires AllFit(g, asksForAll, s) && BucketFine(g, asksForAll, s, b)
    ensures BucketFine(g, asksForAll, Advance(g, s, Mark(i)), b)
  {
    ExpireKeeps(g.rule.dim, s.store, i, b, Charged(s, b));
  }

  lemma FitsLater(g: Gate, asksForAll: bool, s: Hall, d: nat)
    requires AllFit(g, asksForAll, s)
    ensures AllFit(g, asksForAll, s.(store := Later(s.store, d)))
  {
    BucketsAdvance(g.rule, s.store.now, s.store.now + d);
    forall i | 0 <= i < |s.flights|
      ensures Fits(g, asksForAll, s.store.now + d, s.flights[i])
    {
      assert Fits(g, asksForAll, s.store.now, s.flights[i]);
    }
  }

  lemma StepFits(g: Gate, asksForAll: bool, s: Hall, a: Step)
    requires Safe(g, asksForAll, s) && Enabled(g, s, a)
    requires asksForAll && a.Arrive? ==> a.ask == a.most
    ensures AllFit(g, asksForAll, Advance(g, s, a))
  {
    assert BucketFine(g, asksForAll, s, 0);
    match a
    case Pass(d) => FitsLater(g, asksForAll, s, d);
    case Arrive(ask, most) => ArriveIsSafe(g, asksForAll, s, ask, most, 0);
    case Read(i) =>
      var f := s.flights[i];
      if Passes(g, s, f) {
        assert BucketFine(g, asksForAll, s, f.stage.bucket);
        PassingAsksWithin(g, asksForAll, s, f);
        assert Fits(g, asksForAll, s.store.now, f);
      } else {
        DropIsSafe(g, asksForAll, s, i, 0);
      }
    case Finish(i, amount) => assert Fits(g, asksForAll, s.store.now, s.flights[i]);
    case Charge(i) => ChargeFits(g, asksForAll, s, i);
    case Mark(i) => ExpireKeeps(g.rule.dim, s.store, i, 0, Charged(s, 0));
    case Leave(i) => DropIsSafe(g, asksForAll, s, i, 0);
  }

  lemma StepIsFine(g: Gate, asksForAll: bool, s: Hall, a: Step, b: int)
    requires Safe(g, asksForAll, s) && Enabled(g, s, a)
    requires asksForAll && a.Arrive? ==> a.ask == a.most
    ensures BucketFine(g, asksForAll, Advance(g, s, a), b)
  {
    assert BucketFine(g, asksForAll, s, b);
    match a
    case Pass(d) => PassIsSafe(g, asksForAll, s, d, b);
    case Arrive(ask, most) => ArriveIsSafe(g, asksForAll, s, ask, most, b);
    case Read(i) =>
      if Passes(g, s, s.flights[i]) {
        assert BucketFine(g, asksForAll, s, s.flights[i].stage.bucket);
        PassingAsksWithin(g, asksForAll, s, s.flights[i]);
        ReadIsSafe(g, asksForAll, s, i, b);
      } else {
        DropIsSafe(g, asksForAll, s, i, b);
      }
    case Finish(i, amount) => FinishIsSafe(g, asksForAll, s, i, amount, b);
    case Charge(i) =>
      assert BucketFine(g, asksForAll, s, s.flights[i].stage.at);
      ChargeIsSafe(g, asksForAll, s, i, b);
    case Mark(i) => MarkIsSafe(g, asksForAll, s, i, b);
    case Leave(i) => DropIsSafe(g, asksForAll, s, i, b);
  }

  lemma {:induction false} RunIsSafe(g: Gate, asksForAll: bool, acts: seq<Step>)
    requires asksForAll ==> AsksForAll(acts) && g.flights >= 1
    ensures Safe(g, asksForAll, RunOf(g, acts))
  {
    if acts == [] {
      assert forall b :: Sum(EMPTY.flights, Owed(g.rule, EMPTY.store.now, b)) == 0;
      BoundIsPositive(g, asksForAll);
    } else {
      var n := |acts| - 1;
      RunIsSafe(g, asksForAll, acts[..n]);
      var s := RunOf(g, acts[..n]);
      if Enabled(g, s, acts[n]) {
        StepFits(g, asksForAll, s, acts[n]);
        forall b
          ensures BucketFine(g, asksForAll, Advance(g, s, acts[n]), b)
        {
          StepIsFine(g, asksForAll, s, acts[n], b);
        }
      }
    }
  }

  lemma BoundIsPositive(g: Gate, asksForAll: bool)
    requires asksForAll ==> g.flights >= 1
    ensures Bound(g, asksForAll) >= 0
  {
  }

  lemma {:induction false} NeverNegative(g: Gate, s: Hall, flights: seq<Flight>, b: int)
    ensures Sum(flights, Owed(g.rule, s.store.now, b)) >= 0
  {
    if flights != [] {
      NeverNegative(g, s, flights[..|flights| - 1], b);
    }
  }

  /** A bucket is never charged more tokens than its limit and one request's worth for each that
      can be in flight, whatever was under way when the bucket began. */
  lemma TokensOvershootByWhatIsInFlight(g: Gate, acts: seq<Step>, b: int)
    ensures Charged(RunOf(g, acts), b) <= Max(0, g.rule.limit) + g.flights * g.most
  {
    var s := RunOf(g, acts);
    RunIsSafe(g, false, acts);
    assert BucketFine(g, false, s, b);
    NeverNegative(g, s, s.flights, b);
  }

  /** Images, asked for in advance, overshoot by one request less. */
  lemma ImagesOvershootByTheOthers(g: Gate, acts: seq<Step>, b: int)
    requires AsksForAll(acts) && g.flights >= 1
    ensures Charged(RunOf(g, acts), b) <= Max(0, g.rule.limit) + (g.flights - 1) * g.most
  {
    var s := RunOf(g, acts);
    RunIsSafe(g, true, acts);
    assert BucketFine(g, true, s, b);
    NeverNegative(g, s, s.flights, b);
  }

  // ---------- What the gate and the counters do ----------

  /** In every run a request passes its gate exactly if what its bucket was ever charged leaves room for what
      it asks, as long as the bucket's counter is kept. */
  lemma PassesIffThereIsRoom(g: Gate, acts: seq<Step>, i: nat)
    requires var s := RunOf(g, acts);
             && Enabled(g, s, Read(i))
             && s.store.now < s.flights[i].stage.bucket * Window(g.rule.dim) + Ttl(g.rule.dim)
    ensures var s, t := RunOf(g, acts), Advance(g, RunOf(g, acts), Read(i));
            var f := s.flights[i];
            if Charged(s, f.stage.bucket) + f.ask <= g.rule.limit
            then t.flights == s.flights[i := f.(stage := Working)] else t.flights == Dropped(s.flights, i)
  {
    var s := RunOf(g, acts);
    RunIsSafe(g, false, acts);
    assert BucketFine(g, false, s, s.flights[i].stage.bucket);
    KeptIsCounted(g.rule.dim, s.store, s.flights[i].stage.bucket, Charged(s, s.flights[i].stage.bucket));
  }

  /** What was used is charged once, whole, to the bucket of the moment it was known. */
  lemma UseIsChargedOnce(g: Gate, s: Hall, i: nat, amount: nat)
    requires Enabled(g, s, Finish(i, amount))
    ensures var t := Advance(g, s, Finish(i, amount));
            var b := s.store.now / Window(g.rule.dim);
            var u := Advance(g, t, Charge(i));
            && t.charged == s.charged && t.store == s.store
            && Charged(u, b) == Charged(s, b) + amount
            && (forall b' :: b' != b ==> Charged(u, b') == Charged(s, b'))
            && u.flights == Dropped(s.flights, i)
            && b in u.store.counters && u.store.counters[b].value == Count(s.store, b) + amount
  {
    var t := Advance(g, s, Finish(i, amount));
    assert Dropped(t.flights, i) == Dropped(s.flights, i);
  }
}
