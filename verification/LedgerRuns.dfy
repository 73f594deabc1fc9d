/** Runs of the ledger: requests recorded under whatever prices stand, and a repair script that reads,
    plans, and later commits, with more requests recorded in between. */
module LedgerRuns {
  import opened Common
  import opened Ledger

  datatype State = State(events: seq<Event>, daily: map<Key, Daily>, planned: seq<Repair>)

  datatype Action =
    | Record(prices: map<string, ModelPrice>, r: Request)
    | PlanRepairs(priceRows: map<string, PriceRow>, basePrices: map<Kind, ModelPrice>, ignoreAge: bool)
    | CommitRepairs

  function Corrected(daily: map<Key, Daily>, fixes: seq<Fix>): map<Key, Daily> {
    map k | k in daily :: Daily(daily[k].slug, Plus(daily[k].totals, Correction(fixes, k)))
  }

  predicate Ready(s: State) {
    Sound(s.events, s.planned)
  }

  /** A plan is made by one script at a time, and is spent once committed. */
  function Next(s: State, a: Action): State
    requires Ready(s)
  {
    match a
    case Record(prices, r) =>
      var e := EventOf(prices, r);
      s.(events := s.events + [e], daily := Upsert(s.daily, e))
    case PlanRepairs(priceRows, basePrices, ignoreAge) =>
      s.(planned := Repairable(s.events, priceRows, basePrices, ignoreAge))
    case CommitRepairs =>
      assert Within(s.events, s.planned) by { SoundIsWithin(s.events, s.planned); }
      State(Repaired(s.events, s.planned), Corrected(s.daily, Fixes(s.planned)), [])
  }

  lemma SoundIsWithin(events: seq<Event>, repairs: seq<Repair>)
    requires Sound(events, repairs)
    ensures Within(events, repairs)
  {
    forall i | 0 <= i < |repairs|
      ensures repairs[i].event < |events|
    {
      assert repairs[i] in repairs;
    }
  }

  lemma StaysReady(s: State, a: Action)
    requires Ready(s)
    ensures Ready(Next(s, a))
  {
    if a.Record? {
      forall r | r in s.planned
        ensures r.event < |s.events| && Next(s, a).events[r.event] == s.events[r.event]
      {
      }
    }
  }

  function Run(start: State, acts: seq<Action>): (s: State)
    requires Ready(start)
    ensures Ready(s)
  {
    if acts == [] then start
    else
      var s := Run(start, acts[..|acts| - 1]);
      StaysReady(s, acts[|acts| - 1]);
      Next(s, acts[|acts| - 1])
  }

  // ---------- The fold of a row's events ----------

  function Tally(events: seq<Event>, k: Key): Totals {
    if events == [] then ZERO
    else
      var e := events[|events| - 1];
      var earlier := Tally(events[..|events| - 1], k);
      if e.key == k then Plus(earlier, Share(e)) else earlier
  }

  function RowAt(daily: map<Key, Daily>, k: Key): Totals {
    if k in daily then daily[k].totals else ZERO
  }

  lemma PlusAssociates(a: Totals, b: Totals, c: Totals)
    ensures Plus(Plus(a, b), c) == Plus(a, Plus(b, c))
  {
  }

  lemma PlusSwaps(a: Totals, b: Totals, c: Totals)
    ensures Plus(Plus(a, b), c) == Plus(Plus(a, c), b)
  {
  }

  /** Balance survives addition. */
  lemma BalancedPlus(a: Totals, b: Totals)
    requires Balanced(a) && Balanced(b)
    ensures Balanced(Plus(a, b))
  {
  }

  lemma {:induction false} TallyUpdate(events: seq<Event>, i: nat, e: Event, delta: Totals, k: Key)
    requires i < |events| && e.key == events[i].key && Share(e) == Plus(Share(events[i]), delta)
    ensures Tally(events[i := e], k) ==
            if e.key == k then Plus(Tally(events, k), delta) else Tally(events, k)
  {
    var n := |events| - 1;
    var after := events[i := e];
    var earlier := Tally(events[..n], k);
    if i == n {
      assert after[..n] == events[..n];
      if e.key == k {
        PlusAssociates(earlier, Share(events[n]), delta);
      }
    } else {
      assert after[..n] == events[..n][i := e];
      TallyUpdate(events[..n], i, e, delta, k);
      if e.key == k && events[n].key == k {
        PlusSwaps(earlier, delta, Share(events[n]));
      }
    }
  }

  /** A repair adds to its event exactly what the script adds to the rollup. */
  lemma PricingAddsTheFix(e: Event, r: Repair)
    requires Balanced(Share(e)) && e == r.row && e.cost.None? && CostAt(e, r.price).Some?
    ensures Share(Priced(e, r)) == Plus(Share(e), FixOf(r).delta)
    ensures Balanced(Share(Priced(e, r)))
  {
  }

  predicate AllBalanced(events: seq<Event>) {
    forall i :: 0 <= i < |events| ==> Balanced(Share(events[i]))
  }

  lemma LastRepairIsFresh(events: seq<Event>, repairs: seq<Repair>)
    requires Sound(events, repairs) && repairs != []
    ensures var n := |repairs| - 1;
            var r := repairs[n];
            && Sound(events, repairs[..n]) && Within(events, repairs[..n]) && Within(events, repairs)
            && Repaired(events, repairs[..n])[r.event] == events[r.event]
            && events[r.event] == r.row && r.row.cost.None? && CostAt(r.row, r.price).Some?
  {
    var n := |repairs| - 1;
    SoundIsWithin(events, repairs);
    assert repairs[n] in repairs;
    forall r | r in repairs[..n]
      ensures r in repairs && r.event != repairs[n].event
    {
    }
    RepairedKeeps(events, repairs[..n], repairs[n].event);
  }

  lemma {:induction false} RepairedBalances(events: seq<Event>, repairs: seq<Repair>)
    requires AllBalanced(events) && Sound(events, repairs)
    ensures Within(events, repairs) && AllBalanced(Repaired(events, repairs))
  {
    if repairs != [] {
      var n := |repairs| - 1;
      LastRepairIsFresh(events, repairs);
      RepairedBalances(events, repairs[..n]);
      PricingAddsTheFix(events[repairs[n].event], repairs[n]);
    }
  }

  /** Pricing the events moves every row's fold by what the script gathers for that row. */
  lemma {:induction false} TallyRepaired(events: seq<Event>, repairs: seq<Repair>, k: Key)
    requires AllBalanced(events) && Sound(events, repairs)
    ensures Within(events, repairs)
    ensures Tally(Repaired(events, repairs), k) == Plus(Tally(events, k), Correction(Fixes(repairs), k))
  {
    if repairs != [] {
      var n := |repairs| - 1;
      var r := repairs[n];
      LastRepairIsFresh(events, repairs);
      TallyRepaired(events, repairs[..n], k);
      var e := events[r.event];
      PricingAddsTheFix(e, r);
      TallyUpdate(Repaired(events, repairs[..n]), r.event, Priced(e, r), FixOf(r).delta, k);
      assert Fixes(repairs)[..n] == Fixes(repairs[..n]);
      PlusAssociates(Tally(events, k), Correction(Fixes(repairs[..n]), k), FixOf(r).delta);
    }
  }

  // ---------- Agreement ----------

  predicate AgreesAt(base: map<Key, Daily>, daily: map<Key, Daily>, events: seq<Event>, k: Key) {
    RowAt(daily, k) == Plus(RowAt(base, k), Tally(events, k))
  }

  /** Every row is what it started from plus its events, and every event has a row. */
  ghost predicate Agrees(base: map<Key, Daily>, s: State) {
    && AllBalanced(s.events)
    && (forall k :: AgreesAt(base, s.daily, s.events, k))
    && HaveRows(s.events, s.daily)
  }

  /** The exact condition for a recorded event's cost to be its components'. */
  predicate Balancing(a: Action) {
    a.Record? ==> PricedAlike(a.prices, a.r)
  }

  lemma RecordedIsBalanced(s: State, a: Action)
    requires Ready(s) && AllBalanced(s.events) && HaveRows(s.events, s.daily) && a.Record? && Balancing(a)
    ensures AllBalanced(Next(s, a).events) && HaveRows(Next(s, a).events, Next(s, a).daily)
  {
    EventBalancesIff(a.prices, a.r);
  }

  lemma RecordAgrees(base: map<Key, Daily>, s: State, a: Action)
    requires Ready(s) && Agrees(base, s) && a.Record? && Balancing(a)
    ensures Agrees(base, Next(s, a))
  {
    var e := EventOf(a.prices, a.r);
    RecordedIsBalanced(s, a);
    forall k
      ensures AgreesAt(base, Upsert(s.daily, e), s.events + [e], k)
    {
      assert AgreesAt(base, s.daily, s.events, k);
      UpsertAgreesAt(base, s.daily, s.events, e, k);
    }
  }

  lemma UpsertAdds(daily: map<Key, Daily>, e: Event, k: Key)
    ensures RowAt(Upsert(daily, e), k) == if e.key == k then Plus(RowAt(daily, k), Share(e)) else RowAt(daily, k)
  {
    ZeroIsNeutral(Share(e));
  }

  lemma TallyAppend(events: seq<Event>, e: Event, k: Key)
    ensures Tally(events + [e], k) == if e.key == k then Plus(Tally(events, k), Share(e)) else Tally(events, k)
  {
    assert (events + [e])[..|events|] == events;
  }

  lemma UpsertAgreesAt(base: map<Key, Daily>, daily: map<Key, Daily>, events: seq<Event>, e: Event, k: Key)
    requires AgreesAt(base, daily, events, k)
    ensures AgreesAt(base, Upsert(daily, e), events + [e], k)
  {
    UpsertAdds(daily, e, k);
    TallyAppend(events, e, k);
    PlusAssociates(RowAt(base, k), Tally(events, k), Share(e));
  }

  lemma ZeroIsNeutral(t: Totals)
    ensures Plus(ZERO, t) == t && Plus(t, ZERO) == t
  {
  }

  lemma {:induction false} NoEventNoTally(events: seq<Event>, k: Key)
    requires forall i :: 0 <= i < |events| ==> events[i].key != k
    ensures Tally(events, k) == ZERO
  {
    if events != [] {
      NoEventNoTally(events[..|events| - 1], k);
    }
  }

  /** Only rows of repaired events are corrected. */
  lemma {:induction false} CorrectionIsOfEvents(events: seq<Event>, repairs: seq<Repair>, k: Key)
    requires Sound(events, repairs) && forall i :: 0 <= i < |events| ==> events[i].key != k
    ensures Correction(Fixes(repairs), k) == ZERO
  {
    if repairs != [] {
      var n := |repairs| - 1;
      assert Fixes(repairs)[..n] == Fixes(repairs[..n]);
      LastRepairIsFresh(events, repairs);
      CorrectionIsOfEvents(events, repairs[..n], k);
    }
  }

  lemma CommitAgrees(base: map<Key, Daily>, s: State)
    requires Ready(s) && Agrees(base, s)
    ensures Agrees(base, Next(s, CommitRepairs))
  {
    SoundIsWithin(s.events, s.planned);
    RepairedBalances(s.events, s.planned);
    var daily := Corrected(s.daily, Fixes(s.planned));
    forall k
      ensures AgreesAt(base, daily, Repaired(s.events, s.planned), k)
    {
      assert AgreesAt(base, s.daily, s.events, k);
      CommitAgreesAt(base, s.daily, s.events, s.planned, k);
    }
    CorrectedHasRows(s.daily, s.events, s.planned);
  }

  lemma CorrectedHasRows(daily: map<Key, Daily>, events: seq<Event>, repairs: seq<Repair>)
    requires Within(events, repairs) && HaveRows(events, daily)
    ensures HaveRows(Repaired(events, repairs), Corrected(daily, Fixes(repairs)))
  {
    var after := Repaired(events, repairs);
    forall i | 0 <= i < |after|
      ensures after[i].key in daily
    {
      RepairedKeeps(events, repairs, i);
    }
  }

  predicate HaveRows(events: seq<Event>, daily: map<Key, Daily>) {
    forall i :: 0 <= i < |events| ==> events[i].key in daily
  }

  /** A sound correction moves a row as far as it moves the fold of the row's events. */
  lemma CorrectionMoves(daily: map<Key, Daily>, events: seq<Event>, repairs: seq<Repair>, k: Key)
    requires Sound(events, repairs) && HaveRows(events, daily)
    ensures RowAt(Corrected(daily, Fixes(repairs)), k) == Plus(RowAt(daily, k), Correction(Fixes(repairs), k))
  {
    var fixes := Fixes(repairs);
    CorrectedAt(daily, fixes, k);
    if k !in daily {
      CorrectionIsOfEvents(events, repairs, k);
      ZeroIsNeutral(ZERO);
    }
  }

  lemma CorrectedAt(daily: map<Key, Daily>, fixes: seq<Fix>, k: Key)
    ensures RowAt(Corrected(daily, fixes), k) == if k in daily then Plus(RowAt(daily, k), Correction(fixes, k)) else ZERO
  {
  }

  lemma CommitAgreesAt(base: map<Key, Daily>, daily: map<Key, Daily>, events: seq<Event>, repairs: seq<Repair>, k: Key)
    requires Sound(events, repairs) && AllBalanced(events) && HaveRows(events, daily) && AgreesAt(base, daily, events, k)
    ensures Within(events, repairs)
    ensures AgreesAt(base, Corrected(daily, Fixes(repairs)), Repaired(events, repairs), k)
  {
    SoundIsWithin(events, repairs);
    CorrectionMoves(daily, events, repairs, k);
    TallyRepaired(events, repairs, k);
    PlusAssociates(RowAt(base, k), Tally(events, k), Correction(Fixes(repairs), k));
  }

  /** Over any run, of any requests and any repairs planned under any prices, each rollup row stays
      what it was when the run began plus the fold of its events. */
  lemma {:induction false} LedgerAgrees(base: map<Key, Daily>, start: State, acts: seq<Action>)
    requires Ready(start) && Agrees(base, start)
    requires forall i :: 0 <= i < |acts| ==> Balancing(acts[i])
    ensures Agrees(base, Run(start, acts))
  {
    if acts != [] {
      var n := |acts| - 1;
      LedgerAgrees(base, start, acts[..n]);
      match acts[n]
      case Record(_, _) => RecordAgrees(base, Run(start, acts[..n]), acts[n]);
      case PlanRepairs(_, _, _) =>
      case CommitRepairs => CommitAgrees(base, Run(start, acts[..n]));
    }
  }

  function PromptUnder(k: Key): Event -> int {
    (e: Event) => if e.key == k then e.prompt else 0
  }

  function CompletionUnder(k: Key): Event -> int {
    (e: Event) => if e.key == k then e.completion else 0
  }

  function OneUnder(k: Key): Event -> int {
    (e: Event) => if e.key == k then 1 else 0
  }

  function CostUnder(k: Key): Event -> real {
    (e: Event) => if e.key == k && e.cost.Some? then e.cost.value else 0.0
  }

  /** Every price is written beside the counts it prices. */
  function PromptCostUnder(k: Key): Event -> real {
    (e: Event) =>
      if e.key == k && !e.kind.Image? && e.price.prompt.Some? && e.price.completion.Some?
      then e.prompt as real * e.price.prompt.value / 1000000.0 else 0.0
  }

  function CompletionCostUnder(k: Key): Event -> real {
    (e: Event) =>
      if e.key == k && !e.kind.Image? && e.price.prompt.Some? && e.price.completion.Some?
      then e.completion as real * e.price.completion.value / 1000000.0 else 0.0
  }

  function ImageCostUnder(k: Key): Event -> real {
    (e: Event) =>
      if e.key == k && e.kind.Image? && e.price.image.Some? then e.images as real * e.price.image.value else 0.0
  }

  lemma ShareCosts(e: Event)
    ensures var t, k := Share(e), e.key;
            && Worth(t.cost) == CostUnder(k)(e)
            && Worth(t.promptCost) == PromptCostUnder(k)(e)
            && Worth(t.completionCost) == CompletionCostUnder(k)(e)
            && Worth(t.imageCost) == ImageCostUnder(k)(e)
  {
  }

  lemma NotUnder(e: Event, k: Key)
    requires e.key != k
    ensures CostUnder(k)(e) == PromptCostUnder(k)(e) == CompletionCostUnder(k)(e) == ImageCostUnder(k)(e) == 0.0
  {
  }

  lemma WorthPlus(a: Totals, b: Totals)
    ensures var t := Plus(a, b);
            && Worth(t.cost) == Worth(a.cost) + Worth(b.cost)
            && Worth(t.promptCost) == Worth(a.promptCost) + Worth(b.promptCost)
            && Worth(t.completionCost) == Worth(a.completionCost) + Worth(b.completionCost)
            && Worth(t.imageCost) == Worth(a.imageCost) + Worth(b.imageCost)
  {
  }

  lemma {:induction false} TallySums(events: seq<Event>, k: Key)
    ensures var t := Tally(events, k);
            && Worth(t.cost) == RealSum(events, CostUnder(k))
            && Worth(t.promptCost) == RealSum(events, PromptCostUnder(k))
            && Worth(t.completionCost) == RealSum(events, CompletionCostUnder(k))
            && Worth(t.imageCost) == RealSum(events, ImageCostUnder(k))
  {
    if events != [] {
      var e := events[|events| - 1];
      TallySums(events[..|events| - 1], k);
      if e.key == k {
        ShareCosts(e);
        WorthPlus(Tally(events[..|events| - 1], k), Share(e));
      } else {
        NotUnder(e, k);
      }
    }
  }

  predicate CountedAt(base: map<Key, Daily>, daily: map<Key, Daily>, events: seq<Event>, k: Key) {
    var row, from := RowAt(daily, k), RowAt(base, k);
    && row.prompt == from.prompt + Sum(events, PromptUnder(k))
    && row.completion == from.completion + Sum(events, CompletionUnder(k))
    && row.requests == from.requests + Sum(events, OneUnder(k))
  }

  lemma UpsertCounted(base: map<Key, Daily>, daily: map<Key, Daily>, events: seq<Event>, e: Event, k: Key)
    requires CountedAt(base, daily, events, k)
    ensures CountedAt(base, Upsert(daily, e), events + [e], k)
  {
    SumAppend(events, e, PromptUnder(k));
    SumAppend(events, e, CompletionUnder(k));
    SumAppend(events, e, OneUnder(k));
  }

  lemma {:induction false} CorrectionCountsNothing(repairs: seq<Repair>, k: Key)
    ensures var c := Correction(Fixes(repairs), k); c.prompt == c.completion == c.requests == 0
  {
    if repairs != [] {
      var n := |repairs| - 1;
      assert Fixes(repairs)[..n] == Fixes(repairs[..n]);
      CorrectionCountsNothing(repairs[..n], k);
    }
  }

  lemma {:induction false} SumsAlike(a: seq<Event>, b: seq<Event>, w: Event -> int)
    requires |a| == |b| && forall i :: 0 <= i < |a| ==> w(a[i]) == w(b[i])
    ensures Sum(a, w) == Sum(b, w)
  {
    if a != [] {
      SumsAlike(a[..|a| - 1], b[..|b| - 1], w);
    }
  }

  lemma RepairedCounts(events: seq<Event>, repairs: seq<Repair>, k: Key)
    requires Within(events, repairs)
    ensures var after := Repaired(events, repairs);
            && Sum(after, PromptUnder(k)) == Sum(events, PromptUnder(k))
            && Sum(after, CompletionUnder(k)) == Sum(events, CompletionUnder(k))
            && Sum(after, OneUnder(k)) == Sum(events, OneUnder(k))
  {
    var after := Repaired(events, repairs);
    forall i | 0 <= i < |events|
      ensures after[i].key == events[i].key && after[i].prompt == events[i].prompt
      ensures after[i].completion == events[i].completion
    {
      RepairedKeeps(events, repairs, i);
    }
    SumsAlike(after, events, PromptUnder(k));
    SumsAlike(after, events, CompletionUnder(k));
    SumsAlike(after, events, OneUnder(k));
  }

  lemma CommitCounted(base: map<Key, Daily>, daily: map<Key, Daily>, events: seq<Event>, repairs: seq<Repair>, k: Key)
    requires Within(events, repairs) && CountedAt(base, daily, events, k)
    ensures CountedAt(base, Corrected(daily, Fixes(repairs)), Repaired(events, repairs), k)
  {
    RepairedCounts(events, repairs, k);
    CorrectionCountsNothing(repairs, k);
  }

  /** Over any run, whatever the prices, a row has counted its own events' columns, each one once, and
      nothing else. */
  lemma {:induction false} RowsCountTheirEvents(base: map<Key, Daily>, start: State, acts: seq<Action>, k: Key)
    requires Ready(start) && CountedAt(base, start.daily, start.events, k)
    ensures var s := Run(start, acts);
            var row, from := RowAt(s.daily, k), RowAt(base, k);
            && row.prompt == from.prompt + Sum(s.events, PromptUnder(k))
            && row.completion == from.completion + Sum(s.events, CompletionUnder(k))
            && row.requests == from.requests + Sum(s.events, OneUnder(k))
  {
    if acts != [] {
      var n := |acts| - 1;
      RowsCountTheirEvents(base, start, acts[..n], k);
      var s := Run(start, acts[..n]);
      match acts[n]
      case Record(prices, r) => UpsertCounted(base, s.daily, s.events, EventOf(prices, r), k);
      case PlanRepairs(_, _, _) =>
      case CommitRepairs =>
        SoundIsWithin(s.events, s.planned);
        CommitCounted(base, s.daily, s.events, s.planned, k);
    }
  }

  /** And its cost and each part of it, in money, is what it was and its events' at the prices written on them. */
  lemma RowsCostTheirEvents(base: map<Key, Daily>, start: State, acts: seq<Action>, k: Key)
    requires Ready(start) && Agrees(base, start)
    requires forall i :: 0 <= i < |acts| ==> Balancing(acts[i])
    ensures var s := Run(start, acts);
            var row, from := RowAt(s.daily, k), RowAt(base, k);
            && Worth(row.cost) == Worth(from.cost) + RealSum(s.events, CostUnder(k))
            && Worth(row.promptCost) == Worth(from.promptCost) + RealSum(s.events, PromptCostUnder(k))
            && Worth(row.completionCost) == Worth(from.completionCost) + RealSum(s.events, CompletionCostUnder(k))
            && Worth(row.imageCost) == Worth(from.imageCost) + RealSum(s.events, ImageCostUnder(k))
  {
    LedgerAgrees(base, start, acts);
    var s := Run(start, acts);
    assert AgreesAt(base, s.daily, s.events, k);
    WorthPlus(RowAt(base, k), Tally(s.events, k));
    TallySums(s.events, k);
  }

  /** An empty event log agrees with whatever rollup it starts beside. */
  lemma LedgerAgreesFromTheStart(base: map<Key, Daily>, acts: seq<Action>)
    requires forall i :: 0 <= i < |acts| ==> Balancing(acts[i])
    ensures Agrees(base, Run(State([], base, []), acts))
  {
    forall k
      ensures AgreesAt(base, base, [], k)
    {
      ZeroIsNeutral(RowAt(base, k));
    }
    LedgerAgrees(base, State([], base, []), acts);
  }

  /** The name a row's newest event went by, or the one it started with. */
  function NewestName(base: map<Key, Daily>, events: seq<Event>, k: Key): Option<string> {
    if events == [] then (if k in base then base[k].slug else None)
    else
      var e := events[|events| - 1];
      if e.key == k then e.slug else NewestName(base, events[..|events| - 1], k)
  }

  lemma {:induction false} NamesIgnorePrices(base: map<Key, Daily>, a: seq<Event>, b: seq<Event>, k: Key)
    requires |a| == |b| && forall i :: 0 <= i < |a| ==> a[i].key == b[i].key && a[i].slug == b[i].slug
    ensures NewestName(base, a, k) == NewestName(base, b, k)
  {
    if a != [] {
      NamesIgnorePrices(base, a[..|a| - 1], b[..|b| - 1], k);
    }
  }

  predicate LabelledAt(base: map<Key, Daily>, daily: map<Key, Daily>, events: seq<Event>, k: Key) {
    k in daily ==> daily[k].slug == NewestName(base, events, k)
  }

  lemma UpsertLabels(base: map<Key, Daily>, daily: map<Key, Daily>, events: seq<Event>, e: Event, k: Key)
    requires LabelledAt(base, daily, events, k)
    ensures LabelledAt(base, Upsert(daily, e), events + [e], k)
  {
    assert (events + [e])[..|events|] == events;
  }

  lemma CommitLabels(base: map<Key, Daily>, daily: map<Key, Daily>, events: seq<Event>, repairs: seq<Repair>, k: Key)
    requires Within(events, repairs) && LabelledAt(base, daily, events, k)
    ensures LabelledAt(base, Corrected(daily, Fixes(repairs)), Repaired(events, repairs), k)
  {
    forall i | 0 <= i < |events|
      ensures Repaired(events, repairs)[i].key == events[i].key && Repaired(events, repairs)[i].slug == events[i].slug
    {
      RepairedKeeps(events, repairs, i);
    }
    NamesIgnorePrices(base, events, Repaired(events, repairs), k);
  }

  /** A row goes by the name its newest event went by, repairs or no repairs. */
  lemma {:induction false} RowsGoByTheNewestName(base: map<Key, Daily>, acts: seq<Action>, k: Key)
    ensures var s := Run(State([], base, []), acts); LabelledAt(base, s.daily, s.events, k)
  {
    if acts != [] {
      var n := |acts| - 1;
      RowsGoByTheNewestName(base, acts[..n], k);
      var s := Run(State([], base, []), acts[..n]);
      match acts[n]
      case Record(prices, r) => UpsertLabels(base, s.daily, s.events, EventOf(prices, r), k);
      case PlanRepairs(_, _, _) =>
      case CommitRepairs =>
        SoundIsWithin(s.events, s.planned);
        CommitLabels(base, s.daily, s.events, s.planned, k);
    }
  }

  lemma {:induction false} TallyCosts(events: seq<Event>, k: Key)
    requires AllBalanced(events)
    ensures Balanced(Tally(events, k))
    ensures Tally(events, k).cost.None? <==> forall i :: 0 <= i < |events| && events[i].key == k ==> events[i].cost.None?
  {
    if events != [] {
      var n := |events| - 1;
      TallyCosts(events[..n], k);
      if events[n].key == k {
        BalancedPlus(Tally(events[..n], k), Share(events[n]));
      }
    }
  }

  lemma RowCosts(base: map<Key, Daily>, daily: map<Key, Daily>, events: seq<Event>, k: Key)
    requires AgreesAt(base, daily, events, k) && AllBalanced(events) && Balanced(RowAt(base, k))
    ensures Balanced(RowAt(daily, k))
    ensures RowAt(daily, k).cost.None? <==>
            RowAt(base, k).cost.None? && forall i :: 0 <= i < |events| && events[i].key == k ==> events[i].cost.None?
  {
    TallyCosts(events, k);
    BalancedPlus(RowAt(base, k), Tally(events, k));
  }

  /** A row has no cost exactly when nothing in it was ever priced, and its cost is its components'. */
  lemma CostIsNullIffNothingPriced(base: map<Key, Daily>, start: State, acts: seq<Action>, k: Key)
    requires Ready(start) && Agrees(base, start)
    requires forall i :: 0 <= i < |acts| ==> Balancing(acts[i])
    requires Balanced(RowAt(base, k))
    ensures var s := Run(start, acts);
            && Balanced(RowAt(s.daily, k))
            && (RowAt(s.daily, k).cost.None? <==>
                RowAt(base, k).cost.None?
                && forall i :: 0 <= i < |s.events| && s.events[i].key == k ==> s.events[i].cost.None?)
  {
    LedgerAgrees(base, start, acts);
    var s := Run(start, acts);
    assert AgreesAt(base, s.daily, s.events, k);
    RowCosts(base, s.daily, s.events, k);
  }

  // ---------- What repairing does ----------

  predicate Wanted(e: Event, rows: map<string, PriceRow>, basePrices: map<Kind, ModelPrice>, ignoreAge: bool) {
    var p := PriceFor(rows, basePrices, ignoreAge, e);
    e.cost.None? && p.Some? && CostAt(e, p.value).Some?
  }

  predicate Plans(repairs: seq<Repair>, i: nat) {
    exists j :: 0 <= j < |repairs| && repairs[j].event == i
  }

  lemma PlansMore(repairs: seq<Repair>, r: Repair, i: nat)
    ensures Plans(repairs + [r], i) <==> Plans(repairs, i) || r.event == i
  {
    var more := repairs + [r];
    assert more[|repairs|] == r && forall j :: 0 <= j < |repairs| ==> more[j] == repairs[j];
  }

  lemma PlansOnlyThese(events: seq<Event>, repairs: seq<Repair>)
    requires Sound(events, repairs)
    ensures !Plans(repairs, |events|)
  {
    SoundIsWithin(events, repairs);
  }

  predicate PlansAt(repairs: seq<Repair>, i: nat, e: Event, p: ModelPrice) {
    exists j :: 0 <= j < |repairs| && repairs[j] == Repair(i, e, p)
  }

  lemma PlansAtPlans(repairs: seq<Repair>, i: nat, e: Event, p: ModelPrice)
    ensures PlansAt(repairs, i, e, p) ==> Plans(repairs, i)
  {
  }

  lemma PlansAtMore(repairs: seq<Repair>, r: Repair, i: nat, e: Event, p: ModelPrice)
    ensures PlansAt(repairs + [r], i, e, p) <==> PlansAt(repairs, i, e, p) || r == Repair(i, e, p)
  {
    var more := repairs + [r];
    assert more[|repairs|] == r && forall j :: 0 <= j < |repairs| ==> more[j] == repairs[j];
  }

  /** The plan is complete: it repairs exactly the events some price fits, as they are, at that price. */
  lemma {:induction false} PlanHoldsTheWanted(
    events: seq<Event>, rows: map<string, PriceRow>, basePrices: map<Kind, ModelPrice>, ignoreAge: bool, i: nat, p: ModelPrice)
    requires i < |events|
    ensures WantedAt(events[i], rows, basePrices, ignoreAge, p) <==>
            PlansAt(Repairable(events, rows, basePrices, ignoreAge), i, events[i], p)
  {
    var n := |events| - 1;
    var earlier, last := Repairable(events[..n], rows, basePrices, ignoreAge), events[n];
    assert events[..n + 1] == events;
    PlanNext(events, n, rows, basePrices, ignoreAge);
    WantedAtIff(last, rows, basePrices, ignoreAge, p);
    if Wanted(last, rows, basePrices, ignoreAge) {
      PlansAtMore(earlier, Repair(n, last, PriceFor(rows, basePrices, ignoreAge, last).value), i, events[i], p);
    }
    if i < n {
      PlanHoldsTheWanted(events[..n], rows, basePrices, ignoreAge, i, p);
    } else {
      PlansOnlyThese(events[..n], earlier);
      PlansAtPlans(earlier, n, last, p);
    }
  }

  /** It holds a repair of exactly the events some price fits. */
  lemma {:induction false} PlanIsComplete(
    events: seq<Event>, rows: map<string, PriceRow>, basePrices: map<Kind, ModelPrice>, ignoreAge: bool, i: nat)
    requires i < |events|
    ensures Wanted(events[i], rows, basePrices, ignoreAge) <==> Plans(Repairable(events, rows, basePrices, ignoreAge), i)
  {
    var n := |events| - 1;
    var earlier := Repairable(events[..n], rows, basePrices, ignoreAge);
    assert events[..n + 1] == events;
    PlanNext(events, n, rows, basePrices, ignoreAge);
    if Wanted(events[n], rows, basePrices, ignoreAge) {
      PlansMore(earlier, Repair(n, events[n], PriceFor(rows, basePrices, ignoreAge, events[n]).value), i);
    }
    if i < n {
      PlanIsComplete(events[..n], rows, basePrices, ignoreAge, i);
    } else {
      PlansOnlyThese(events[..n], earlier);
    }
  }

  lemma {:induction false} NothingWantedNothingPlanned(
    events: seq<Event>, rows: map<string, PriceRow>, basePrices: map<Kind, ModelPrice>, ignoreAge: bool)
    requires forall i :: 0 <= i < |events| ==> !Wanted(events[i], rows, basePrices, ignoreAge)
    ensures Repairable(events, rows, basePrices, ignoreAge) == []
  {
    if events != [] {
      var n := |events| - 1;
      assert !Wanted(events[n], rows, basePrices, ignoreAge);
      NothingWantedNothingPlanned(events[..n], rows, basePrices, ignoreAge);
    }
  }

  /** Every planned event comes out priced. */
  lemma {:induction false} PlannedGetsPriced(events: seq<Event>, repairs: seq<Repair>, i: nat)
    requires Sound(events, repairs) && i < |repairs|
    ensures Within(events, repairs) && Repaired(events, repairs)[repairs[i].event].cost.Some?
  {
    var n := |repairs| - 1;
    LastRepairIsFresh(events, repairs);
    if i < n {
      PlannedGetsPriced(events, repairs[..n], i);
    }
  }

  /** Running the script again under the same prices finds nothing to do. */
  lemma RepairingTwiceIsOnce(
    events: seq<Event>, rows: map<string, PriceRow>, basePrices: map<Kind, ModelPrice>, ignoreAge: bool)
    ensures var repairs := Repairable(events, rows, basePrices, ignoreAge);
            && Within(events, repairs)
            && Repairable(Repaired(events, repairs), rows, basePrices, ignoreAge) == []
  {
    var repairs := Repairable(events, rows, basePrices, ignoreAge);
    SoundIsWithin(events, repairs);
    var after := Repaired(events, repairs);
    forall i | 0 <= i < |after|
      ensures !Wanted(after[i], rows, basePrices, ignoreAge)
    {
      PlanIsComplete(events, rows, basePrices, ignoreAge, i);
      RepairedKeeps(events, repairs, i);
      if j :| 0 <= j < |repairs| && repairs[j].event == i {
        PlannedGetsPriced(events, repairs, j);
      }
    }
    NothingWantedNothingPlanned(after, rows, basePrices, ignoreAge);
  }

  /** A request recorded before its price existed and repaired with it is, column for column, the
      request recorded with the price in place. */
  lemma LateIsOnTime(prices: map<string, ModelPrice>, r: Request, i: nat)
    requires r.model != "" && ResolvedPrice(prices, r).Some?
    requires CostAt(EventOf(map[], r), ResolvedPrice(prices, r).value).Some?
    ensures var unpriced := EventOf(map[], r);
            Priced(unpriced, Repair(i, unpriced, ResolvedPrice(prices, r).value)) == EventOf(prices, r)
  {
  }

  /** Once committed, a sound plan has priced its events as its repairs say. */
  lemma {:induction false} RepairedHolds(events: seq<Event>, repairs: seq<Repair>, i: nat)
    requires Sound(events, repairs) && i < |repairs|
    ensures Within(events, repairs)
    ensures var e := repairs[i].event; Repaired(events, repairs)[e] == Priced(events[e], repairs[i])
  {
    var n := |repairs| - 1;
    LastRepairIsFresh(events, repairs);
    if i < n {
      RepairedHolds(events, repairs[..n], i);
    }
  }

  lemma {:induction false} PricingPricedIsIdle(events: seq<Event>, repairs: seq<Repair>)
    requires Within(events, repairs)
    requires forall i :: 0 <= i < |repairs| ==> events[repairs[i].event] == Priced(events[repairs[i].event], repairs[i])
    ensures Repaired(events, repairs) == events
  {
    if repairs != [] {
      PricingPricedIsIdle(events, repairs[..|repairs| - 1]);
    }
  }

  /** Two scripts that planned from the same reading and both commit: the events come out right, and
      every row is over by the whole correction. */
  lemma StalePlanIsAddedTwice(base: map<Key, Daily>, s: State, repairs: seq<Repair>, k: Key)
    requires Agrees(base, s) && Sound(s.events, repairs)
    ensures Within(s.events, repairs) && Within(Repaired(s.events, repairs), repairs)
    ensures var once := Repaired(s.events, repairs);
            var twice := Corrected(Corrected(s.daily, Fixes(repairs)), Fixes(repairs));
            && Repaired(once, repairs) == once
            && RowAt(twice, k) == Plus(Plus(RowAt(base, k), Tally(once, k)), Correction(Fixes(repairs), k))
  {
    RepairedIsIdempotent(s.events, repairs);
    assert AgreesAt(base, s.daily, s.events, k);
    CommitAgreesAt(base, s.daily, s.events, repairs, k);
    CorrectedTwice(s.daily, s.events, repairs, k);
  }

  lemma CorrectedTwice(daily: map<Key, Daily>, events: seq<Event>, repairs: seq<Repair>, k: Key)
    requires Sound(events, repairs) && HaveRows(events, daily)
    ensures var once := Corrected(daily, Fixes(repairs));
            RowAt(Corrected(once, Fixes(repairs)), k) == Plus(RowAt(once, k), Correction(Fixes(repairs), k))
  {
    var once := Corrected(daily, Fixes(repairs));
    CorrectedAt(once, Fixes(repairs), k);
    if k !in daily {
      CorrectionIsOfEvents(events, repairs, k);
      ZeroIsNeutral(RowAt(once, k));
    }
  }

  lemma RepairedIsIdempotent(events: seq<Event>, repairs: seq<Repair>)
    requires Sound(events, repairs)
    ensures Within(events, repairs) && Within(Repaired(events, repairs), repairs)
    ensures Repaired(Repaired(events, repairs), repairs) == Repaired(events, repairs)
  {
    SoundIsWithin(events, repairs);
    var once := Repaired(events, repairs);
    forall i | 0 <= i < |repairs|
      ensures once[repairs[i].event] == Priced(once[repairs[i].event], repairs[i])
    {
      RepairedHolds(events, repairs, i);
    }
    PricingPricedIsIdle(once, repairs);
  }
}
