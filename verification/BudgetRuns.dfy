/** Any number of requests reserving, rolling back and settling against one client's counters,
    in any interleaving of their Redis commands and across any number of months. */
module BudgetRuns {
  import opened Common
  import opened Budget

  datatype Phase =
    | RollingBack                               // over the cap, its INCRBY not yet undone
    | RolledBack
    | Admitted                                  // forwarded; perhaps never settled
    | Settled(actual: int, inPeriod: Period)

  /** One call of reserve, in micro-dollars, and what became of it. */
  datatype Request = Request(period: Period, reserved: int, cap: Option<real>, phase: Phase)

  datatype State = State(spend: map<Period, int>, requests: seq<Request>, now: Period)

  datatype Action =
    | Reserve(estimateUsd: real, cap: Option<real>, period: Period)
    | Rollback(request: nat)
    | Settle(request: nat, actualUsd: real, period: Period)
    | NextMonth

  const INITIAL := State(map[], [], 0)

  function Add(spend: map<Period, int>, p: Period, delta: int): map<Period, int> {
    spend[p := Spent(spend, p) + delta]
  }

  /** A command's period was read from the clock earlier, so it is never in the future,
      and a settle reads it after the reserve did. */
  predicate Enabled(s: State, a: Action) {
    match a
    case Reserve(_, _, p) => p <= s.now
    case Rollback(i) => i < |s.requests| && s.requests[i].phase == RollingBack
    case Settle(i, _, p) => i < |s.requests| && s.requests[i].phase == Admitted && s.requests[i].period <= p <= s.now
    case NextMonth => true
  }

  /** One Redis command: the INCRBY of a reserve, of its roll-back, or of a settle. */
  function Next(s: State, a: Action): State {
    if !Enabled(s, a) then s
    else
      match a
      case Reserve(usd, cap, p) =>
        var spend := Add(s.spend, p, ToMicros(usd));
        var phase := if OverCap(Spent(spend, p), cap) then RollingBack else Admitted;
        s.(spend := spend, requests := s.requests + [Request(p, ToMicros(usd), cap, phase)])
      case Rollback(i) =>
        var r := s.requests[i];
        s.(spend := Add(s.spend, r.period, -r.reserved), requests := s.requests[i := r.(phase := RolledBack)])
      case Settle(i, usd, p) =>
        var r := s.requests[i];
        var actual := ToMicros(usd);
        s.(spend := Add(s.spend, p, actual - r.reserved), requests := s.requests[i := r.(phase := Settled(actual, p))])
      case NextMonth => s.(now := s.now + 1)
  }

  function Run(acts: seq<Action>): State {
    if acts == [] then INITIAL else Next(Run(acts[..|acts| - 1]), acts[|acts| - 1])
  }

  // ---------- What a request has put into a counter ----------

  function Share(r: Request, p: Period): int {
    (if r.period == p && r.phase != RolledBack then r.reserved else 0)
    + (if r.phase.Settled? && r.phase.inPeriod == p then r.phase.actual - r.reserved else 0)
  }

  function ShareOf(p: Period): Request -> int {
    r => Share(r, p)
  }

  /** Conservation, counter by counter: nothing is in a counter that no request put there. */
  ghost predicate Accounted(s: State) {
    && (forall p: Period :: Spent(s.spend, p) == Sum(s.requests, ShareOf(p)))
    && Begun(s)
  }

  lemma ReserveSpent(s: State, a: Action, p: Period)
    requires a.Reserve? && Enabled(s, a) && Spent(s.spend, p) == Sum(s.requests, ShareOf(p))
    ensures Spent(Next(s, a).spend, p) == Sum(Next(s, a).requests, ShareOf(p))
  {
    SumAppend(s.requests, Next(s, a).requests[|s.requests|], ShareOf(p));
  }

  lemma RollbackSpent(s: State, a: Action, p: Period)
    requires a.Rollback? && Enabled(s, a) && Spent(s.spend, p) == Sum(s.requests, ShareOf(p))
    ensures Spent(Next(s, a).spend, p) == Sum(Next(s, a).requests, ShareOf(p))
  {
    SumUpdate(s.requests, a.request, s.requests[a.request].(phase := RolledBack), ShareOf(p));
  }

  lemma SettleSpent(s: State, a: Action, p: Period)
    requires a.Settle? && Enabled(s, a) && Spent(s.spend, p) == Sum(s.requests, ShareOf(p))
    ensures Spent(Next(s, a).spend, p) == Sum(Next(s, a).requests, ShareOf(p))
  {
    SumUpdate(s.requests, a.request, s.requests[a.request].(phase := Settled(ToMicros(a.actualUsd), a.period)), ShareOf(p));
  }

  lemma NextSpent(s: State, a: Action, p: Period)
    requires Enabled(s, a) && Spent(s.spend, p) == Sum(s.requests, ShareOf(p))
    ensures Spent(Next(s, a).spend, p) == Sum(Next(s, a).requests, ShareOf(p))
  {
    match a
    case Reserve(_, _, _) => ReserveSpent(s, a, p);
    case Rollback(_) => RollbackSpent(s, a, p);
    case Settle(_, _, _) => SettleSpent(s, a, p);
    case NextMonth =>
  }

  predicate Begun(s: State) {
    && (forall p :: p in s.spend ==> p <= s.now)
    && (forall i :: 0 <= i < |s.requests| ==>
          var r := s.requests[i];
          r.period <= s.now && (r.phase.Settled? ==> r.period <= r.phase.inPeriod <= s.now))
  }

  lemma NextBegun(s: State, a: Action)
    requires Begun(s)
    ensures Begun(Next(s, a))
  {
  }

  lemma NextAccounted(s: State, a: Action)
    requires Accounted(s)
    ensures Accounted(Next(s, a))
  {
    NextBegun(s, a);
    if Enabled(s, a) {
      forall p: Period
        ensures Spent(Next(s, a).spend, p) == Sum(Next(s, a).requests, ShareOf(p))
      {
        NextSpent(s, a, p);
      }
    }
  }

  lemma {:induction false} Conserved(acts: seq<Action>)
    ensures Accounted(Run(acts))
  {
    if acts != [] {
      Conserved(acts[..|acts| - 1]);
      NextAccounted(Run(acts[..|acts| - 1]), acts[|acts| - 1]);
    }
  }

  // ---------- Over all months: settled actuals plus what is still reserved ----------

  function Owed(r: Request): int {
    match r.phase
    case RolledBack => 0
    case Settled(actual, _) => actual
    case _ => r.reserved
  }

  function TotalSpend(spend: map<Period, int>, months: nat): int {
    if months == 0 then 0 else TotalSpend(spend, months - 1) + Spent(spend, months - 1)
  }

  lemma {:induction false} TotalAfterAdd(spend: map<Period, int>, p: Period, delta: int, months: nat)
    ensures TotalSpend(Add(spend, p, delta), months) == TotalSpend(spend, months) + (if p < months then delta else 0)
  {
    if months > 0 {
      TotalAfterAdd(spend, p, delta, months - 1);
    }
  }

  lemma SettleTelescopes(s: State, a: Action)
    requires a.Settle? && Enabled(s, a) && TotalSpend(s.spend, s.now + 1) == Sum(s.requests, Owed)
    ensures var t := Next(s, a); TotalSpend(t.spend, s.now + 1) == Sum(t.requests, Owed)
  {
    var r := s.requests[a.request];
    var actual := ToMicros(a.actualUsd);
    TotalAfterAdd(s.spend, a.period, actual - r.reserved, s.now + 1);
    SumUpdate(s.requests, a.request, r.(phase := Settled(actual, a.period)), Owed);
  }

  lemma RollbackTelescopes(s: State, a: Action)
    requires a.Rollback? && Begun(s) && Enabled(s, a) && TotalSpend(s.spend, s.now + 1) == Sum(s.requests, Owed)
    ensures var t := Next(s, a); TotalSpend(t.spend, s.now + 1) == Sum(t.requests, Owed)
  {
    var r := s.requests[a.request];
    TotalAfterAdd(s.spend, r.period, -r.reserved, s.now + 1);
    SumUpdate(s.requests, a.request, r.(phase := RolledBack), Owed);
  }

  lemma ReserveTelescopes(s: State, a: Action)
    requires a.Reserve? && Enabled(s, a) && TotalSpend(s.spend, s.now + 1) == Sum(s.requests, Owed)
    ensures var t := Next(s, a); TotalSpend(t.spend, s.now + 1) == Sum(t.requests, Owed)
  {
    TotalAfterAdd(s.spend, a.period, ToMicros(a.estimateUsd), s.now + 1);
    SumAppend(s.requests, Next(s, a).requests[|s.requests|], Owed);
  }

  lemma NextTelescopes(s: State, a: Action)
    requires Begun(s) && Enabled(s, a)
    requires TotalSpend(s.spend, s.now + 1) == Sum(s.requests, Owed)
    ensures var t := Next(s, a); TotalSpend(t.spend, t.now + 1) == Sum(t.requests, Owed)
  {
    match a
    case Reserve(_, _, _) => ReserveTelescopes(s, a);
    case Rollback(_) => RollbackTelescopes(s, a);
    case Settle(_, _, _) => SettleTelescopes(s, a);
    case NextMonth => assert Spent(s.spend, s.now + 1) == 0;
  }

  /** Wherever the month boundaries fall, the counters together hold exactly the settled actuals
      and the reservations that are neither settled nor rolled back. */
  lemma {:induction false} CountersTelescope(acts: seq<Action>)
    ensures var s := Run(acts); TotalSpend(s.spend, s.now + 1) == Sum(s.requests, Owed)
  {
    if acts != [] {
      var before, a := acts[..|acts| - 1], acts[|acts| - 1];
      CountersTelescope(before);
      Conserved(before);
      if Enabled(Run(before), a) {
        NextTelescopes(Run(before), a);
      }
    }
  }

  // ---------- Month by month ----------

  /** What a month's counter is meant to hold of a request: its actual cost in the month it
      settled, or its reservation in the month it was made. */
  function Intended(r: Request, p: Period): int {
    match r.phase
    case RolledBack => 0
    case Settled(actual, q) => if q == p then actual else 0
    case _ => if r.period == p then r.reserved else 0
  }

  function IntendedOf(p: Period): Request -> int {
    r => Intended(r, p)
  }

  function DriftOf(p: Period): Request -> int {
    r => Share(r, p) - Intended(r, p)
  }

  /** Reserved in one month, settled in another, and for more than nothing. */
  predicate Crossed(r: Request) {
    r.phase.Settled? && r.phase.inPeriod != r.period && r.reserved > 0
  }

  predicate NonNegative(a: Action) {
    a.Reserve? ==> a.estimateUsd >= 0.0
  }

  lemma {:induction false} ReservationsNonNegative(acts: seq<Action>)
    requires forall a :: a in acts ==> NonNegative(a)
    ensures forall r :: r in Run(acts).requests ==> r.reserved >= 0
  {
    if acts != [] {
      var before, a := acts[..|acts| - 1], acts[|acts| - 1];
      ReservationsNonNegative(before);
      var rs := Run(before).requests;
      assert NonNegative(a);
      forall r | r in Run(acts).requests
        ensures r.reserved >= 0
      {
        var i: nat :| i < |Run(acts).requests| && Run(acts).requests[i] == r;
        assert i < |rs| ==> rs[i] in rs;
      }
    }
  }

  /** Every month's counter is as intended exactly when no request crossed a boundary: the settle
      corrects the month it finds itself in, not the one that was charged. */
  lemma MonthsExactIffNothingCrossed(acts: seq<Action>)
    requires forall a :: a in acts ==> NonNegative(a)
    ensures var s := Run(acts);
            (forall p: Period :: Spent(s.spend, p) == Sum(s.requests, IntendedOf(p)))
            <==> (forall r :: r in s.requests ==> !Crossed(r))
  {
    var s := Run(acts);
    Conserved(acts);
    ReservationsNonNegative(acts);
    forall p: Period
      ensures Spent(s.spend, p) - Sum(s.requests, IntendedOf(p)) == Sum(s.requests, DriftOf(p))
    {
      SumMinus(s.requests, ShareOf(p), IntendedOf(p), DriftOf(p));
    }
    if i: nat :| i < |s.requests| && Crossed(s.requests[i]) {
      var first := EarliestCrossed(s.requests, i);
      SumPositive(s.requests, DriftOf(s.requests[first].period), first);
    } else {
      forall p: Period
        ensures Sum(s.requests, DriftOf(p)) == 0
      {
        SumZero(s.requests, DriftOf(p));
      }
    }
  }

  lemma {:induction false} EarliestCrossed(rs: seq<Request>, i: nat) returns (first: nat)
    requires i < |rs| && Crossed(rs[i])
    ensures first < |rs| && Crossed(rs[first])
    ensures forall r :: r in rs && Crossed(r) ==> rs[first].period <= r.period
    decreases rs[i].period
  {
    if j: nat :| j < |rs| && Crossed(rs[j]) && rs[j].period < rs[i].period {
      first := EarliestCrossed(rs, j);
    } else {
      first := i;
    }
  }

  /** Reserved in the first month and settled in the second, all the second month holds is the
      difference: less than nothing whenever the actual was less than the estimate. */
  lemma SettleAcrossMonthsLeavesTheDifference(estimate: real, actual: real)
    requires estimate >= 0.0
    ensures var acts := [Reserve(estimate, None, 0)] + [NextMonth] + [Settle(0, actual, 1)];
            Spent(Run(acts).spend, 1) == ToMicros(actual) - ToMicros(estimate)
  {
    var a0, a1, a2 := Reserve(estimate, None, 0), NextMonth, Settle(0, actual, 1);
    RunOneMore([], a0);
    RunOneMore([a0], a1);
    RunOneMore([a0] + [a1], a2);
    assert [] + [a0] == [a0];
    assert Run([a0]) == State(map[0 := ToMicros(estimate)], [Request(0, ToMicros(estimate), None, Admitted)], 0);
    assert Run([a0] + [a1]).now == 1;
  }

  lemma RunOneMore(acts: seq<Action>, a: Action)
    ensures Run(acts + [a]) == Next(Run(acts), a)
  {
    assert (acts + [a])[..|acts|] == acts;
  }

  // ---------- The cap ----------

  /** What month p has committed to: every actual cost settled in it, whichever month the request was
      reserved in, and its own reservations not corrected in it. */
  function Committed(r: Request, p: Period): int {
    match r.phase
    case Admitted => if r.period == p then r.reserved else 0
    case Settled(actual, q) => if q == p then actual else if r.period == p then r.reserved else 0
    case _ => 0
  }

  function CommittedOf(p: Period): Request -> int {
    r => Committed(r, p)
  }

  /** How far a settle can have pushed month p past its cap: an actual above the month's own
      reservation; and, of a request reserved in another month, all of the actual, or of the
      reservation the month is credited with, whichever is more. */
  function Overrun(r: Request, p: Period): int {
    if r.phase.Settled? && r.phase.inPeriod == p then
      var actual := r.phase.actual;
      var excess :=
        if r.period == p then actual - r.reserved else if actual > r.reserved then actual else r.reserved;
      if excess > 0 then excess else 0
    else 0
  }

  function OverrunOf(p: Period): Request -> int {
    r => Overrun(r, p)
  }

  function MarginOf(p: Period): Request -> int {
    r => Committed(r, p) - Overrun(r, p)
  }

  predicate Capped(a: Action, p: Period, cap: real) {
    a.Reserve? && a.period == p ==> a.cap.Some? && a.cap.value <= cap
  }

  lemma MarginIsWithinShare(r: Request, p: Period)
    requires r.reserved >= 0 || r.phase == Admitted
    ensures Committed(r, p) - Overrun(r, p) <= Share(r, p)
  {
  }

  /** A request just admitted took the counter, and so the margin, no further than its cap. */
  lemma ReserveKeepsMargin(s: State, a: Action, p: Period, cap: real)
    requires Accounted(s) && Capped(a, p, cap) && a.Reserve? && a.period == p && Enabled(s, a)
    requires !OverCap(Spent(Next(s, a).spend, p), a.cap)
    requires forall i :: 0 <= i < |s.requests| ==> s.requests[i].reserved >= 0
    ensures ToUsd(Sum(Next(s, a).requests, MarginOf(p))) <= cap
  {
    var t := Next(s, a);
    assert Spent(s.spend, p) == Sum(s.requests, ShareOf(p));
    NextSpent(s, a, p);
    forall r | r in t.requests
      ensures MarginOf(p)(r) <= ShareOf(p)(r)
    {
      var i :| 0 <= i < |t.requests| && t.requests[i] == r;
      MarginIsWithinShare(r, p);
    }
    SumAtMost(t.requests, MarginOf(p), ShareOf(p));
  }

  /** Every other step leaves the margin where it was, or lower. */
  lemma NextLowersMargin(s: State, a: Action, p: Period)
    requires Enabled(s, a)
    requires a.Reserve? && a.period == p ==> OverCap(Spent(Next(s, a).spend, p), a.cap)
    requires forall i :: 0 <= i < |s.requests| ==> s.requests[i].reserved >= 0
    ensures Sum(Next(s, a).requests, MarginOf(p)) <= Sum(s.requests, MarginOf(p))
  {
    var t := Next(s, a);
    match a
    case Reserve(_, _, _) => SumAppend(s.requests, t.requests[|s.requests|], MarginOf(p));
    case Rollback(i) => SumUpdate(s.requests, i, t.requests[i], MarginOf(p));
    case Settle(i, _, _) => SumUpdate(s.requests, i, t.requests[i], MarginOf(p));
    case NextMonth =>
  }

  lemma NextKeepsMargin(s: State, a: Action, p: Period, cap: real)
    requires Accounted(s) && Capped(a, p, cap)
    requires forall i :: 0 <= i < |s.requests| ==> s.requests[i].reserved >= 0
    requires ToUsd(Sum(s.requests, MarginOf(p))) <= cap
    ensures ToUsd(Sum(Next(s, a).requests, MarginOf(p))) <= cap
  {
    if Enabled(s, a) {
      if a.Reserve? && a.period == p && !OverCap(Spent(Next(s, a).spend, p), a.cap) {
        ReserveKeepsMargin(s, a, p, cap);
      } else {
        NextLowersMargin(s, a, p);
      }
    }
  }

  lemma {:induction false} MarginWithinCap(acts: seq<Action>, p: Period, cap: real)
    requires cap >= 0.0
    requires forall a :: a in acts ==> NonNegative(a) && Capped(a, p, cap)
    ensures ToUsd(Sum(Run(acts).requests, MarginOf(p))) <= cap
  {
    if acts != [] {
      var before, a := acts[..|acts| - 1], acts[|acts| - 1];
      assert forall b :: b in before ==> b in acts;
      assert a in acts;
      MarginWithinCap(before, p, cap);
      Conserved(before);
      ReservationsNonNegative(before);
      var s := Run(before);
      assert forall i :: 0 <= i < |s.requests| ==> s.requests[i] in s.requests;
      NextKeepsMargin(s, a, p, cap);
    }
  }

  /** Cap safety for any interleaving: a month's commitments, what crossed into it included, never
      exceed the cap by more than the overruns its settles brought. */
  lemma CapHolds(acts: seq<Action>, p: Period, cap: real)
    requires forall a :: a in acts ==> NonNegative(a) && Capped(a, p, cap)
    ensures var rs := Run(acts).requests;
            Sum(rs, CommittedOf(p)) as real <=
            1000000.0 * (if cap > 0.0 then cap else 0.0) + Sum(rs, OverrunOf(p)) as real
  {
    var rs := Run(acts).requests;
    MarginWithinCap(acts, p, if cap > 0.0 then cap else 0.0);
    SumMinus(rs, CommittedOf(p), OverrunOf(p), MarginOf(p));
  }

  /** ... and never exceed the cap at all when every estimate was an upper bound and no settle
      crossed into the month. */
  lemma CapHoldsForUpperBounds(acts: seq<Action>, p: Period, cap: real)
    requires forall a :: a in acts ==> NonNegative(a) && Capped(a, p, cap)
    requires forall r :: r in Run(acts).requests && r.phase.Settled? && r.phase.inPeriod == p ==>
               r.period == p && r.phase.actual <= r.reserved
    ensures Sum(Run(acts).requests, CommittedOf(p)) as real <= 1000000.0 * if cap > 0.0 then cap else 0.0
  {
    CapHolds(acts, p, cap);
    SumZero(Run(acts).requests, OverrunOf(p));
  }

  /** BudgetTracker.Reserve is these commands with nothing in between: same verdict, same counter. */
  lemma ReserveIsItsCommands(s: State, usd: real, cap: Option<real>, p: Period)
    requires p <= s.now
    ensures var t := Next(s, Reserve(usd, cap, p));
            var mine := |s.requests|;
            var total := Spent(s.spend, p) + ToMicros(usd);
            var fits := cap.None? || total as real <= 1000000.0 * cap.value;
            && (t.requests[mine].phase == Admitted <==> fits)
            && Spent(Next(t, Rollback(mine)).spend, p) == if fits then total else Spent(s.spend, p)
  {
  }

  /** And Settle is one: whichever month it is by now, the actual cost takes the place of the reservation in
      that month's counter, and in no other's. */
  lemma SettleIsItsCommand(s: State, i: nat, usd: real, p: Period)
    requires i < |s.requests| && s.requests[i].phase == Admitted && s.requests[i].period <= p <= s.now
    ensures var t := Next(s, Settle(i, usd, p));
            && Spent(t.spend, p) == Spent(s.spend, p) + ToMicros(usd) - s.requests[i].reserved
            && (forall q :: q != p ==> Spent(t.spend, q) == Spent(s.spend, q))
            && t.requests == s.requests[i := s.requests[i].(phase := Settled(ToMicros(usd), p))] && t.now == s.now
  {
  }

  // ---------- Rounding ----------

  function TotalUsd(usd: seq<real>): real {
    if usd == [] then 0.0 else TotalUsd(usd[..|usd| - 1]) + usd[|usd| - 1]
  }

  function TotalMicros(usd: seq<real>): int {
    if usd == [] then 0 else TotalMicros(usd[..|usd| - 1]) + ToMicros(usd[|usd| - 1])
  }

  /** Recording n charges loses at most n half micro-dollars against their exact total. */
  lemma {:induction false} RoundingErrorBounded(usd: seq<real>)
    ensures -(|usd| as real) / 2.0 <= TotalMicros(usd) as real - 1000000.0 * TotalUsd(usd) <= |usd| as real / 2.0
  {
    if usd != [] {
      RoundingErrorBounded(usd[..|usd| - 1]);
    }
  }
}
