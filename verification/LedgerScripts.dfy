/** The ledger with both repair scripts loose on it: any number of plans, made at any time and committed
    at any later one, with reunifications and more requests in between. */
module LedgerScripts {
  import opened Common
  import opened Ledger
  import opened LedgerRuns
  import opened Reunify

  /** `residual` is what the rollup held before any event, moved as reunifications move rows. */
  datatype Books = Books(residual: map<Key, Daily>, daily: map<Key, Daily>, events: seq<Event>, plans: seq<seq<Repair>>)

  datatype Deed =
    | Recording(prices: map<string, ModelPrice>, r: Request)
    | Planning(rows: map<string, PriceRow>, basePrices: map<Kind, ModelPrice>, ignoreAge: bool)
    | Committing(plan: nat)
    | Unifying(mapping: seq<Renaming>)

  function Do(s: Books, a: Deed): Books {
    match a
    case Recording(prices, r) =>
      var e := EventOf(prices, r);
      s.(events := s.events + [e], daily := Upsert(s.daily, e))
    case Planning(rows, basePrices, ignoreAge) =>
      s.(plans := s.plans + [Repairable(s.events, rows, basePrices, ignoreAge)])
    case Committing(i) =>
      if i < |s.plans| && Within(s.events, s.plans[i]) then Committed(s, s.plans[i]) else s
    case Unifying(mapping) =>
      if Proper(mapping) then
        s.(residual := ReunifyAll(s.residual, mapping), daily := ReunifyAll(s.daily, mapping),
           events := RekeyAll(s.events, mapping))
      else s
  }

  function Committed(s: Books, repairs: seq<Repair>): Books
    requires Within(s.events, repairs)
  {
    s.(events := Repaired(s.events, repairs), daily := Corrected(s.daily, Fixes(repairs)))
  }

  function RunBooks(start: Books, acts: seq<Deed>): Books {
    if acts == [] then start else Do(RunBooks(start, acts[..|acts| - 1]), acts[|acts| - 1])
  }

  /** Still unpriced, and still under the name it was planned under: its row is there for it. */
  predicate StillWanted(e: Event, r: Repair) {
    e.cost.None? && e.key == r.row.key
  }

  /** What nothing done to the ledger changes of a planned event. */
  predicate Alike(e: Event, r: Repair) {
    e.kind == r.row.kind && e.prompt == r.row.prompt && e.completion == r.row.completion && e.images == r.row.images
  }

  predicate Outlined(events: seq<Event>, repairs: seq<Repair>) {
    && (forall i :: 0 <= i < |repairs| ==>
          var r := repairs[i];
          r.event < |events| && Alike(events[r.event], r) && CostAt(r.row, r.price).Some?)
    && (forall i, j :: 0 <= i < j < |repairs| ==> repairs[i].event < repairs[j].event)
  }

  /** Nothing planned has been priced or renamed since. */
  predicate Fresh(events: seq<Event>, repairs: seq<Repair>) {
    Outlined(events, repairs) && forall i :: 0 <= i < |repairs| ==> StillWanted(events[repairs[i].event], repairs[i])
  }

  ghost predicate InOrder(s: Books) {
    && Counts(s.residual, s.daily, s.events)
    && HaveRows(s.events, s.daily)
    && forall i :: 0 <= i < |s.plans| ==> Outlined(s.events, s.plans[i])
  }

  // ---------- What a commit does to row and fold ----------

  function CostOf(daily: map<Key, Daily>, k: Key): Option<real> {
    RowAt(daily, k).cost
  }

  function Planned(r: Repair): real {
    Worth(CostAt(r.row, r.price))
  }

  /** What a plan adds to row k: the costs of the repairs planned there. */
  function AddedTo(repairs: seq<Repair>, k: Key): real {
    if repairs == [] then 0.0
    else
      var r := repairs[|repairs| - 1];
      AddedTo(repairs[..|repairs| - 1], k) + if r.row.key == k then Planned(r) else 0.0
  }

  /** What it adds to the events under k: those costs less what the events cost by now. */
  function ChangedIn(events: seq<Event>, repairs: seq<Repair>, k: Key): real
    requires Within(events, repairs)
  {
    if repairs == [] then 0.0
    else
      var r := repairs[|repairs| - 1];
      var e := events[r.event];
      ChangedIn(events, repairs[..|repairs| - 1], k) + if e.key == k then Planned(r) - Worth(e.cost) else 0.0
  }

  predicate Names(repairs: seq<Repair>, k: Key) {
    exists i :: 0 <= i < |repairs| && repairs[i].row.key == k
  }

  predicate Prices(events: seq<Event>, repairs: seq<Repair>, k: Key)
    requires Within(events, repairs)
  {
    exists i :: 0 <= i < |repairs| && events[repairs[i].event].key == k
  }

  /** A plan adds the same to row k, if there is one, as to the events now under k, and brings a cost to
      the one exactly when to the other, unless they have one. Told before the commit. */
  predicate RowRight(s: Books, repairs: seq<Repair>, k: Key)
    requires Within(s.events, repairs)
  {
    && ChangedIn(s.events, repairs, k) == (if k in s.daily then AddedTo(repairs, k) else 0.0)
    && (|| CostOf(s.daily, k).Some?
        || (Prices(s.events, repairs, k) <==> k in s.daily && Names(repairs, k)))
  }

  ghost predicate AllRowsRight(s: Books, repairs: seq<Repair>)
    requires Within(s.events, repairs)
  {
    forall k :: RowRight(s, repairs, k)
  }

  /** A row's fold without one of its events, and with it. */
  lemma {:induction false} TallySplits(events: seq<Event>, i: nat, k: Key)
    requires i < |events|
    ensures Tally(events, k) ==
            if events[i].key == k then Plus(Tally(Dropped(events, i), k), Share(events[i])) else Tally(Dropped(events, i), k)
  {
    var n := |events| - 1;
    var e := events[n];
    if i == n {
      assert Dropped(events, i) == events[..n];
    } else {
      TallySplits(events[..n], i, k);
      assert Dropped(events, i) == Dropped(events[..n], i) + [e];
      TallyAppend(Dropped(events[..n], i), e, k);
      PlusSwaps(Tally(Dropped(events[..n], i), k), Share(events[i]), Share(e));
    }
  }

  /** Totals that count the same, the second worth `more` more and with a cost if it gained one. */
  predicate Gained(a: Totals, b: Totals, more: real, priced: bool) {
    && b.prompt == a.prompt && b.completion == a.completion && b.requests == a.requests
    && Worth(b.cost) == Worth(a.cost) + more
    && (b.cost.Some? <==> a.cost.Some? || priced)
  }

  lemma EventPriced(events: seq<Event>, r: Repair, k: Key)
    requires r.event < |events| && Alike(events[r.event], r) && CostAt(r.row, r.price).Some?
    ensures var e := events[r.event];
            Gained(Tally(events, k), Tally(events[r.event := Priced(e, r)], k),
                   if e.key == k then Planned(r) - Worth(e.cost) else 0.0, e.key == k)
  {
    var e := events[r.event];
    var after := events[r.event := Priced(e, r)];
    TallySplits(events, r.event, k);
    TallySplits(after, r.event, k);
    assert Dropped(after, r.event) == Dropped(events, r.event);
  }

  lemma OutlinedBefore(events: seq<Event>, repairs: seq<Repair>)
    requires Outlined(events, repairs) && repairs != []
    ensures var n := |repairs| - 1;
            && Outlined(events, repairs[..n]) && Within(events, repairs[..n]) && Within(events, repairs)
            && Repaired(events, repairs[..n])[repairs[n].event] == events[repairs[n].event]
  {
    var n := |repairs| - 1;
    forall r | r in repairs[..n]
      ensures r.event != repairs[n].event
    {
      var j :| 0 <= j < n && repairs[..n][j] == r;
      assert repairs[j].event < repairs[n].event;
    }
    RepairedKeeps(events, repairs[..n], repairs[n].event);
  }

  lemma PricesMore(events: seq<Event>, repairs: seq<Repair>, k: Key)
    requires Within(events, repairs) && repairs != []
    ensures var n := |repairs| - 1;
            && Within(events, repairs[..n])
            && (Prices(events, repairs, k) <==> Prices(events, repairs[..n], k) || events[repairs[n].event].key == k)
            && (Names(repairs, k) <==> Names(repairs[..n], k) || repairs[n].row.key == k)
  {
    var n := |repairs| - 1;
    assert forall i :: 0 <= i < n ==> repairs[..n][i] == repairs[i];
  }

  lemma GainsAdd(a: Totals, b: Totals, c: Totals, x: real, y: real, p: bool, q: bool)
    requires Gained(a, b, x, p) && Gained(b, c, y, q)
    ensures Gained(a, c, x + y, p || q)
  {
  }

  /** The fold of the events under k gains what was changed in them. */
  lemma {:induction false} FoldGains(events: seq<Event>, repairs: seq<Repair>, k: Key)
    requires Outlined(events, repairs)
    ensures Within(events, repairs)
    ensures Gained(Tally(events, k), Tally(Repaired(events, repairs), k), ChangedIn(events, repairs, k),
                   Prices(events, repairs, k))
  {
    if repairs != [] {
      var n := |repairs| - 1;
      var r := repairs[n];
      OutlinedBefore(events, repairs);
      FoldGains(events, repairs[..n], k);
      RepairedOutlines(events, repairs[..n], repairs);
      EventPriced(Repaired(events, repairs[..n]), r, k);
      PricesMore(events, repairs, k);
      var e := events[r.event];
      GainsAdd(Tally(events, k), Tally(Repaired(events, repairs[..n]), k), Tally(Repaired(events, repairs), k),
               ChangedIn(events, repairs[..n], k), if e.key == k then Planned(r) - Worth(e.cost) else 0.0,
               Prices(events, repairs[..n], k), e.key == k);
    }
  }

  lemma {:induction false} CorrectionGains(repairs: seq<Repair>, k: Key)
    requires forall i :: 0 <= i < |repairs| ==> CostAt(repairs[i].row, repairs[i].price).Some?
    ensures Gained(ZERO, Correction(Fixes(repairs), k), AddedTo(repairs, k), Names(repairs, k))
  {
    if repairs != [] {
      var n := |repairs| - 1;
      CorrectionGains(repairs[..n], k);
      assert Fixes(repairs)[..n] == Fixes(repairs[..n]);
      assert forall i :: 0 <= i < n ==> repairs[..n][i] == repairs[i];
    }
  }

  /** And row k, if there is one, what was planned for it. */
  lemma RowGains(daily: map<Key, Daily>, repairs: seq<Repair>, k: Key)
    requires forall i :: 0 <= i < |repairs| ==> CostAt(repairs[i].row, repairs[i].price).Some?
    ensures Gained(RowAt(daily, k), RowAt(Corrected(daily, Fixes(repairs)), k),
                   if k in daily then AddedTo(repairs, k) else 0.0, k in daily && Names(repairs, k))
  {
    CorrectionGains(repairs, k);
    CorrectedAt(daily, Fixes(repairs), k);
  }

  /** Where row and fold each gain, they still agree exactly if they gain alike. */
  lemma GainsAgreeIff(residual: Totals, row: Totals, fold: Totals, row': Totals, fold': Totals,
                      inRow: real, inFold: real, named: bool, priced: bool)
    requires Counted(row) == Plus(Counted(residual), Counted(fold))
    requires Gained(row, row', inRow, named) && Gained(fold, fold', inFold, priced)
    ensures Counted(row') == Plus(Counted(residual), Counted(fold')) <==>
            inFold == inRow && (row.cost.Some? || (priced <==> named))
  {
    assert row.cost == NullPlus(residual.cost, fold.cost);
    assert Counted(row') == Plus(Counted(residual), Counted(fold')) <==> row'.cost == NullPlus(residual.cost, fold'.cost);
    WorthNothingUnlessThere(row'.cost, NullPlus(residual.cost, fold'.cost));
  }

  lemma WorthNothingUnlessThere(a: Option<real>, b: Option<real>)
    ensures a == b <==> Worth(a) == Worth(b) && (a.Some? <==> b.Some?)
  {
  }

  lemma CommitCountsAtIff(s: Books, repairs: seq<Repair>, k: Key)
    requires CountsAt(s.residual, s.daily, s.events, k) && Outlined(s.events, repairs)
    ensures Within(s.events, repairs)
    ensures CountsAt(s.residual, Corrected(s.daily, Fixes(repairs)), Repaired(s.events, repairs), k) <==>
            RowRight(s, repairs, k)
  {
    FoldGains(s.events, repairs, k);
    RowGains(s.daily, repairs, k);
    GainsAgreeIff(RowAt(s.residual, k), RowAt(s.daily, k), Tally(s.events, k),
                  RowAt(Corrected(s.daily, Fixes(repairs)), k), Tally(Repaired(s.events, repairs), k),
                  if k in s.daily then AddedTo(repairs, k) else 0.0, ChangedIn(s.events, repairs, k),
                  k in s.daily && Names(repairs, k), Prices(s.events, repairs, k));
  }

  /** A plan of any length, committed however late, leaves the rollup counting its events exactly if it is
      right by every row. */
  lemma CommitKeepsCountsIff(s: Books, repairs: seq<Repair>)
    requires InOrder(s) && Outlined(s.events, repairs)
    ensures Within(s.events, repairs)
    ensures InOrder(Committed(s, repairs)) <==> AllRowsRight(s, repairs)
    ensures Counts(s.residual, Committed(s, repairs).daily, Committed(s, repairs).events) <==> AllRowsRight(s, repairs)
  {
    var t := Committed(s, repairs);
    forall k
      ensures CountsAt(s.residual, t.daily, t.events, k) <==> RowRight(s, repairs, k)
    {
      assert CountsAt(s.residual, s.daily, s.events, k);
      CommitCountsAtIff(s, repairs, k);
    }
    CorrectedHasRows(s.daily, s.events, repairs);
    forall i | 0 <= i < |s.plans|
      ensures Outlined(t.events, s.plans[i])
    {
      RepairedOutlines(s.events, repairs, s.plans[i]);
    }
  }

  // ---------- Every step ----------

  lemma OutlinedAfter(events: seq<Event>, after: seq<Event>, repairs: seq<Repair>)
    requires Outlined(events, repairs) && |events| <= |after|
    requires forall i :: 0 <= i < |events| ==>
               after[i].kind == events[i].kind && after[i].prompt == events[i].prompt
               && after[i].completion == events[i].completion && after[i].images == events[i].images
    ensures Outlined(after, repairs)
  {
  }

  lemma RecordingCounts(s: Books, a: Deed)
    requires InOrder(s) && a.Recording?
    ensures InOrder(Do(s, a))
  {
    var e := EventOf(a.prices, a.r);
    var t := Do(s, a);
    forall k
      ensures CountsAt(t.residual, t.daily, t.events, k)
    {
      assert CountsAt(s.residual, s.daily, s.events, k);
      RecordingCountsAt(s, e, k);
    }
    forall i | 0 <= i < |s.plans|
      ensures Outlined(t.events, s.plans[i])
    {
      OutlinedAfter(s.events, t.events, s.plans[i]);
    }
  }

  lemma RecordingCountsAt(s: Books, e: Event, k: Key)
    requires CountsAt(s.residual, s.daily, s.events, k)
    ensures CountsAt(s.residual, Upsert(s.daily, e), s.events + [e], k)
  {
    UpsertAdds(s.daily, e, k);
    TallyAppend(s.events, e, k);
    CountedPlus(RowAt(s.daily, k), Share(e));
    CountedPlus(Tally(s.events, k), Share(e));
    PlusAssociates(Counted(RowAt(s.residual, k)), Counted(Tally(s.events, k)), Counted(Share(e)));
  }

  lemma PlanningCounts(s: Books, a: Deed)
    requires InOrder(s) && a.Planning?
    ensures InOrder(Do(s, a))
  {
    var repairs := Repairable(s.events, a.rows, a.basePrices, a.ignoreAge);
    forall i | 0 <= i < |repairs|
      ensures repairs[i].event < |s.events| && Alike(s.events[repairs[i].event], repairs[i])
      ensures CostAt(repairs[i].row, repairs[i].price).Some?
    {
      assert repairs[i] in repairs;
    }
  }

  lemma RepairedOutlines(events: seq<Event>, repairs: seq<Repair>, plan: seq<Repair>)
    requires Within(events, repairs) && Outlined(events, plan)
    ensures Outlined(Repaired(events, repairs), plan)
  {
    forall j | 0 <= j < |events|
      ensures var e, e' := events[j], Repaired(events, repairs)[j]; e' == e.(price := e'.price, cost := e'.cost)
    {
      RepairedKeeps(events, repairs, j);
    }
    OutlinedAfter(events, Repaired(events, repairs), plan);
  }

  lemma UnifyOneCounts(s: Books, m: Renaming)
    requires InOrder(s) && m.former != m.current
    ensures InOrder(s.(residual := ReunifyRows(s.residual, m), daily := ReunifyRows(s.daily, m), events := Rekey(s.events, m)))
  {
    RenamingCounts(s.residual, s.daily, s.events, m);
    StatementsMove(s.daily, m);
    var events := Rekey(s.events, m);
    forall i | 0 <= i < |events|
      ensures events[i].key in ReunifyRows(s.daily, m)
    {
      assert s.events[i].key in s.daily;
      assert Under(Under(s.events[i].key, m.current), m.former) == Under(s.events[i].key, m.former);
      assert Under(s.events[i].key, s.events[i].key.model) == s.events[i].key;
    }
    forall i | 0 <= i < |s.plans|
      ensures Outlined(events, s.plans[i])
    {
      OutlinedAfter(s.events, events, s.plans[i]);
    }
  }

  lemma UnifyLast(s: Books, mapping: seq<Renaming>)
    requires Proper(mapping)
    ensures mapping == [] ==> Do(s, Unifying(mapping)) == s
    ensures mapping != [] ==>
              var n := |mapping| - 1;
              var t := Do(s, Unifying(mapping[..n]));
              && Proper(mapping[..n])
              && Do(s, Unifying(mapping)) ==
                 t.(residual := ReunifyRows(t.residual, mapping[n]), daily := ReunifyRows(t.daily, mapping[n]),
                    events := Rekey(t.events, mapping[n]))
  {
  }

  lemma {:induction false} UnifyingCounts(s: Books, mapping: seq<Renaming>)
    requires InOrder(s) && Proper(mapping)
    ensures InOrder(Do(s, Unifying(mapping)))
  {
    UnifyLast(s, mapping);
    if mapping != [] {
      var n := |mapping| - 1;
      UnifyingCounts(s, mapping[..n]);
      UnifyOneCounts(Do(s, Unifying(mapping[..n])), mapping[n]);
    }
  }

  // ---------- Whole runs ----------

  /** Every commit of the run is right by every row. */
  ghost predicate RightCommits(start: Books, acts: seq<Deed>) {
    acts != [] ==>
      var s, a := RunBooks(start, acts[..|acts| - 1]), acts[|acts| - 1];
      && RightCommits(start, acts[..|acts| - 1])
      && (a.Committing? && a.plan < |s.plans| ==>
            Outlined(s.events, s.plans[a.plan]) && Within(s.events, s.plans[a.plan]) && AllRowsRight(s, s.plans[a.plan]))
  }

  /** In order after every step. */
  ghost predicate AlwaysInOrder(start: Books, acts: seq<Deed>) {
    InOrder(RunBooks(start, acts)) && (acts != [] ==> AlwaysInOrder(start, acts[..|acts| - 1]))
  }

  lemma DoKeepsOrderIff(s: Books, a: Deed)
    requires InOrder(s)
    ensures InOrder(Do(s, a)) <==>
            (a.Committing? && a.plan < |s.plans| ==>
               Outlined(s.events, s.plans[a.plan]) && Within(s.events, s.plans[a.plan]) && AllRowsRight(s, s.plans[a.plan]))
  {
    match a
    case Recording(_, _) => RecordingCounts(s, a);
    case Planning(_, _, _) => PlanningCounts(s, a);
    case Committing(i) => if i < |s.plans| { CommitKeepsCountsIff(s, s.plans[i]); }
    case Unifying(mapping) => if Proper(mapping) { UnifyingCounts(s, mapping); }
  }

  /** However many scripts plan and commit, and whatever is recorded and reunified meanwhile, the rollup
      counts its events' tokens, requests and cost after every step exactly if every commit is right by
      every row. */
  lemma {:induction false} ScriptsKeepCountsIff(start: Books, acts: seq<Deed>)
    requires InOrder(start)
    ensures AlwaysInOrder(start, acts) <==> RightCommits(start, acts)
  {
    if acts != [] {
      var before := acts[..|acts| - 1];
      ScriptsKeepCountsIff(start, before);
      if AlwaysInOrder(start, before) {
        OrderNow(start, before);
        DoKeepsOrderIff(RunBooks(start, before), acts[|acts| - 1]);
      }
    }
  }

  lemma OrderNow(start: Books, acts: seq<Deed>)
    requires AlwaysInOrder(start, acts)
    ensures InOrder(RunBooks(start, acts))
  {
  }

  // ---------- Fresh plans ----------

  lemma {:induction false} FreshAddsAlike(events: seq<Event>, repairs: seq<Repair>, k: Key)
    requires Fresh(events, repairs)
    ensures Within(events, repairs)
    ensures ChangedIn(events, repairs, k) == AddedTo(repairs, k) && (Prices(events, repairs, k) <==> Names(repairs, k))
  {
    if repairs != [] {
      var n := |repairs| - 1;
      OutlinedBefore(events, repairs);
      FreshAddsAlike(events, repairs[..n], k);
      PricesMore(events, repairs, k);
      assert StillWanted(events[repairs[n].event], repairs[n]);
    }
  }

  lemma {:induction false} NothingChangedElsewhere(events: seq<Event>, repairs: seq<Repair>, k: Key)
    requires Within(events, repairs) && !Prices(events, repairs, k)
    ensures ChangedIn(events, repairs, k) == 0.0
  {
    if repairs != [] {
      PricesMore(events, repairs, k);
      NothingChangedElsewhere(events, repairs[..|repairs| - 1], k);
    }
  }

  /** A plan nothing of which has been priced or renamed since is right by every row. */
  lemma FreshIsRight(s: Books, repairs: seq<Repair>)
    requires HaveRows(s.events, s.daily) && Fresh(s.events, repairs)
    ensures Within(s.events, repairs) && AllRowsRight(s, repairs)
  {
    forall k
      ensures Within(s.events, repairs) && RowRight(s, repairs, k)
    {
      FreshAddsAlike(s.events, repairs, k);
      if k !in s.daily {
        NothingChangedElsewhere(s.events, repairs, k);
      }
    }
    FreshAddsAlike(s.events, repairs, Key(0, [], []));
  }

  /** Every commit of the run finds all it planned still unpriced and under its name. */
  predicate FreshCommits(start: Books, acts: seq<Deed>) {
    acts != [] ==>
      var s, a := RunBooks(start, acts[..|acts| - 1]), acts[|acts| - 1];
      FreshCommits(start, acts[..|acts| - 1]) && (a.Committing? && a.plan < |s.plans| ==> Fresh(s.events, s.plans[a.plan]))
  }

  /** So fresh commits keep the count. */
  lemma {:induction false} FreshScriptsKeepCounts(start: Books, acts: seq<Deed>)
    requires InOrder(start) && FreshCommits(start, acts)
    ensures InOrder(RunBooks(start, acts))
  {
    if acts != [] {
      var s, a := RunBooks(start, acts[..|acts| - 1]), acts[|acts| - 1];
      FreshScriptsKeepCounts(start, acts[..|acts| - 1]);
      if a.Committing? && a.plan < |s.plans| {
        FreshIsRight(s, s.plans[a.plan]);
      }
      DoKeepsOrderIff(s, a);
    }
  }

  // ---------- Plans of one event ----------

  /** Adding nothing, by NULL's rules: to a cost that is there. */
  predicate Nothing(cost: Option<real>, added: real) {
    cost.Some? && added == 0.0
  }

  /** What keeps one late repair harmless: under the planned name, that nobody has priced the event since,
      or only at nothing; under another, that the planned row is gone or has a cost that nothing is
      added to, and that the event has this very price by now, or had none and this one is nothing. */
  predicate Harmless(s: Books, r: Repair)
    requires r.event < |s.events|
  {
    var e, v := s.events[r.event], Planned(r);
    if e.key == r.row.key then e.cost.None? || e.cost.value == 0.0
    else
      && (r.row.key in s.daily ==> Nothing(CostOf(s.daily, r.row.key), v))
      && (if e.cost.Some? then e.cost.value == v else Nothing(CostOf(s.daily, e.key), v))
  }

  lemma OneRepairAdds(s: Books, r: Repair, k: Key)
    requires r.event < |s.events|
    ensures Within(s.events, [r])
    ensures var e := s.events[r.event];
            && AddedTo([r], k) == (if r.row.key == k then Planned(r) else 0.0)
            && ChangedIn(s.events, [r], k) == (if e.key == k then Planned(r) - Worth(e.cost) else 0.0)
            && (Names([r], k) <==> r.row.key == k)
            && (Prices(s.events, [r], k) <==> e.key == k)
  {
    assert [r][..0] == [] && [r][0] == r;
  }

  lemma PricedEventsPriceTheirRow(s: Books, i: nat)
    requires i < |s.events| && s.events[i].cost.Some? && CountsAt(s.residual, s.daily, s.events, s.events[i].key)
    ensures CostOf(s.daily, s.events[i].key).Some?
  {
    TallySplits(s.events, i, s.events[i].key);
  }

  lemma OneRowRightIff(s: Books, r: Repair, k: Key)
    requires r.event < |s.events| && s.events[r.event].key in s.daily && Within(s.events, [r])
    requires s.events[r.event].cost.Some? ==> CostOf(s.daily, s.events[r.event].key).Some?
    ensures RowRight(s, [r], k) <==>
            var e, v := s.events[r.event], Planned(r);
            if k == e.key && k == r.row.key then e.cost.None? || e.cost.value == 0.0
            else if k == e.key then (if e.cost.Some? then e.cost.value == v else Nothing(CostOf(s.daily, k), v))
            else k == r.row.key && k in s.daily ==> Nothing(CostOf(s.daily, k), v)
  {
    OneRepairAdds(s, r, k);
  }

  /** A one-event plan is right by every row exactly if it is harmless. */
  lemma OneCommitKeepsCountsIffHarmless(s: Books, r: Repair)
    requires InOrder(s) && Outlined(s.events, [r])
    ensures r.event < |s.events| && Within(s.events, [r])
    ensures Counts(s.residual, Committed(s, [r]).daily, Committed(s, [r]).events) <==> Harmless(s, r)
  {
    assert [r][0] == r;
    var e := s.events[r.event];
    CommitKeepsCountsIff(s, [r]);
    assert CountsAt(s.residual, s.daily, s.events, e.key);
    if e.cost.Some? {
      PricedEventsPriceTheirRow(s, r.event);
    }
    OneRowRightIff(s, r, e.key);
    OneRowRightIff(s, r, r.row.key);
    if Harmless(s, r) {
      forall k
        ensures RowRight(s, [r], k)
      {
        OneRowRightIff(s, r, k);
      }
    } else {
      assert !RowRight(s, [r], e.key) || !RowRight(s, [r], r.row.key);
    }
  }
}
