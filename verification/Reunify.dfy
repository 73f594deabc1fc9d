/** The script that gathers a renamed model's history under one name (reunify_usage_history.py). */
module Reunify {
  import opened Common
  import opened Ledger
  import opened LedgerRuns

  datatype Renaming = Renaming(former: string, current: string)

  function Under(k: Key, model: string): Key {
    k.(model := model)
  }

  function NamedSlug(slug: Option<string>, model: string): Option<string> {
    if slug.Some? then slug else Some(model)
  }

  // ---------- The statements ----------

  function RekeyEvent(e: Event, m: Renaming): Event {
    if e.key.model == m.former then e.(key := Under(e.key, m.current), slug := NamedSlug(e.slug, m.former)) else e
  }

  function Rekey(events: seq<Event>, m: Renaming): (after: seq<Event>)
    ensures |after| == |events| && forall i :: 0 <= i < |events| ==> after[i] == RekeyEvent(events[i], m)
  {
    seq(|events|, i requires 0 <= i < |events| => RekeyEvent(events[i], m))
  }

  /** Counters and cost add. The three cost components stay the surviving row's own. */
  function Merge(b: Daily, a: Daily): Daily {
    Daily(b.slug, b.totals.(prompt := b.totals.prompt + a.totals.prompt,
                            completion := b.totals.completion + a.totals.completion,
                            requests := b.totals.requests + a.totals.requests,
                            cost := NullPlus(b.totals.cost, a.totals.cost)))
  }

  function MergeRows(daily: map<Key, Daily>, m: Renaming): map<Key, Daily> {
    map k | k in daily ::
      if k.model == m.current && Under(k, m.former) in daily then Merge(daily[k], daily[Under(k, m.former)]) else daily[k]
  }

  function DeleteMerged(daily: map<Key, Daily>, m: Renaming): map<Key, Daily> {
    map k | k in daily && !(k.model == m.former && Under(k, m.current) in daily) :: daily[k]
  }

  function RenamedKey(k: Key, m: Renaming): Key {
    if k.model == m.former then Under(k, m.current) else k
  }

  function RenameRest(daily: map<Key, Daily>, m: Renaming): map<Key, Daily> {
    map k | k in (set j | j in daily :: RenamedKey(j, m)) ::
      if k in daily && k.model != m.former then daily[k]
      else
        assert Under(k, m.former) in daily;
        var a := daily[Under(k, m.former)];
        a.(slug := NamedSlug(a.slug, m.former))
  }

  /** What the three statements leave in the rollup: the rows under the old name gone, each into the
      row of its day and client under the new one. */
  ghost predicate Moved(daily: map<Key, Daily>, m: Renaming, after: map<Key, Daily>) {
    && (forall k :: k in after <==> k.model != m.former && (k in daily || (k.model == m.current && Under(k, m.former) in daily)))
    && (forall k :: k in after ==> after[k] == RowAfter(daily, m, k))
  }

  /** A row with nothing to take in stays; a row alone moves, labelled with the old name unless it has a label;
      and of two the one under the new name keeps its label and components, the counts and the cost added up. */
  function RowAfter(daily: map<Key, Daily>, m: Renaming, k: Key): Daily
    requires k in daily || k.(model := m.former) in daily
  {
    var formerly := k.(model := m.former);
    if k.model != m.current || formerly !in daily then (if k in daily then daily[k] else daily[formerly])
    else
      var a := daily[formerly];
      if k !in daily then Daily(if a.slug.Some? then a.slug else Some(m.former), a.totals)
      else
        var b := daily[k];
        var cost :=
          if a.totals.cost.None? && b.totals.cost.None? then None else Some(Worth(b.totals.cost) + Worth(a.totals.cost));
        Daily(b.slug, Totals(b.totals.prompt + a.totals.prompt, b.totals.completion + a.totals.completion,
                             b.totals.requests + a.totals.requests, cost,
                             b.totals.promptCost, b.totals.completionCost, b.totals.imageCost))
  }

  function ReunifyRows(daily: map<Key, Daily>, m: Renaming): map<Key, Daily> {
    RenameRest(DeleteMerged(MergeRows(daily, m), m), m)
  }

  lemma DeleteLeaves(daily: map<Key, Daily>, m: Renaming, k: Key)
    requires m.former != m.current
    ensures var left := DeleteMerged(MergeRows(daily, m), m);
            && (k in left <==> k in daily && !(k.model == m.former && Under(k, m.current) in daily))
            && (k in left ==> left[k] == if k.model == m.current && Under(k, m.former) in daily
                                         then Merge(daily[k], daily[Under(k, m.former)]) else daily[k])
  {
  }

  lemma RenameLeaves(daily: map<Key, Daily>, m: Renaming, k: Key)
    requires m.former != m.current
    ensures k in RenameRest(daily, m) <==>
            k.model != m.former && (k in daily || (k.model == m.current && Under(k, m.former) in daily))
    ensures k in RenameRest(daily, m) ==>
            RenameRest(daily, m)[k] == if k in daily then daily[k]
                                       else Daily(NamedSlug(daily[Under(k, m.former)].slug, m.former), daily[Under(k, m.former)].totals)
  {
    if k.model == m.current && Under(k, m.former) in daily {
      assert RenamedKey(Under(k, m.former), m) == k;
    }
    if k.model != m.former && k in daily {
      assert RenamedKey(k, m) == k;
    }
  }

  /** The statements, one after the other, move the rows. */
  lemma StatementsMove(daily: map<Key, Daily>, m: Renaming)
    requires m.former != m.current
    ensures Moved(daily, m, ReunifyRows(daily, m))
  {
    var left := DeleteMerged(MergeRows(daily, m), m);
    forall k
      ensures k in ReunifyRows(daily, m) <==>
              k.model != m.former && (k in daily || (k.model == m.current && Under(k, m.former) in daily))
      ensures k in ReunifyRows(daily, m) ==> ReunifyRows(daily, m)[k] == RowAfter(daily, m, k)
    {
      DeleteLeaves(daily, m, k);
      DeleteLeaves(daily, m, Under(k, m.former));
      assert k.model == m.current ==> Under(Under(k, m.former), m.current) == k;
      RenameLeaves(left, m, k);
    }
  }

  /** What becomes of each row: one with nothing to take in stays; one alone under the old name moves, labelled
      with it unless it has a label; and of two the one under the new name keeps its label and its cost's
      components, the counts and the cost added up. */
  lemma RowsMove(daily: map<Key, Daily>, m: Renaming, k: Key)
    requires m.former != m.current
    ensures var after, formerly := ReunifyRows(daily, m), Key(k.day, k.client, m.former);
            && (k.model == m.former ==> k !in after)
            && (k.model != m.former && k in daily && (k.model != m.current || formerly !in daily) ==>
                  k in after && after[k] == daily[k])
            && (k !in daily && k.model != m.current ==> k !in after)
            && (k !in daily && formerly !in daily ==> k !in after)
            && (k !in daily && k.model == m.current && formerly in daily ==>
                  k in after && after[k].totals == daily[formerly].totals
                  && after[k].slug == if daily[formerly].slug.Some? then daily[formerly].slug else Some(m.former))
            && (k in daily && k.model == m.current && formerly in daily ==>
                  k in after && after[k].slug == daily[k].slug && AddsUp(after[k].totals, daily[k].totals, daily[formerly].totals))
  {
    StatementsMove(daily, m);
  }

  predicate AddsUp(after: Totals, b: Totals, a: Totals) {
    && after.prompt == b.prompt + a.prompt && after.completion == b.completion + a.completion
    && after.requests == b.requests + a.requests
    && AccruesMore(after.cost, b.cost, a.cost)
    && after.promptCost == b.promptCost && after.completionCost == b.completionCost && after.imageCost == b.imageCost
  }

  // ---------- The script ----------

  function RekeyAll(events: seq<Event>, mapping: seq<Renaming>): seq<Event> {
    if mapping == [] then events
    else Rekey(RekeyAll(events, mapping[..|mapping| - 1]), mapping[|mapping| - 1])
  }

  function ReunifyAll(daily: map<Key, Daily>, mapping: seq<Renaming>): map<Key, Daily> {
    if mapping == [] then daily
    else ReunifyRows(ReunifyAll(daily, mapping[..|mapping| - 1]), mapping[|mapping| - 1])
  }

  lemma AllNext(events: seq<Event>, daily: map<Key, Daily>, mapping: seq<Renaming>, i: nat)
    requires i < |mapping|
    ensures RekeyAll(events, mapping[..i + 1]) == Rekey(RekeyAll(events, mapping[..i]), mapping[i])
    ensures ReunifyAll(daily, mapping[..i + 1]) == ReunifyRows(ReunifyAll(daily, mapping[..i]), mapping[i])
  {
    assert mapping[..i + 1][..i] == mapping[..i];
  }

  /** apply, one transaction over the whole mapping. */
  method Apply(db: UsageDb, mapping: seq<Renaming>)
    modifies db
    ensures db.events == RekeyAll(old(db.events), mapping)
    ensures db.daily == ReunifyAll(old(db.daily), mapping)
  {
    for i := 0 to |mapping|
      invariant db.events == RekeyAll(old(db.events), mapping[..i])
      invariant db.daily == ReunifyAll(old(db.daily), mapping[..i])
    {
      AllNext(old(db.events), old(db.daily), mapping, i);
      ApplyOne(db, mapping[i]);
    }
    assert mapping[..|mapping|] == mapping;
  }

  /** One name: re-key the events, then merge, delete and rename the rows. */
  method ApplyOne(db: UsageDb, m: Renaming)
    modifies db
    ensures db.events == Rekey(old(db.events), m)
    ensures db.daily == ReunifyRows(old(db.daily), m)
  {
    db.events := Rekey(db.events, m);
    db.daily := MergeRows(db.daily, m);
    db.daily := DeleteMerged(db.daily, m);
    db.daily := RenameRest(db.daily, m);
  }

  // ---------- Agreement with the events ----------

  /** The columns a merge adds up. */
  function Counted(t: Totals): Totals {
    t.(promptCost := None, completionCost := None, imageCost := None)
  }

  /** A row under the new name counts both rows. */
  lemma RowsJoin(daily: map<Key, Daily>, m: Renaming, k: Key)
    requires m.former != m.current
    ensures var after := Counted(RowAt(ReunifyRows(daily, m), k));
            && (k.model == m.former ==> after == ZERO)
            && (k.model == m.current ==> after == Plus(Counted(RowAt(daily, k)), Counted(RowAt(daily, Under(k, m.former)))))
            && (k.model != m.former && k.model != m.current ==> after == Counted(RowAt(daily, k)))
  {
    StatementsMove(daily, m);
  }

  lemma CountedPlus(a: Totals, b: Totals)
    ensures Counted(Plus(a, b)) == Plus(Counted(a), Counted(b))
  {
  }

  predicate Joined(before: seq<Event>, after: seq<Event>, m: Renaming, k: Key) {
    && (k.model == m.former ==> Tally(after, k) == ZERO)
    && (k.model == m.current ==> Tally(after, k) == Plus(Tally(before, k), Tally(before, Under(k, m.former))))
    && (k.model != m.former && k.model != m.current ==> Tally(after, k) == Tally(before, k))
  }

  lemma JoinedNext(before: seq<Event>, after: seq<Event>, e: Event, m: Renaming, k: Key)
    requires m.former != m.current && Joined(before, after, m, k)
    ensures Joined(before + [e], after + [RekeyEvent(e, m)], m, k)
  {
    var formerly := Under(k, m.former);
    TallyAppend(before, e, k);
    TallyAppend(before, e, formerly);
    TallyAppend(after, RekeyEvent(e, m), k);
    SharesAlike(e, m);
    PlusAssociates(Tally(before, k), Tally(before, formerly), Share(e));
    PlusSwaps(Tally(before, k), Tally(before, formerly), Share(e));
  }

  lemma SharesAlike(e: Event, m: Renaming)
    ensures Share(RekeyEvent(e, m)) == Share(e)
    ensures RekeyEvent(e, m).key == RenamedKey(e.key, m)
  {
  }

  lemma RekeyLast(events: seq<Event>, m: Renaming)
    requires events != []
    ensures var n := |events| - 1;
            && events == events[..n] + [events[n]]
            && Rekey(events, m) == Rekey(events[..n], m) + [RekeyEvent(events[n], m)]
  {
  }

  lemma NothingJoins(none: seq<Event>, m: Renaming, k: Key)
    requires none == []
    ensures Joined(none, none, m, k)
  {
    ZeroIsNeutral(ZERO);
  }

  /** So do its events. */
  lemma {:induction false} EventsJoin(events: seq<Event>, m: Renaming, k: Key)
    requires m.former != m.current
    ensures Joined(events, Rekey(events, m), m, k)
  {
    if events == [] {
      assert Rekey(events, m) == events;
      NothingJoins(events, m, k);
    } else {
      var n := |events| - 1;
      var e := events[n];
      var earlier := events[..n];
      EventsJoin(earlier, m, k);
      JoinedNext(earlier, Rekey(earlier, m), e, m, k);
      RekeyLast(events, m);
    }
  }

  /** The rollup counts its events, on top of `base`. */
  ghost predicate Counts(base: map<Key, Daily>, daily: map<Key, Daily>, events: seq<Event>) {
    forall k :: CountsAt(base, daily, events, k)
  }

  predicate CountsAt(base: map<Key, Daily>, daily: map<Key, Daily>, events: seq<Event>, k: Key) {
    Counted(RowAt(daily, k)) == Plus(Counted(RowAt(base, k)), Counted(Tally(events, k)))
  }

  lemma AgreesCounts(base: map<Key, Daily>, s: State)
    requires Agrees(base, s)
    ensures Counts(base, s.daily, s.events)
  {
    forall k
      ensures CountsAt(base, s.daily, s.events, k)
    {
      assert AgreesAt(base, s.daily, s.events, k);
      CountedPlus(RowAt(base, k), Tally(s.events, k));
    }
  }

  lemma PlusCrosses(a: Totals, b: Totals, c: Totals, d: Totals)
    ensures Plus(Plus(a, b), Plus(c, d)) == Plus(Plus(a, c), Plus(b, d))
  {
    PlusAssociates(Plus(a, b), c, d);
    PlusSwaps(a, b, c);
    PlusAssociates(Plus(a, c), b, d);
  }

  lemma RenamingCounts(base: map<Key, Daily>, daily: map<Key, Daily>, events: seq<Event>, m: Renaming)
    requires m.former != m.current && Counts(base, daily, events)
    ensures Counts(ReunifyRows(base, m), ReunifyRows(daily, m), Rekey(events, m))
  {
    forall k
      ensures CountsAt(ReunifyRows(base, m), ReunifyRows(daily, m), Rekey(events, m), k)
    {
      assert CountsAt(base, daily, events, k) && CountsAt(base, daily, events, Under(k, m.former));
      RenamingCountsAt(base, daily, events, m, k);
    }
  }

  lemma RenamingCountsAt(base: map<Key, Daily>, daily: map<Key, Daily>, events: seq<Event>, m: Renaming, k: Key)
    requires m.former != m.current && CountsAt(base, daily, events, k) && CountsAt(base, daily, events, Under(k, m.former))
    ensures CountsAt(ReunifyRows(base, m), ReunifyRows(daily, m), Rekey(events, m), k)
  {
    var former := Under(k, m.former);
    RowsJoin(daily, m, k);
    RowsJoin(base, m, k);
    EventsJoin(events, m, k);
    if k.model == m.current {
      CountedPlus(Tally(events, k), Tally(events, former));
      PlusCrosses(Counted(RowAt(base, k)), Counted(Tally(events, k)),
                  Counted(RowAt(base, former)), Counted(Tally(events, former)));
    }
  }

  predicate Proper(mapping: seq<Renaming>) {
    forall i :: 0 <= i < |mapping| ==> mapping[i].former != mapping[i].current
  }

  /** A ledger that agreed before a reunification still counts its events' tokens, requests and cost
      after it, over the reunified residual. */
  lemma {:induction false} ReunifiedLedgerCounts(base: map<Key, Daily>, s: State, mapping: seq<Renaming>)
    requires Proper(mapping) && Agrees(base, s)
    ensures Counts(ReunifyAll(base, mapping), ReunifyAll(s.daily, mapping), RekeyAll(s.events, mapping))
  {
    if mapping == [] {
      AgreesCounts(base, s);
    } else {
      var n := |mapping| - 1;
      ReunifiedLedgerCounts(base, s, mapping[..n]);
      RenamingCounts(ReunifyAll(base, mapping[..n]), ReunifyAll(s.daily, mapping[..n]),
                     RekeyAll(s.events, mapping[..n]), mapping[n]);
    }
  }

  // ---------- Conservation per day and client ----------

  function Gain(t: Totals, row: Daily): Totals {
    Plus(t, row.totals)
  }

  /** The sum of some rows, in any order. */
  ghost function TotalOf(rows: map<Key, Daily>): Totals {
    FoldMap(rows, ZERO, Gain)
  }

  lemma TotalTakesAny(rows: map<Key, Daily>, k: Key)
    requires k in rows
    ensures TotalOf(rows) == Plus(TotalOf(rows - {k}), rows[k].totals)
  {
    forall t, u, v
      ensures Gain(Gain(t, u), v) == Gain(Gain(t, v), u)
    {
      PlusSwaps(t, u.totals, v.totals);
    }
    FoldTakesAny(rows, ZERO, Gain, k);
  }

  function Slice(daily: map<Key, Daily>, day: int, client: string): map<Key, Daily> {
    map k | k in daily && k.day == day && k.client == client :: daily[k]
  }

  lemma SliceMovesAt(daily: map<Key, Daily>, m: Renaming, k: Key)
    requires m.former != m.current
    ensures var rows, a, b := Slice(daily, k.day, k.client), Under(k, m.former), Under(k, m.current);
            var after := ReunifyRows(daily, m);
            var expected := if a in rows then (rows - {a})[b := RowAfter(rows, m, b)] else rows;
            (k in after <==> k in expected) && (k in after ==> after[k] == expected[k])
  {
    StatementsMove(daily, m);
    var b := Under(k, m.current);
    assert Under(b, m.former) == Under(k, m.former);
    if b in daily || Under(k, m.former) in daily {
      RowAfterInSlice(daily, m, b);
    }
    assert k.model == m.current ==> k == b;
    assert k.model == m.former ==> k == Under(k, m.former);
  }

  lemma RowAfterInSlice(daily: map<Key, Daily>, m: Renaming, k: Key)
    requires k in daily || Under(k, m.former) in daily
    ensures var rows := Slice(daily, k.day, k.client);
            (k in rows || Under(k, m.former) in rows) && RowAfter(rows, m, k) == RowAfter(daily, m, k)
  {
  }

  lemma SliceMoves(daily: map<Key, Daily>, m: Renaming, day: int, client: string)
    requires m.former != m.current
    ensures var rows, a, b := Slice(daily, day, client), Key(day, client, m.former), Key(day, client, m.current);
            Slice(ReunifyRows(daily, m), day, client) ==
            if a in rows then (rows - {a})[b := RowAfter(rows, m, b)] else rows
  {
    var rows, a, b := Slice(daily, day, client), Key(day, client, m.former), Key(day, client, m.current);
    var after := Slice(ReunifyRows(daily, m), day, client);
    var expected := if a in rows then (rows - {a})[b := RowAfter(rows, m, b)] else rows;
    forall k
      ensures k in after <==> k in expected
      ensures k in after ==> after[k] == expected[k]
    {
      if k.day == day && k.client == client {
        SliceMovesAt(daily, m, k);
      }
    }
  }

  /** The row under the new name takes the old one's counters and cost, and none of its components. */
  lemma MergedTotal(rows: map<Key, Daily>, a: Key, b: Key)
    requires a != b && a in rows && b in rows
    ensures TotalOf((rows - {a})[b := Merge(rows[b], rows[a])]) == Plus(TotalOf(rows - {a}), Counted(rows[a].totals))
  {
    var after := (rows - {a})[b := Merge(rows[b], rows[a])];
    TotalTakesAny(after, b);
    assert after - {b} == rows - {a} - {b};
    TotalTakesAny(rows - {a}, b);
    MergeTotals(rows[b], rows[a]);
    PlusAssociates(TotalOf(rows - {a} - {b}), rows[b].totals, Counted(rows[a].totals));
  }

  lemma RenamedTotal(rows: map<Key, Daily>, a: Key, b: Key, row: Daily)
    requires a in rows && b !in rows && row.totals == rows[a].totals
    ensures TotalOf((rows - {a})[b := row]) == TotalOf(rows)
  {
    var after := (rows - {a})[b := row];
    TotalTakesAny(after, b);
    assert after - {b} == rows - {a};
    TotalTakesAny(rows, a);
  }

  /** What one renaming does to a day and client. */
  lemma SliceTotal(daily: map<Key, Daily>, m: Renaming, day: int, client: string)
    requires m.former != m.current
    ensures var rows, a, b := Slice(daily, day, client), Key(day, client, m.former), Key(day, client, m.current);
            TotalOf(Slice(ReunifyRows(daily, m), day, client)) ==
            if a in rows && b in rows then Plus(TotalOf(rows - {a}), Counted(rows[a].totals)) else TotalOf(rows)
  {
    var rows, a, b := Slice(daily, day, client), Key(day, client, m.former), Key(day, client, m.current);
    SliceMoves(daily, m, day, client);
    if a in rows {
      assert Under(b, m.former) == a;
      TakenInTotal(rows, m, a, b);
    }
  }

  lemma TakenInTotal(rows: map<Key, Daily>, m: Renaming, a: Key, b: Key)
    requires a in rows && a != b && b.model == m.current && a == Under(b, m.former)
    ensures TotalOf((rows - {a})[b := RowAfter(rows, m, b)]) ==
            if b in rows then Plus(TotalOf(rows - {a}), Counted(rows[a].totals)) else TotalOf(rows)
  {
    if b in rows {
      MergedTotal(rows, a, b);
    } else {
      RenamedTotal(rows, a, b, RowAfter(rows, m, b));
    }
  }

  lemma MergeTotals(b: Daily, a: Daily)
    ensures Merge(b, a).totals == Plus(b.totals, Counted(a.totals))
  {
  }

  /** Whatever the mapping, each day's tokens, requests and cost of a client are what they were. */
  lemma {:induction false} ReunifyConserves(daily: map<Key, Daily>, mapping: seq<Renaming>, day: int, client: string)
    requires Proper(mapping)
    ensures Counted(TotalOf(Slice(ReunifyAll(daily, mapping), day, client))) ==
            Counted(TotalOf(Slice(daily, day, client)))
  {
    if mapping != [] {
      var n := |mapping| - 1;
      ReunifyConserves(daily, mapping[..n], day, client);
      RenamingConserves(ReunifyAll(daily, mapping[..n]), mapping[n], day, client);
    }
  }

  lemma RenamingConserves(daily: map<Key, Daily>, m: Renaming, day: int, client: string)
    requires m.former != m.current
    ensures Counted(TotalOf(Slice(ReunifyRows(daily, m), day, client))) == Counted(TotalOf(Slice(daily, day, client)))
  {
    var rows, a := Slice(daily, day, client), Key(day, client, m.former);
    SliceTotal(daily, m, day, client);
    if a in rows {
      TotalTakesAny(rows, a);
      CountedPlus(TotalOf(rows - {a}), rows[a].totals);
      CountedPlus(TotalOf(rows - {a}), Counted(rows[a].totals));
    }
  }

  // ---------- What becomes of the components ----------

  datatype Component = OfPrompts | OfCompletions | OfImages

  function Part(t: Totals, c: Component): Option<real> {
    match c
    case OfPrompts => t.promptCost
    case OfCompletions => t.completionCost
    case OfImages => t.imageCost
  }

  predicate Merges(rows: map<Key, Daily>, m: Renaming, day: int, client: string) {
    Key(day, client, m.former) in rows && Key(day, client, m.current) in rows
  }

  /** What a renaming loses of a component for a day and client: what the row merged away had of it. */
  function LostAt(daily: map<Key, Daily>, m: Renaming, day: int, client: string, c: Component): Option<real> {
    var rows := Slice(daily, day, client);
    if Merges(rows, m, day, client) then Part(rows[Key(day, client, m.former)].totals, c) else None
  }

  ghost function SumOf(daily: map<Key, Daily>, day: int, client: string, c: Component): Option<real> {
    Part(TotalOf(Slice(daily, day, client)), c)
  }

  /** The sum before is the sum after and what was lost. */
  lemma RenamingLoses(daily: map<Key, Daily>, m: Renaming, day: int, client: string, c: Component)
    requires m.former != m.current
    ensures SumOf(daily, day, client, c) ==
            NullPlus(SumOf(ReunifyRows(daily, m), day, client, c), LostAt(daily, m, day, client, c))
  {
    var rows, a := Slice(daily, day, client), Key(day, client, m.former);
    SliceTotal(daily, m, day, client);
    if a in rows {
      TotalTakesAny(rows, a);
    }
  }

  /** All the renamings of a mapping lose, each of what the ones before it left. */
  function LostBy(daily: map<Key, Daily>, mapping: seq<Renaming>, day: int, client: string, c: Component): real {
    if mapping == [] then 0.0
    else
      var n := |mapping| - 1;
      LostBy(daily, mapping[..n], day, client, c)
      + Worth(LostAt(ReunifyAll(daily, mapping[..n]), mapping[n], day, client, c))
  }

  /** Some renaming loses the last of a component, and leaves NULL. */
  ghost predicate LosesLast(daily: map<Key, Daily>, mapping: seq<Renaming>, day: int, client: string, c: Component) {
    mapping != [] &&
    var n := |mapping| - 1;
    || LosesLast(daily, mapping[..n], day, client, c)
    || (LostAt(ReunifyAll(daily, mapping[..n]), mapping[n], day, client, c).Some?
        && SumOf(ReunifyAll(daily, mapping), day, client, c).None?)
  }

  lemma {:induction false} MappingLoses(daily: map<Key, Daily>, mapping: seq<Renaming>, day: int, client: string, c: Component)
    requires Proper(mapping)
    ensures var before, after := SumOf(daily, day, client, c), SumOf(ReunifyAll(daily, mapping), day, client, c);
            && Worth(after) == Worth(before) - LostBy(daily, mapping, day, client, c)
            && (after.Some? ==> before.Some?)
            && (before.Some? && after.None? <==> LosesLast(daily, mapping, day, client, c))
  {
    if mapping != [] {
      var n := |mapping| - 1;
      MappingLoses(daily, mapping[..n], day, client, c);
      RenamingLoses(ReunifyAll(daily, mapping[..n]), mapping[n], day, client, c);
    }
  }

  /** A day's and client's sum of a component survives a mapping exactly if what its renamings lose adds up
      to nothing, and none of them loses the last of it. */
  lemma ComponentsKeptIffNothingLost(daily: map<Key, Daily>, mapping: seq<Renaming>, day: int, client: string, c: Component)
    requires Proper(mapping)
    ensures SumOf(ReunifyAll(daily, mapping), day, client, c) == SumOf(daily, day, client, c) <==>
            LostBy(daily, mapping, day, client, c) == 0.0 && !LosesLast(daily, mapping, day, client, c)
    ensures Worth(SumOf(ReunifyAll(daily, mapping), day, client, c)) ==
            Worth(SumOf(daily, day, client, c)) - LostBy(daily, mapping, day, client, c)
  {
    MappingLoses(daily, mapping, day, client, c);
  }

  predicate Lossless(others: Option<real>, lost: Option<real>) {
    lost.None? || (lost.value == 0.0 && others.Some?)
  }

  /** Two balanced rows merge into a balanced one only when the row merged away cost nothing. */
  lemma MergeBalancesIffFree(b: Daily, a: Daily)
    requires Balanced(a.totals) && Balanced(b.totals)
    ensures Balanced(Merge(b, a).totals) <==> Lossless(b.totals.cost, a.totals.cost)
  {
  }
}
