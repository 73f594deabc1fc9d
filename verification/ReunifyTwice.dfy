/** When applying a reunification a second time changes nothing: what a mapping does to a name decides
    it, for every ledger at once. */
module ReunifyTwice {
  import opened Common
  import opened Ledger
  import opened LedgerRuns
  import opened Reunify

  // ---------- Names ----------

  /** Where the renamings, one after the other, take a name. */
  function Final(mapping: seq<Renaming>, name: string): string {
    if mapping == [] then name
    else
      var m := mapping[|mapping| - 1];
      var at := Final(mapping[..|mapping| - 1], name);
      if at == m.former then m.current else at
  }

  /** Some renaming finds the name where it has got to, though a later one may bring it back. */
  predicate Moves(mapping: seq<Renaming>, name: string) {
    mapping != [] &&
    (|| Moves(mapping[..|mapping| - 1], name)
     || Final(mapping[..|mapping| - 1], name) == mapping[|mapping| - 1].former)
  }

  /** Wherever a name is taken, it is not taken on from there. */
  ghost predicate Settled(mapping: seq<Renaming>) {
    forall name: string :: Final(mapping, Final(mapping, name)) == Final(mapping, name)
  }

  lemma {:induction false} UnmovedStays(mapping: seq<Renaming>, name: string)
    requires !Moves(mapping, name)
    ensures Final(mapping, name) == name
  {
    if mapping != [] {
      UnmovedStays(mapping[..|mapping| - 1], name);
    }
  }

  /** Names once together stay together, and a name once moved has moved. */
  lemma {:induction false} Onwards(mapping: seq<Renaming>, i: nat, a: string, b: string)
    requires i <= |mapping|
    ensures Final(mapping[..i], a) == Final(mapping[..i], b) ==> Final(mapping, a) == Final(mapping, b)
    ensures Moves(mapping[..i], a) ==> Moves(mapping, a)
  {
    if i < |mapping| {
      var n := |mapping| - 1;
      assert mapping[..n][..i] == mapping[..i];
      Onwards(mapping[..n], i, a, b);
    } else {
      assert mapping[..i] == mapping;
    }
  }

  // ---------- Events ----------

  lemma {:induction false} EventAfter(events: seq<Event>, mapping: seq<Renaming>, i: nat)
    requires i < |events|
    ensures |RekeyAll(events, mapping)| == |events|
    ensures var e := events[i];
            RekeyAll(events, mapping)[i] ==
            e.(key := Under(e.key, Final(mapping, e.key.model)),
               slug := if Moves(mapping, e.key.model) && e.slug.None? then Some(e.key.model) else e.slug)
  {
    if mapping != [] {
      var n := |mapping| - 1;
      EventAfter(events, mapping[..n], i);
      if !Moves(mapping[..n], events[i].key.model) {
        UnmovedStays(mapping[..n], events[i].key.model);
      }
    }
  }

  lemma EventsOnce(events: seq<Event>, mapping: seq<Renaming>)
    requires Settled(mapping)
    ensures RekeyAll(RekeyAll(events, mapping), mapping) == RekeyAll(events, mapping)
  {
    var once := RekeyAll(events, mapping);
    var twice := RekeyAll(once, mapping);
    if events == [] {
      NoEventsRekeyed(mapping);
    } else {
      EventAfter(events, mapping, 0);
      EventAfter(once, mapping, 0);
      forall i | 0 <= i < |events|
        ensures twice[i] == once[i]
      {
        EventAfter(events, mapping, i);
        EventAfter(once, mapping, i);
        if !Moves(mapping, events[i].key.model) {
          UnmovedStays(mapping, events[i].key.model);
        }
      }
    }
  }

  lemma {:induction false} NoEventsRekeyed(mapping: seq<Renaming>)
    ensures RekeyAll([], mapping) == []
  {
    if mapping != [] {
      NoEventsRekeyed(mapping[..|mapping| - 1]);
    }
  }

  // ---------- Rows ----------

  lemma Lands(daily: map<Key, Daily>, m: Renaming, k: Key)
    requires m.former != m.current
    ensures k in ReunifyRows(daily, m) <==>
            k.model != m.former && (k in daily || (k.model == m.current && Under(k, m.former) in daily))
    ensures k in ReunifyRows(daily, m) ==> ReunifyRows(daily, m)[k] == RowAfter(daily, m, k)
  {
    StatementsMove(daily, m);
  }

  /** A row lands where its name is taken. */
  lemma {:induction false} RowLands(daily: map<Key, Daily>, mapping: seq<Renaming>, k: Key)
    requires Proper(mapping) && k in daily
    ensures Under(k, Final(mapping, k.model)) in ReunifyAll(daily, mapping)
  {
    if mapping != [] {
      var n := |mapping| - 1;
      RowLands(daily, mapping[..n], k);
      var at := Under(k, Final(mapping[..n], k.model));
      Lands(ReunifyAll(daily, mapping[..n]), mapping[n], Under(k, Final(mapping, k.model)));
      assert Under(Under(k, Final(mapping, k.model)), mapping[n].former) == Under(k, mapping[n].former);
      assert Under(k, k.model) == k;
    }
  }

  lemma OneStepBack(before: map<Key, Daily>, m: Renaming, landing: Key) returns (from: Key)
    requires m.former != m.current && landing in ReunifyRows(before, m)
    ensures from in before && landing == Under(from, if from.model == m.former then m.current else from.model)
  {
    Lands(before, m, landing);
    from := if landing in before then landing else Under(landing, m.former);
  }

  /** And every row came from somewhere. */
  lemma {:induction false} RowCameFrom(daily: map<Key, Daily>, mapping: seq<Renaming>, landing: Key) returns (k: Key)
    requires Proper(mapping) && landing in ReunifyAll(daily, mapping)
    ensures k in daily && Under(k, Final(mapping, k.model)) == landing
  {
    k := landing;
    if mapping != [] {
      var n := |mapping| - 1;
      var from := OneStepBack(ReunifyAll(daily, mapping[..n]), mapping[n], landing);
      k := RowCameFrom(daily, mapping[..n], from);
    }
  }

  /** A row without a label never moved. */
  ghost predicate Labelled(daily: map<Key, Daily>, mapping: seq<Renaming>) {
    forall k :: k in daily && daily[k].slug.None? ==> !Moves(mapping, k.model)
  }

  lemma {:induction false} RowsAreLabelled(daily: map<Key, Daily>, mapping: seq<Renaming>)
    requires Proper(mapping)
    ensures Labelled(ReunifyAll(daily, mapping), mapping)
  {
    if mapping != [] {
      var n := |mapping| - 1;
      RowsAreLabelled(daily, mapping[..n]);
      var before, after := ReunifyAll(daily, mapping[..n]), ReunifyAll(daily, mapping);
      forall k | k in after && after[k].slug.None?
        ensures !Moves(mapping, k.model)
      {
        Lands(before, mapping[n], k);
        assert k in before && before[k].slug.None?;
        UnmovedStays(mapping[..n], k.model);
      }
    }
  }

  /** Every row stands where its name ends. */
  ghost predicate Standing(daily: map<Key, Daily>, mapping: seq<Renaming>) {
    forall k :: k in daily ==> Final(mapping, k.model) == k.model
  }

  lemma RowsStand(daily: map<Key, Daily>, mapping: seq<Renaming>)
    requires Proper(mapping) && Settled(mapping)
    ensures Standing(ReunifyAll(daily, mapping), mapping)
  {
    forall landing | landing in ReunifyAll(daily, mapping)
      ensures Final(mapping, landing.model) == landing.model
    {
      var k := RowCameFrom(daily, mapping, landing);
    }
  }

  /** No two rows meet on the way when each ends where it began. */
  lemma NeverMeet(daily: map<Key, Daily>, mapping: seq<Renaming>, i: nat, k: Key, other: Key)
    requires Proper(mapping) && Standing(daily, mapping) && i <= |mapping| && k in daily
    requires other in ReunifyAll(daily, mapping[..i]) && other.day == k.day && other.client == k.client
    requires i < |mapping| && other.model != Final(mapping[..i], k.model)
    ensures var m := mapping[i];
            var at := Final(mapping[..i], k.model);
            (if other.model == m.former then m.current else other.model) != (if at == m.former then m.current else at)
  {
    var m := mapping[i];
    var j := RowCameFrom(daily, mapping[..i], other);
    assert mapping[..i + 1][..i] == mapping[..i];
    Onwards(mapping, i + 1, j.model, k.model);
    assert Final(mapping[..i + 1], j.model) == if other.model == m.former then m.current else other.model;
    assert Final(mapping[..i + 1], j.model) == Final(mapping[..i + 1], k.model) ==> j.model == k.model && j == k;
  }

  /** After these renamings the row is where its name has got to, as it was. */
  predicate Passed(daily: map<Key, Daily>, part: seq<Renaming>, k: Key)
    requires k in daily
  {
    var at := Under(k, Final(part, k.model));
    at in ReunifyAll(daily, part) && ReunifyAll(daily, part)[at] == daily[k]
  }

  lemma PassedNone(daily: map<Key, Daily>, part: seq<Renaming>, k: Key)
    requires k in daily && part == []
    ensures Passed(daily, part, k)
  {
    assert Under(k, k.model) == k;
  }

  lemma {:induction false} RowsPassUnchanged(daily: map<Key, Daily>, mapping: seq<Renaming>, i: nat, k: Key)
    requires Proper(mapping) && Standing(daily, mapping) && Labelled(daily, mapping) && i <= |mapping| && k in daily
    ensures Passed(daily, mapping[..i], k)
  {
    if i > 0 {
      RowsPassUnchanged(daily, mapping, i - 1, k);
      OneMorePass(daily, mapping, i - 1, k);
    } else {
      PassedNone(daily, mapping[..i], k);
    }
  }

  lemma OneMorePass(daily: map<Key, Daily>, mapping: seq<Renaming>, i: nat, k: Key)
    requires Proper(mapping) && Standing(daily, mapping) && Labelled(daily, mapping) && i < |mapping| && k in daily
    requires Passed(daily, mapping[..i], k)
    ensures Passed(daily, mapping[..i + 1], k)
  {
    var m, before := mapping[i], ReunifyAll(daily, mapping[..i]);
    var name := Final(mapping[..i], k.model);
    assert mapping[..i + 1][..i] == mapping[..i];
    if name == m.former {
      if Under(k, m.current) in before {
        NeverMeet(daily, mapping, i, k, Under(k, m.current));
      }
      Onwards(mapping, i + 1, k.model, k.model);
      assert Moves(mapping[..i + 1], k.model);
      assert Under(Under(k, m.current), m.former) == Under(k, name);
      Lands(before, m, Under(k, m.current));
    } else {
      if name == m.current && Under(k, m.former) in before {
        NeverMeet(daily, mapping, i, k, Under(k, m.former));
      }
      assert Under(Under(k, name), m.former) == Under(k, m.former);
      Lands(before, m, Under(k, name));
    }
  }

  lemma StandingRowsStay(daily: map<Key, Daily>, mapping: seq<Renaming>)
    requires Proper(mapping) && Standing(daily, mapping) && Labelled(daily, mapping)
    ensures ReunifyAll(daily, mapping) == daily
  {
    var after := ReunifyAll(daily, mapping);
    forall k
      ensures k in daily <==> k in after
      ensures k in daily ==> after[k] == daily[k]
    {
      if k in daily {
        PassedAll(daily, mapping, k);
      }
      if k in after {
        CameFromItself(daily, mapping, k);
      }
    }
  }

  lemma CameFromItself(daily: map<Key, Daily>, mapping: seq<Renaming>, k: Key)
    requires Proper(mapping) && Standing(daily, mapping) && k in ReunifyAll(daily, mapping)
    ensures k in daily
  {
    var j := RowCameFrom(daily, mapping, k);
    assert Under(j, j.model) == j;
  }

  lemma PassedAll(daily: map<Key, Daily>, mapping: seq<Renaming>, k: Key)
    requires Proper(mapping) && Standing(daily, mapping) && Labelled(daily, mapping) && k in daily
    ensures k in ReunifyAll(daily, mapping) && ReunifyAll(daily, mapping)[k] == daily[k]
  {
    RowsPassUnchanged(daily, mapping, |mapping|, k);
    assert mapping[..|mapping|] == mapping;
    assert Under(k, k.model) == k;
  }

  lemma RowsOnce(daily: map<Key, Daily>, mapping: seq<Renaming>)
    requires Proper(mapping) && Settled(mapping)
    ensures ReunifyAll(ReunifyAll(daily, mapping), mapping) == ReunifyAll(daily, mapping)
  {
    RowsStand(daily, mapping);
    RowsAreLabelled(daily, mapping);
    StandingRowsStay(ReunifyAll(daily, mapping), mapping);
  }

  // ---------- Twice is once ----------

  /** A second application to this ledger changes nothing. */
  predicate TwiceIsOnce(daily: map<Key, Daily>, events: seq<Event>, mapping: seq<Renaming>) {
    && ReunifyAll(ReunifyAll(daily, mapping), mapping) == ReunifyAll(daily, mapping)
    && RekeyAll(RekeyAll(events, mapping), mapping) == RekeyAll(events, mapping)
  }

  /** A name that is taken on from where it ends: any rollup with its one row under that name, and any
      events with one, move again. */
  lemma UnsettledMovesAgain(mapping: seq<Renaming>, k: Key, row: Daily, e: Event)
    requires Proper(mapping) && e.key == k
    requires Final(mapping, Final(mapping, k.model)) != Final(mapping, k.model)
    ensures var once := ReunifyAll(map[k := row], mapping);
            Under(k, Final(mapping, k.model)) in once && Under(k, Final(mapping, k.model)) !in ReunifyAll(once, mapping)
    ensures RekeyAll(RekeyAll([e], mapping), mapping) != RekeyAll([e], mapping)
  {
    var start := map[k := row];
    var once := ReunifyAll(start, mapping);
    var at := Under(k, Final(mapping, k.model));
    RowLands(start, mapping, k);
    if at in ReunifyAll(once, mapping) {
      var j := RowCameFrom(once, mapping, at);
      var i := RowCameFrom(start, mapping, j);
    }
    EventAfter([e], mapping, 0);
    EventAfter(RekeyAll([e], mapping), mapping, 0);
  }

  /** Applying a mapping twice is applying it once, on every rollup and every event log, exactly if it
      takes no name on from where it ends. */
  lemma ReunifyIsIdempotentIffSettled(mapping: seq<Renaming>)
    requires Proper(mapping)
    ensures (forall daily, events :: TwiceIsOnce(daily, events, mapping)) <==> Settled(mapping)
  {
    if Settled(mapping) {
      forall daily, events
        ensures TwiceIsOnce(daily, events, mapping)
      {
        RowsOnce(daily, mapping);
        EventsOnce(events, mapping);
      }
    } else {
      var name :| Final(mapping, Final(mapping, name)) != Final(mapping, name);
      UnsettledHasALedger(mapping, Key(0, [], name));
    }
  }

  lemma UnsettledHasALedger(mapping: seq<Renaming>, k: Key)
    requires Proper(mapping) && Final(mapping, Final(mapping, k.model)) != Final(mapping, k.model)
    ensures exists daily, events :: !TwiceIsOnce(daily, events, mapping)
  {
    var e := Event(k, None, Chat, 0, 0, 0, ModelPrice(None, None, None), None, 0);
    var row := Daily(None, ZERO);
    UnsettledMovesAgain(mapping, k, row, e);
    assert !TwiceIsOnce(map[k := row], [e], mapping);
  }

  /** No renaming leads back into a name an earlier one emptied. */
  predicate NoneRefilled(mapping: seq<Renaming>) {
    && Proper(mapping)
    && forall i, j :: 0 <= i < j < |mapping| ==> mapping[j].current != mapping[i].former
  }

  lemma {:induction false} EndsOutside(mapping: seq<Renaming>, name: string, j: nat)
    requires NoneRefilled(mapping) && j < |mapping|
    ensures Final(mapping, name) != mapping[j].former
  {
    var n := |mapping| - 1;
    if j < n {
      EndsOutside(mapping[..n], name, j);
    }
  }

  lemma {:induction false} OutsideStays(mapping: seq<Renaming>, name: string)
    requires forall j :: 0 <= j < |mapping| ==> name != mapping[j].former
    ensures Final(mapping, name) == name
  {
    if mapping != [] {
      OutsideStays(mapping[..|mapping| - 1], name);
    }
  }

  /** In particular where no emptied name is filled again, as when no new name is anybody's old one. */
  lemma NoneRefilledIsSettled(mapping: seq<Renaming>)
    requires NoneRefilled(mapping)
    ensures Settled(mapping)
  {
    forall name: string
      ensures Final(mapping, Final(mapping, name)) == Final(mapping, name)
    {
      forall j | 0 <= j < |mapping|
        ensures Final(mapping, name) != mapping[j].former
      {
        EndsOutside(mapping, name, j);
      }
      OutsideStays(mapping, Final(mapping, name));
    }
  }
}
