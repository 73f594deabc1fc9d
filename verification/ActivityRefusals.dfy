/** What becomes of refusals: a refusal is counted on the entry of an identity that is there, for as long
    as the entry is. */
module ActivityRefusals {
  import opened Common
  import opened Activity

  /** Not recorded: nobody by that name is here, or twenty other pairs are. */
  predicate TurnedAway(entries: Entries, client: string, what: Refusal) {
    client !in entries || (what !in entries[client].refusals && |entries[client].refusals| >= 20)
  }

  /** A look that finds the identity quiet for too long, and drops it with all it holds. */
  predicate Drops(entries: Entries, client: string, e: Event) {
    e.Looking? && client in entries && Stale(entries[client], e.at)
  }

  predicate IsRefusal(e: Event, client: string, what: Refusal, start: int) {
    e.Refusing? && e.client == client && e.what == what && e.at >= 60.0 * start as real
  }

  /** The refusals of a pair in the buckets from `start` on, over the whole history. */
  function Refusals(history: seq<Event>, client: string, what: Refusal, start: int): nat {
    if history == [] then 0
    else
      Refusals(history[..|history| - 1], client, what, start)
      + if IsRefusal(history[|history| - 1], client, what, start) then 1 else 0
  }

  /** Those of them still held. */
  function Held(history: seq<Event>, client: string, what: Refusal, start: int): nat {
    if history == [] then 0
    else
      var before, e := history[..|history| - 1], history[|history| - 1];
      if Drops(Run(before), client, e) then 0
      else
        Held(before, client, what, start)
        + if IsRefusal(e, client, what, start) && !TurnedAway(Run(before), client, what) then 1 else 0
  }

  function RefusalBuckets(entries: Entries, client: string, what: Refusal): Buckets {
    if client in entries && what in entries[client].refusals then entries[client].refusals[what] else map[]
  }

  // ---------- What is shown is what is held ----------

  lemma NextBuckets(entries: Entries, e: Event, client: string, what: Refusal)
    ensures RefusalBuckets(Next(entries, e), client, what) ==
            var before := RefusalBuckets(entries, client, what);
            if Drops(entries, client, e) then map[]
            else if e.Refusing? && e.client == client && e.what == what && !TurnedAway(entries, client, what)
            then Bumped(before, Bucket(e.at))
            else before
  {
  }

  lemma NoneSince(start: int)
    ensures Since(map[], start) == 0
  {
    assert From(NO_BUCKETS, start) == NO_BUCKETS;
  }

  /** While the clock never goes back, pruning loses no refusal of the window. */
  lemma {:induction false} BucketsAreHeld(history: seq<Event>, client: string, what: Refusal, now: real, start: int)
    requires Monotone(history) && NotAfter(history, now) && start >= WindowStart(now)
    ensures Since(RefusalBuckets(Run(history), client, what), start) == Held(history, client, what, start)
  {
    NoneSince(start);
    if history != [] {
      var before, e := history[..|history| - 1], history[|history| - 1];
      BucketsAdvance(e.at, now);
      BucketIsMinute(e.at, start);
      BucketsAreHeld(before, client, what, e.at, start);
      NextBuckets(Run(before), e, client, what);
      BumpCounts(RefusalBuckets(Run(before), client, what), Bucket(e.at), start);
    }
  }

  // ---------- How one is lost ----------

  /** The i-th event is a refusal of the window that was not recorded, or was dropped since. */
  predicate Lost(history: seq<Event>, i: nat, client: string, what: Refusal, start: int)
    requires i < |history|
  {
    && IsRefusal(history[i], client, what, start)
    && (TurnedAway(Run(history[..i]), client, what) || DroppedSince(history, i, client))
  }

  /** Some event after the i-th dropped the identity. */
  predicate DroppedSince(history: seq<Event>, i: nat, client: string) {
    i + 1 < |history|
    && var before := history[..|history| - 1];
       DroppedSince(before, i, client) || Drops(Run(before), client, history[|history| - 1])
  }

  predicate NoneLost(history: seq<Event>, client: string, what: Refusal, start: int) {
    forall i :: 0 <= i < |history| ==> !Lost(history, i, client, what, start)
  }

  lemma LostNext(history: seq<Event>, i: nat, client: string, what: Refusal, start: int)
    requires history != [] && i < |history| - 1
    ensures var n := |history| - 1;
            Lost(history, i, client, what, start) <==>
            || Lost(history[..n], i, client, what, start)
            || (IsRefusal(history[i], client, what, start) && Drops(Run(history[..n]), client, history[n]))
  {
    assert history[..|history| - 1][..i] == history[..i];
  }

  lemma {:induction false} NoRefusals(history: seq<Event>, client: string, what: Refusal, start: int)
    ensures Refusals(history, client, what, start) == 0 <==>
            forall i :: 0 <= i < |history| ==> !IsRefusal(history[i], client, what, start)
  {
    if history != [] {
      var n := |history| - 1;
      NoRefusals(history[..n], client, what, start);
      assert forall i :: 0 <= i < n ==> history[..n][i] == history[i];
    }
  }

  lemma {:induction false} HeldIsAllIffNoneLost(history: seq<Event>, client: string, what: Refusal, start: int)
    ensures Held(history, client, what, start) <= Refusals(history, client, what, start)
    ensures Held(history, client, what, start) == Refusals(history, client, what, start) <==>
            NoneLost(history, client, what, start)
  {
    if history != [] {
      var n := |history| - 1;
      var before, e := history[..n], history[n];
      HeldIsAllIffNoneLost(before, client, what, start);
      NoRefusals(before, client, what, start);
      NoneLostNext(history, client, what, start);
    }
  }

  lemma NoneLostNext(history: seq<Event>, client: string, what: Refusal, start: int)
    requires history != []
    ensures var n := |history| - 1;
            var before, e := history[..n], history[n];
            NoneLost(history, client, what, start) <==>
            && NoneLost(before, client, what, start)
            && !(IsRefusal(e, client, what, start) && TurnedAway(Run(before), client, what))
            && (Drops(Run(before), client, e) ==>
                  forall i :: 0 <= i < n ==> !IsRefusal(before[i], client, what, start))
  {
    var n := |history| - 1;
    forall i | 0 <= i < n
      ensures Lost(history, i, client, what, start) <==>
              || Lost(history[..n], i, client, what, start)
              || (IsRefusal(history[..n][i], client, what, start) && Drops(Run(history[..n]), client, history[n]))
    {
      LostNext(history, i, client, what, start);
    }
    assert Lost(history, n, client, what, start) <==>
           IsRefusal(history[n], client, what, start) && TurnedAway(Run(history[..n]), client, what);
  }

  lemma LookedIsFresh(history: seq<Event>, client: string, what: Refusal, now: real)
    ensures var looked, start := history + [Looking(now)], WindowStart(now);
            && Run(looked) == Fresh(Run(history), now)
            && ShownRefusals(Run(looked), client, what, now) == Since(RefusalBuckets(Run(looked), client, what), start)
  {
    var looked := history + [Looking(now)];
    assert looked[..|history|] == history;
    NoneSince(WindowStart(now));
  }

  lemma ShownIsHeld(history: seq<Event>, client: string, what: Refusal, now: real)
    requires Monotone(history) && NotAfter(history, now)
    ensures ShownRefusals(Fresh(Run(history), now), client, what, now) ==
            Held(history + [Looking(now)], client, what, WindowStart(now))
  {
    LookedIsFresh(history, client, what, now);
    BucketsAreHeld(history + [Looking(now)], client, what, now, WindowStart(now));
  }

  /** The count shown for a refusal is that of the whole history's last fifteen buckets exactly if each of
      those refusals was recorded and its identity has not been dropped since, this look included. */
  lemma RefusalsAreExactIffNoneLost(history: seq<Event>, client: string, what: Refusal, now: real)
    requires Monotone(history) && NotAfter(history, now)
    ensures ShownRefusals(Fresh(Run(history), now), client, what, now)
              == Refusals(history, client, what, (now / 60.0).Floor - 14)
            <==> NoneLost(history + [Looking(now)], client, what, (now / 60.0).Floor - 14)
    ensures ShownRefusals(Fresh(Run(history), now), client, what, now)
              <= Refusals(history, client, what, (now / 60.0).Floor - 14)
  {
    ShownIffNoneLost(history, client, what, now, (now / 60.0).Floor - 14);
  }

  lemma ShownIffNoneLost(history: seq<Event>, client: string, what: Refusal, now: real, start: int)
    requires Monotone(history) && NotAfter(history, now) && start == WindowStart(now)
    ensures var shown := ShownRefusals(Fresh(Run(history), now), client, what, now);
            && (shown == Refusals(history, client, what, start) <==> NoneLost(history + [Looking(now)], client, what, start))
            && shown <= Refusals(history, client, what, start)
  {
    ShownIsHeld(history, client, what, now);
    LookIsNoRefusal(history, client, what, now, start);
    HeldIsAllIffNoneLost(history + [Looking(now)], client, what, start);
  }

  lemma LookIsNoRefusal(history: seq<Event>, client: string, what: Refusal, now: real, start: int)
    ensures Refusals(history + [Looking(now)], client, what, start) == Refusals(history, client, what, start)
  {
    assert (history + [Looking(now)])[..|history|] == history;
  }

  // ---------- When the identity is dropped ----------

  /** What the identity last did itself, of some kind or any. */
  function LastTouch(history: seq<Event>, client: string, act: Option<Act>): Option<Event> {
    if history == [] then None
    else
      var e := history[|history| - 1];
      if e.Touching? && e.client == client && (act.Some? ==> e.act == act.value) then Some(e)
      else LastTouch(history[..|history| - 1], client, act)
  }

  /** An entry is as the identity's last touch left it, and each of its actions as the last of that kind. */
  lemma {:induction false} EntryIsTheLastTouch(history: seq<Event>, client: string)
    requires client in Run(history)
    ensures var e, last := Run(history)[client], LastTouch(history, client, None);
            && last.Some? && last.value.Touching?
            && e.user == last.value.user && e.connection == last.value.connection && e.lastSeen == last.value.at
            && forall act :: act in e.actions ==>
                 && LastTouch(history, client, Some(act)).Some?
                 && e.actions[act].lastSeen == LastTouch(history, client, Some(act)).value.at
  {
    var n := |history| - 1;
    if history[n].Touching? && history[n].client == client {
      TouchedEntry(Run(history[..n]), history[n]);
      if client in Run(history[..n]) {
        EntryIsTheLastTouch(history[..n], client);
      }
    } else {
      EntryIsTheLastTouch(history[..n], client);
      UntouchedEntry(Run(history[..n]), history[n], client);
    }
  }

  lemma UntouchedEntry(entries: Entries, e: Event, client: string)
    requires client in Next(entries, e) && !(e.Touching? && e.client == client)
    ensures client in entries
    ensures var was, after := entries[client], Next(entries, e)[client]; after == was.(refusals := after.refusals)
  {
  }

  lemma TouchedEntry(entries: Entries, e: Event)
    requires e.Touching?
    ensures var after := Next(entries, e)[e.client];
            && after.user == e.user && after.connection == e.connection && after.lastSeen == e.at
            && e.act in after.actions && after.actions[e.act].lastSeen == e.at
            && forall act :: act != e.act && act in after.actions ==>
                 e.client in entries && act in entries[e.client].actions
                 && after.actions[act] == entries[e.client].actions[act]
  {
  }

  /** So what a look shows of an identity, as Describes has it, is told by its history: who it is and how long
      ago it was there; */
  lemma ViewTellsWho(history: seq<Event>, now: real, client: string)
    requires client in Fresh(Run(history), now)
    ensures var e, last := Fresh(Run(history), now)[client], LastTouch(history, client, None);
            && last.Some? && last.value.Touching? && now - last.value.at <= 900.0
            && e.user == last.value.user && e.connection == last.value.connection && e.lastSeen == last.value.at
  {
    EntryIsTheLastTouch(history, client);
  }

  /** each action of the last fifteen minute-buckets, how often and how long ago; */
  lemma ViewTellsWhat(history: seq<Event>, now: real, client: string, actions: map<Act, SeenAction>, act: Act)
    requires Monotone(history) && NotAfter(history, now)
    requires client in Fresh(Run(history), now) && ActionsShown(actions, Fresh(Run(history), now)[client], now)
    ensures var count, last := Touches(history, client, act, (now / 60.0).Floor - 14), LastTouch(history, client, Some(act));
            && (act in actions <==> count > 0)
            && (act in actions ==> last.Some? && actions[act] == SeenAction(count, Truncated(now - last.value.at)))
  {
    CountIsExact(history, now, client, act);
    ActedLast(history, now, client, act);
    ActionIsShown(actions, Fresh(Run(history), now)[client], now, act, Touches(history, client, act, (now / 60.0).Floor - 14),
                  LastTouch(history, client, Some(act)));
  }

  lemma ActionIsShown(actions: map<Act, SeenAction>, e: Entry, now: real, act: Act, count: nat, last: Option<Event>)
    requires ActionsShown(actions, e, now) && ActionCount(e, act, now) == count
    requires act in e.actions ==> last.Some? && e.actions[act].lastSeen == last.value.at
    ensures act in actions <==> count > 0
    ensures act in actions ==> last.Some? && actions[act] == SeenAction(count, Truncated(now - last.value.at))
  {
  }

  lemma CountIsExact(history: seq<Event>, now: real, client: string, act: Act)
    requires Monotone(history) && NotAfter(history, now) && client in Fresh(Run(history), now)
    ensures ActionCount(Fresh(Run(history), now)[client], act, now) == Touches(history, client, act, (now / 60.0).Floor - 14)
  {
    SnapshotIsExact(history, now, client, act);
  }

  lemma ActedLast(history: seq<Event>, now: real, client: string, act: Act)
    requires client in Fresh(Run(history), now)
    ensures var e, last := Fresh(Run(history), now)[client], LastTouch(history, client, Some(act));
            act in e.actions ==> last.Some? && e.actions[act].lastSeen == last.value.at
  {
    EntryIsTheLastTouch(history, client);
  }

  /** and the refusals of them that are still held. */
  lemma ViewTellsRefusals(history: seq<Event>, now: real, client: string, refusals: map<Refusal, nat>, what: Refusal)
    requires Monotone(history) && NotAfter(history, now)
    requires client in Fresh(Run(history), now) && RefusalsShown(refusals, Fresh(Run(history), now)[client], now)
    ensures var count := Held(history + [Looking(now)], client, what, (now / 60.0).Floor - 14);
            && (what in refusals <==> count > 0)
            && (what in refusals ==> refusals[what] == count)
  {
    assert WindowStart(now) == (now / 60.0).Floor - 14;
    ShownIsHeld(history, client, what, now);
  }

  lemma {:induction false} StaysUnlooked(history: seq<Event>, i: nat, client: string)
    requires i <= |history| && client in Run(history[..i])
    requires forall j :: i <= j < |history| ==> !history[j].Looking?
    ensures client in Run(history)
  {
    if i < |history| {
      assert history[..|history| - 1][..i] == history[..i];
      StaysUnlooked(history[..|history| - 1], i, client);
    } else {
      assert history[..i] == history;
    }
  }

  /** A refusal of the window, recorded, and no look since: the next look loses it exactly if the identity's
      last touch, not the refusal, is more than fifteen minutes old. */
  lemma RefusalIsLostIffQuiet(history: seq<Event>, i: nat, client: string, what: Refusal, now: real)
    requires i < |history| && IsRefusal(history[i], client, what, (now / 60.0).Floor - 14)
    requires !TurnedAway(Run(history[..i]), client, what)
    requires forall j :: i < j < |history| ==> !history[j].Looking?
    ensures LastTouch(history, client, None).Some?
    ensures Lost(history + [Looking(now)], i, client, what, (now / 60.0).Floor - 14) <==>
            now - LastTouch(history, client, None).value.at > 900.0
  {
    var n := |history|;
    var looked := history + [Looking(now)];
    StaysUnlooked(history, i, client);
    EntryIsTheLastTouch(history, client);
    assert looked[..n] == history && looked[..i] == history[..i];
    NoLookDropsNobody(history, i, client);
  }

  lemma {:induction false} NoLookDropsNobody(history: seq<Event>, i: nat, client: string)
    requires forall j :: i < j < |history| ==> !history[j].Looking?
    ensures !DroppedSince(history, i, client)
  {
    if i + 1 < |history| {
      NoLookDropsNobody(history[..|history| - 1], i, client);
    }
  }

  // ---------- Unrecognised paths ----------

  predicate AsksFor(e: Event, client: string, path: string) {
    e.Touching? && e.client == client && e.act == Other && e.path == Some(path)
  }

  /** How often the identity has asked for a path nobody recognises, since it was last dropped. */
  function Asked(history: seq<Event>, client: string, path: string): nat {
    if history == [] then 0
    else
      var before, e := history[..|history| - 1], history[|history| - 1];
      if Drops(Run(before), client, e) then 0
      else Asked(before, client, path) + if AsksFor(e, client, path) then 1 else 0
  }

  predicate PathExact(entries: Entries, client: string, path: string, asked: nat) {
    && (asked > 0 ==> client in entries)
    && (client in entries ==>
          var paths := entries[client].otherPaths;
          if path in paths then paths[path] == asked else asked == 0 || |paths| >= 10)
  }

  lemma NextPathExact(entries: Entries, client: string, path: string, asked: nat, e: Event)
    requires path != "" && PathExact(entries, client, path, asked)
    ensures PathExact(Next(entries, e), client, path,
                      if Drops(entries, client, e) then 0 else asked + if AsksFor(e, client, path) then 1 else 0)
  {
    if e.Touching? && e.client == client && client in entries && e.path.Some? {
      var paths := entries[client].otherPaths;
      SizeAfter(paths, e.path.value, At(paths, e.path.value, 0) + 1);
    }
  }

  /** A path that is shown has been counted every time since the identity was last dropped; one that was
      asked for and is not shown found ten others there. */
  lemma {:induction false} PathsAreExactOrFull(history: seq<Event>, client: string, path: string)
    requires path != ""
    ensures PathExact(Run(history), client, path, Asked(history, client, path))
  {
    if history != [] {
      var before, e := history[..|history| - 1], history[|history| - 1];
      PathsAreExactOrFull(before, client, path);
      NextPathExact(Run(before), client, path, Asked(before, client, path), e);
    }
  }
}
