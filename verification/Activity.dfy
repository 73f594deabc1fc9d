/** Who is here and doing what (ActivityTracker of telemetry.py): minute buckets per identity and
    action, pruned as they are written, summed over the last fifteen minutes. */
module Activity {
  import opened Common

  const STALE_AFTER := 900.0
  const WINDOW_BUCKETS := 15
  const MAX_OTHER_PATHS := 10
  const MAX_REFUSALS := 20

  datatype Act = Chat | Embeddings | Rerank | Predict | Images | Models | Backends | Usage | Playground | Dashboard | Other

  function Bucket(now: real): int {
    (now / 60.0).Floor
  }

  /** The first bucket of the window that ends now. */
  function WindowStart(now: real): int {
    Bucket(now) - WINDOW_BUCKETS + 1
  }

  // ---------- Minute buckets ----------

  type Buckets = map<int, nat>

  function At<K, V>(m: map<K, V>, k: K, otherwise: V): V {
    if k in m then m[k] else otherwise
  }

  function From(m: Buckets, start: int): Buckets {
    map b | b in m && b >= start :: m[b]
  }

  /** One more in this minute, and the minutes long past forgotten. */
  function Bumped(m: Buckets, bucket: int): Buckets {
    From(m[bucket := At(m, bucket, 0) + 1], bucket - WINDOW_BUCKETS)
  }

  function Gain(t: int, n: nat): int {
    t + n
  }

  ghost function Total(m: Buckets): int {
    FoldMap<int, nat, int>(m, 0, Gain)
  }

  lemma TotalTakesAny(m: Buckets, b: int)
    requires b in m
    ensures Total(m) == m[b] + Total(m - {b})
  {
    FoldTakesAny<int, nat, int>(m, 0, Gain, b);
  }

  lemma TotalIsNatural(m: Buckets)
    ensures Total(m) >= 0
  {
    FoldKeeps<int, nat, int>(m, 0, Gain, (t: int) => t >= 0);
  }

  /** What the window counts. */
  ghost function Since(m: Buckets, start: int): nat {
    TotalIsNatural(From(m, start));
    Total(From(m, start))
  }

  lemma BumpCounts(m: Buckets, bucket: int, start: int)
    requires start >= bucket - WINDOW_BUCKETS
    ensures Since(Bumped(m, bucket), start) == Since(m, start) + if bucket >= start then 1 else 0
  {
    var after := From(Bumped(m, bucket), start);
    if bucket >= start {
      TotalTakesAny(after, bucket);
      if bucket in m {
        TotalTakesAny(From(m, start), bucket);
        assert after - {bucket} == From(m, start) - {bucket};
      } else {
        assert after - {bucket} == From(m, start);
      }
    } else {
      assert after == From(m, start);
    }
  }

  // ---------- Entries ----------

  datatype Counter = Counter(buckets: Buckets, lastSeen: real)

  datatype Refusal = Refusal(model: string, reason: string)

  datatype Entry = Entry(
    user: string,
    connection: string,
    lastSeen: real,
    actions: map<Act, Counter>,
    otherPaths: map<string, nat>,
    refusals: map<Refusal, Buckets>)

  type Entries = map<string, Entry>

  const NO_BUCKETS: Buckets := map[]

  function PathNoted(paths: map<string, nat>, act: Act, path: Option<string>): map<string, nat> {
    if act.Other? && path.Some? && path.value != "" && (path.value in paths || |paths| < MAX_OTHER_PATHS)
    then paths[path.value := At(paths, path.value, 0) + 1]
    else paths
  }

  function Touched(entries: Entries, client: string, user: string, connection: string, act: Act,
                   path: Option<string>, now: real): Entries
  {
    var was := At(entries, client, Entry(user, connection, now, map[], map[], map[]));
    var counter := At(was.actions, act, Counter(NO_BUCKETS, now));
    entries[client := Entry(user, connection, now,
                            was.actions[act := Counter(Bumped(counter.buckets, Bucket(now)), now)],
                            PathNoted(was.otherPaths, act, path), was.refusals)]
  }

  function Refused(entries: Entries, client: string, what: Refusal, now: real): Entries {
    if client !in entries then entries
    else
      var was := entries[client];
      if what !in was.refusals && |was.refusals| >= MAX_REFUSALS then entries
      else entries[client := was.(refusals := was.refusals[what := Bumped(At(was.refusals, what, NO_BUCKETS), Bucket(now))])]
  }

  predicate Stale(e: Entry, now: real) {
    now - e.lastSeen > STALE_AFTER
  }

  function Fresh(entries: Entries, now: real): Entries {
    map c | c in entries && !Stale(entries[c], now) :: entries[c]
  }

  ghost function ActionCount(e: Entry, act: Act, now: real): nat {
    if act in e.actions then Since(e.actions[act].buckets, WindowStart(now)) else 0
  }

  ghost function RefusalCount(e: Entry, what: Refusal, now: real): nat {
    if what in e.refusals then Since(e.refusals[what], WindowStart(now)) else 0
  }

  /** The count shown for an identity's action; what counts nothing is not shown. */
  ghost function Shown(entries: Entries, client: string, act: Act, now: real): nat {
    if client in entries then ActionCount(entries[client], act, now) else 0
  }

  /** The count shown for a refusal. */
  ghost function ShownRefusals(entries: Entries, client: string, what: Refusal, now: real): nat {
    if client in entries then RefusalCount(entries[client], what, now) else 0
  }

  class ActivityTracker {
    var entries: Entries

    constructor ()
      ensures entries == map[]
    {
      entries := map[];
    }

    method Touch(client: string, user: string, connection: string, act: Act, path: Option<string>, now: real)
      modifies this
      ensures entries == Touched(old(entries), client, user, connection, act, path, now)
    {
      var e := if client in entries then entries[client] else Entry(user, connection, now, map[], map[], map[]);
      var counter := if act in e.actions then e.actions[act] else Counter(map[], now);
      var paths := NotePath(e.otherPaths, act, path);
      var buckets := Count(counter.buckets, Bucket(now));
      entries := entries[client := Entry(user, connection, now, e.actions[act := Counter(buckets, now)], paths, e.refusals)];
    }

    method NotePath(paths: map<string, nat>, act: Act, path: Option<string>) returns (noted: map<string, nat>)
      ensures noted == PathNoted(paths, act, path)
    {
      noted := paths;
      if act.Other? && path.Some? && path.value != "" {
        if path.value in noted || |noted| < MAX_OTHER_PATHS {
          noted := noted[path.value := At(noted, path.value, 0) + 1];
        }
      }
    }

    method Refuse(client: string, model: Option<string>, reason: string, now: real)
      modifies this
      ensures var name := if model.Some? && model.value != "" then model.value else "unnamed";
              entries == Refused(old(entries), client, Refusal(name, reason), now)
    {
      if client !in entries {
        return;
      }
      var e := entries[client];
      var what := Refusal(if model.Some? && model.value != "" then model.value else "unnamed", reason);
      if what !in e.refusals && |e.refusals| >= MAX_REFUSALS {
        return;
      }
      var buckets := Count(At(e.refusals, what, NO_BUCKETS), Bucket(now));
      entries := entries[client := e.(refusals := e.refusals[what := buckets])];
    }

    /** The identities of the window, each with what it did and was refused in it. */
    method Snapshot(now: real) returns (active: map<string, Seen>)
      modifies this
      ensures entries == Fresh(old(entries), now)
      ensures forall c :: c in entries <==> c in old(entries) && now - old(entries)[c].lastSeen <= 900.0
      ensures active.Keys == entries.Keys
      ensures forall c :: c in active ==> c in entries && Describes(active[c], entries[c], now)
    {
      var stale := set c | c in entries && Stale(entries[c], now);
      entries := entries - stale;
      assert entries == Fresh(old(entries), now);
      active := map[];
      var left := entries.Keys;
      while left != {}
        invariant entries == Fresh(old(entries), now)
        invariant left <= entries.Keys && active.Keys == entries.Keys - left
        invariant forall c :: c in active ==> Describes(active[c], entries[c], now)
        decreases left
      {
        var c :| c in left;
        var seen := Describe(entries[c], now);
        active := active[c := seen];
        left := left - {c};
      }
    }
  }

  /** What is shown of an identity; actions and refusals without a count are left out. */
  datatype Seen = Seen(
    user: string,
    connection: string,
    secondsAgo: int,
    actions: map<Act, SeenAction>,
    otherPaths: map<string, nat>,
    refusals: map<Refusal, nat>)

  datatype SeenAction = SeenAction(count: nat, secondsAgo: int)

  ghost predicate Describes(s: Seen, e: Entry, now: real) {
    && s.user == e.user && s.connection == e.connection && s.secondsAgo == Truncated(now - e.lastSeen)
    && s.otherPaths == e.otherPaths
    && ActionsShown(s.actions, e, now)
    && RefusalsShown(s.refusals, e, now)
  }

  ghost predicate RefusalsShown(refusals: map<Refusal, nat>, e: Entry, now: real) {
    forall what :: At(refusals, what, 0) == RefusalCount(e, what, now) && (what in refusals ==> refusals[what] > 0)
  }

  ghost predicate ActionsShown(actions: map<Act, SeenAction>, e: Entry, now: real) {
    && (forall act :: act in actions <==> ActionCount(e, act, now) > 0)
    && (forall act :: act in actions ==>
          && act in e.actions
          && actions[act] == SeenAction(ActionCount(e, act, now), Truncated(now - e.actions[act].lastSeen)))
  }

  method ShowActions(e: Entry, now: real) returns (actions: map<Act, SeenAction>)
    ensures ActionsShown(actions, e, now)
  {
    var counts := CountSince(map act | act in e.actions :: e.actions[act].buckets, WindowStart(now));
    actions := map act | act in counts :: SeenAction(counts[act], Truncated(now - e.actions[act].lastSeen));
  }

  method Describe(e: Entry, now: real) returns (seen: Seen)
    ensures Describes(seen, e, now)
  {
    var actions := ShowActions(e, now);
    var refusals := CountSince(e.refusals, WindowStart(now));
    seen := Seen(e.user, e.connection, Truncated(now - e.lastSeen), actions, e.otherPaths, refusals);
  }

  /** The bucket bumped, and each stale one deleted. */
  method Count(buckets: Buckets, bucket: int) returns (after: Buckets)
    ensures after == Bumped(buckets, bucket)
  {
    after := buckets[bucket := At(buckets, bucket, 0) + 1];
    var stale := set b | b in after && b < bucket - WINDOW_BUCKETS;
    ghost var all := after;
    while stale != {}
      invariant stale <= all.Keys && forall b :: b in stale ==> b < bucket - WINDOW_BUCKETS
      invariant forall b :: b in after <==> b in all && (b >= bucket - WINDOW_BUCKETS || b in stale)
      invariant forall b :: b in after ==> after[b] == all[b]
      decreases stale
    {
      var b :| b in stale;
      after := after - {b};
      stale := stale - {b};
    }
    assert forall b :: b in after <==> b in From(all, bucket - WINDOW_BUCKETS);
    assert after == From(all, bucket - WINDOW_BUCKETS);
  }

  method SumSince(buckets: Buckets, start: int) returns (n: nat)
    ensures n == Since(buckets, start)
  {
    var left := From(buckets, start);
    n := 0;
    while left != map[]
      invariant n + Total(left) == Since(buckets, start)
      decreases left.Keys
    {
      var b :| b in left;
      TotalTakesAny(left, b);
      n := n + left[b];
      left := left - {b};
    }
  }

  method CountSince<K(==)>(counters: map<K, Buckets>, start: int) returns (counts: map<K, nat>)
    ensures forall k :: k in counts <==> k in counters && Since(counters[k], start) > 0
    ensures forall k :: k in counts ==> counts[k] == Since(counters[k], start)
  {
    counts := map[];
    var left := counters.Keys;
    while left != {}
      invariant left <= counters.Keys
      invariant forall k :: k in counts <==> k in counters && k !in left && Since(counters[k], start) > 0
      invariant forall k :: k in counts ==> counts[k] == Since(counters[k], start)
      decreases left
    {
      var k :| k in left;
      var n := SumSince(counters[k], start);
      if n > 0 {
        counts := counts[k := n];
      }
      left := left - {k};
    }
  }

  // ---------- Whole histories ----------

  datatype Event =
    | Touching(client: string, user: string, connection: string, act: Act, path: Option<string>, at: real)
    | Refusing(client: string, what: Refusal, at: real)
    | Looking(at: real)

  function Next(entries: Entries, e: Event): Entries {
    match e
    case Touching(client, user, connection, act, path, at) => Touched(entries, client, user, connection, act, path, at)
    case Refusing(client, what, at) => Refused(entries, client, what, at)
    case Looking(at) => Fresh(entries, at)
  }

  function Run(history: seq<Event>): Entries {
    if history == [] then map[] else Next(Run(history[..|history| - 1]), history[|history| - 1])
  }

  predicate Monotone(history: seq<Event>) {
    forall i, j :: 0 <= i < j < |history| ==> history[i].at <= history[j].at
  }

  /** The touches of an identity's action in the minutes from `start` on, over the whole history. */
  function Touches(history: seq<Event>, client: string, act: Act, start: int): nat {
    if history == [] then 0
    else
      var e := history[|history| - 1];
      Touches(history[..|history| - 1], client, act, start)
      + if e.Touching? && e.client == client && e.act == act && e.at >= 60.0 * start as real then 1 else 0
  }

  function Counted(entries: Entries, client: string, act: Act): Buckets {
    if client in entries && act in entries[client].actions then entries[client].actions[act].buckets else map[]
  }

  /** A bucket is a minute of the clock. */
  lemma BucketIsMinute(t: real, start: int)
    ensures Bucket(t) >= start <==> t >= 60.0 * start as real
  {
  }

  lemma BucketsAdvance(t: real, u: real)
    requires t <= u
    ensures Bucket(t) <= Bucket(u)
  {
  }

  lemma StaleIsOut(t: real, now: real)
    requires now - t > STALE_AFTER
    ensures Bucket(t) < WindowStart(now)
  {
  }

  predicate NotAfter(history: seq<Event>, now: real) {
    forall i :: 0 <= i < |history| ==> history[i].at <= now
  }

  predicate SeenBy(history: seq<Event>, client: string, lastSeen: real) {
    forall i :: 0 <= i < |history| && history[i].Touching? && history[i].client == client ==> history[i].at <= lastSeen
  }

  lemma {:induction false} OldTouchesAreOut(history: seq<Event>, client: string, act: Act, last: real, start: int)
    requires SeenBy(history, client, last) && Bucket(last) < start
    ensures Touches(history, client, act, start) == 0
  {
    if history != [] {
      var n := |history| - 1;
      OldTouchesAreOut(history[..n], client, act, last, start);
      if history[n].Touching? && history[n].client == client {
        BucketsAdvance(history[n].at, last);
        BucketIsMinute(history[n].at, start);
      }
    }
  }

  /** The buckets kept for an action agree with the history from any bucket of the window on. */
  ghost predicate ExactFor(history: seq<Event>, entries: Entries, now: real, client: string, act: Act) {
    forall start :: start >= WindowStart(now) ==>
      Since(Counted(entries, client, act), start) == Touches(history, client, act, start)
  }

  ghost predicate Exact(history: seq<Event>, entries: Entries, now: real) {
    && (forall client, act :: ExactFor(history, entries, now, client, act))
    && (forall client :: client in entries ==> SeenBy(history, client, entries[client].lastSeen))
  }

  lemma ExactLater(history: seq<Event>, entries: Entries, now: real, later: real)
    requires Exact(history, entries, now) && now <= later
    ensures Exact(history, entries, later)
  {
    BucketsAdvance(now, later);
    forall client, act
      ensures ExactFor(history, entries, later, client, act)
    {
      assert ExactFor(history, entries, now, client, act);
    }
  }

  lemma TouchCounts(entries: Entries, e: Event, client: string, act: Act)
    requires e.Touching?
    ensures Counted(Next(entries, e), client, act) ==
            var before := Counted(entries, client, act);
            if e.client == client && e.act == act then Bumped(before, Bucket(e.at)) else before
  {
  }

  lemma TouchStaysExact(history: seq<Event>, entries: Entries, e: Event, client: string, act: Act)
    requires e.Touching? && ExactFor(history, entries, e.at, client, act)
    ensures ExactFor(history + [e], Next(entries, e), e.at, client, act)
  {
    TouchCounts(entries, e, client, act);
    var before, after := Counted(entries, client, act), Counted(Next(entries, e), client, act);
    forall start | start >= WindowStart(e.at)
      ensures Since(after, start) == Touches(history + [e], client, act, start)
    {
      assert Since(before, start) == Touches(history, client, act, start);
      TouchesAppend(history, e, client, act, start);
      BucketIsMinute(e.at, start);
      if e.client == client && e.act == act {
        BumpCounts(before, Bucket(e.at), start);
      }
    }
  }

  lemma TouchesAppend(history: seq<Event>, e: Event, client: string, act: Act, start: int)
    ensures Touches(history + [e], client, act, start) ==
            Touches(history, client, act, start)
            + if e.Touching? && e.client == client && e.act == act && e.at >= 60.0 * start as real then 1 else 0
  {
    assert (history + [e])[..|history|] == history;
  }

  lemma LookStaysExact(history: seq<Event>, entries: Entries, e: Event, client: string, act: Act)
    requires e.Looking? && ExactFor(history, entries, e.at, client, act)
    requires client in entries ==> SeenBy(history, client, entries[client].lastSeen)
    ensures ExactFor(history + [e], Next(entries, e), e.at, client, act)
  {
    assert (history + [e])[..|history|] == history;
    var before, after := Counted(entries, client, act), Counted(Next(entries, e), client, act);
    forall start | start >= WindowStart(e.at)
      ensures Since(after, start) == Touches(history + [e], client, act, start)
    {
      assert Since(before, start) == Touches(history, client, act, start);
      if client in entries && Stale(entries[client], e.at) {
        StaleIsOut(entries[client].lastSeen, e.at);
        OldTouchesAreOut(history, client, act, entries[client].lastSeen, start);
        assert From(after, start) == map[];
      } else {
        assert after == before;
      }
    }
  }

  lemma RefuseStaysExact(history: seq<Event>, entries: Entries, e: Event, client: string, act: Act)
    requires e.Refusing? && ExactFor(history, entries, e.at, client, act)
    ensures ExactFor(history + [e], Next(entries, e), e.at, client, act)
  {
    assert (history + [e])[..|history|] == history;
    assert Counted(Next(entries, e), client, act) == Counted(entries, client, act);
    assert forall start :: Touches(history + [e], client, act, start) == Touches(history, client, act, start);
  }

  lemma SeenStays(history: seq<Event>, entries: Entries, e: Event, client: string)
    requires NotAfter(history, e.at) && client in Next(entries, e)
    requires client in entries ==> SeenBy(history, client, entries[client].lastSeen)
    ensures SeenBy(history + [e], client, Next(entries, e)[client].lastSeen)
  {
  }

  lemma EventStaysExact(history: seq<Event>, entries: Entries, e: Event)
    requires Exact(history, entries, e.at) && NotAfter(history, e.at)
    ensures Exact(history + [e], Next(entries, e), e.at)
  {
    forall client, act
      ensures ExactFor(history + [e], Next(entries, e), e.at, client, act)
    {
      assert ExactFor(history, entries, e.at, client, act);
      match e
      case Touching(_, _, _, _, _, _) => TouchStaysExact(history, entries, e, client, act);
      case Refusing(_, _, _) => RefuseStaysExact(history, entries, e, client, act);
      case Looking(_) => LookStaysExact(history, entries, e, client, act);
    }
    forall client | client in Next(entries, e)
      ensures SeenBy(history + [e], client, Next(entries, e)[client].lastSeen)
    {
      SeenStays(history, entries, e, client);
    }
  }

  /** While the clock never goes back, the buckets kept are exact at every later moment. */
  lemma {:induction false} RunIsExact(history: seq<Event>, now: real)
    requires Monotone(history) && NotAfter(history, now)
    ensures Exact(history, Run(history), now)
  {
    if history == [] {
      assert forall start :: From(map[], start) == map[];
    } else {
      var n := |history| - 1;
      RunIsExact(history[..n], history[n].at);
      EventStaysExact(history[..n], Run(history[..n]), history[n]);
      assert history[..n] + [history[n]] == history;
      ExactLater(history, Run(history), history[n].at, now);
    }
  }

  /** What a snapshot shows of an identity's action is the number of its touches in the last fifteen
      minute-buckets of the whole history, whatever was pruned or dropped on the way or is now. */
  lemma SnapshotIsExact(history: seq<Event>, now: real, client: string, act: Act)
    requires Monotone(history) && NotAfter(history, now)
    ensures Shown(Fresh(Run(history), now), client, act, now) == Touches(history, client, act, (now / 60.0).Floor - 14)
  {
    assert WindowStart(now) == (now / 60.0).Floor - 14;
    FreshIsExact(history, now, client, act, WindowStart(now));
    ShownIsCounted(Fresh(Run(history), now), client, act, now);
  }

  lemma FreshIsExact(history: seq<Event>, now: real, client: string, act: Act, start: int)
    requires Monotone(history) && NotAfter(history, now) && start == WindowStart(now)
    ensures Since(Counted(Fresh(Run(history), now), client, act), start) == Touches(history, client, act, start)
  {
    RunIsExact(history, now);
    EventStaysExact(history, Run(history), Looking(now));
    assert ExactFor(history + [Looking(now)], Next(Run(history), Looking(now)), now, client, act);
    TouchesAppend(history, Looking(now), client, act, start);
  }

  lemma ShownIsCounted(entries: Entries, client: string, act: Act, now: real)
    ensures Shown(entries, client, act, now) == Since(Counted(entries, client, act), WindowStart(now))
  {
    assert From(NO_BUCKETS, WindowStart(now)) == NO_BUCKETS;
  }

  // ---------- Storage ----------

  lemma {:induction false} KeysInRange(keys: set<int>, lo: int, n: nat)
    requires forall b :: b in keys ==> lo <= b < lo + n
    ensures |keys| <= n
    decreases n
  {
    if n > 0 {
      var rest := keys - {lo};
      KeysInRange(rest, lo + 1, n - 1);
      assert |keys| <= |rest| + 1;
    } else {
      assert keys == {};
    }
  }

  predicate Recent(m: Buckets, now: real) {
    && (forall b :: b in m ==> b <= Bucket(now))
    && |m| <= 16
  }

  lemma BumpedIsRecent(m: Buckets, now: real)
    requires Recent(m, now)
    ensures Recent(Bumped(m, Bucket(now)), now)
  {
    KeysInRange(Bumped(m, Bucket(now)).Keys, Bucket(now) - WINDOW_BUCKETS, WINDOW_BUCKETS + 1);
    assert |Bumped(m, Bucket(now))| == |Bumped(m, Bucket(now)).Keys|;
  }

  /** What one identity can come to hold. */
  ghost predicate Small(e: Entry, now: real) {
    && (forall act :: act in e.actions ==> Recent(e.actions[act].buckets, now))
    && (forall what :: what in e.refusals ==> Recent(e.refusals[what], now))
    && |e.otherPaths| <= 10
    && |e.refusals| <= 20
  }

  ghost predicate AllSmall(entries: Entries, now: real) {
    forall c :: c in entries ==> Small(entries[c], now)
  }

  lemma SmallLater(e: Entry, now: real, later: real)
    requires Small(e, now) && now <= later
    ensures Small(e, later)
  {
    BucketsAdvance(now, later);
  }

  lemma SizeAfter<K, V>(m: map<K, V>, k: K, v: V)
    ensures |m[k := v]| == |m| + if k in m then 0 else 1
  {
    assert m[k := v].Keys == m.Keys + {k};
    assert |m[k := v]| == |m[k := v].Keys| && |m| == |m.Keys|;
  }

  lemma PathsStaySmall(paths: map<string, nat>, act: Act, path: Option<string>)
    requires |paths| <= 10
    ensures |PathNoted(paths, act, path)| <= 10
  {
    if path.Some? {
      SizeAfter(paths, path.value, At(paths, path.value, 0) + 1);
    }
  }

  lemma TouchStaysSmall(entries: Entries, e: Event)
    requires e.Touching? && (e.client in entries ==> Small(entries[e.client], e.at))
    ensures Small(Next(entries, e)[e.client], e.at)
  {
    var was := At(entries, e.client, Entry(e.user, e.connection, e.at, map[], map[], map[]));
    assert Small(was, e.at);
    BumpedIsRecent(At(was.actions, e.act, Counter(NO_BUCKETS, e.at)).buckets, e.at);
    PathsStaySmall(was.otherPaths, e.act, e.path);
  }

  lemma RefuseStaysSmall(was: Entry, what: Refusal, now: real)
    requires Small(was, now) && (what in was.refusals || |was.refusals| < MAX_REFUSALS)
    ensures Small(was.(refusals := was.refusals[what := Bumped(At(was.refusals, what, NO_BUCKETS), Bucket(now))]), now)
  {
    BumpedIsRecent(At(was.refusals, what, NO_BUCKETS), now);
    SizeAfter(was.refusals, what, Bumped(At(was.refusals, what, NO_BUCKETS), Bucket(now)));
  }

  lemma EventStaysSmall(entries: Entries, e: Event)
    requires AllSmall(entries, e.at)
    ensures AllSmall(Next(entries, e), e.at)
  {
    match e
    case Touching(_, _, _, _, _, _) => TouchStaysSmall(entries, e);
    case Refusing(_, _, _) => RefusingStaysSmall(entries, e);
    case Looking(_) =>
  }

  lemma EntryStaysSmall(entries: Entries, e: Event)
    requires e.Refusing? && e.client in entries && Small(entries[e.client], e.at)
    ensures Small(Next(entries, e)[e.client], e.at)
  {
    var was := entries[e.client];
    if e.what in was.refusals || |was.refusals| < MAX_REFUSALS {
      RefuseStaysSmall(was, e.what, e.at);
    }
  }

  lemma RefusingStaysSmall(entries: Entries, e: Event)
    requires e.Refusing? && AllSmall(entries, e.at)
    ensures AllSmall(Next(entries, e), e.at)
  {
    forall c | c in Next(entries, e)
      ensures Small(Next(entries, e)[c], e.at)
    {
      assert c in entries && Small(entries[c], e.at);
      if c == e.client {
        EntryStaysSmall(entries, e);
      }
    }
  }

  /** An identity never takes more than sixteen buckets an action or refusal, ten paths and twenty refusals. */
  lemma StorageIsBounded(history: seq<Event>, now: real, client: string)
    requires Monotone(history) && NotAfter(history, now) && client in Run(history)
    ensures var e := Run(history)[client];
            && |e.otherPaths| <= 10 && |e.refusals| <= 20
            && (forall act :: act in e.actions ==> |e.actions[act].buckets| <= 16)
            && (forall what :: what in e.refusals ==> |e.refusals[what]| <= 16)
  {
    AllStaySmall(history, now);
    assert Small(Run(history)[client], now);
  }

  lemma {:induction false} AllStaySmall(history: seq<Event>, now: real)
    requires Monotone(history) && NotAfter(history, now)
    ensures AllSmall(Run(history), now)
  {
    if history != [] {
      var n := |history| - 1;
      RunStep(history);
      AllStaySmall(history[..n], history[n].at);
      EventStaysSmall(Run(history[..n]), history[n]);
      forall c | c in Run(history)
        ensures Small(Run(history)[c], now)
      {
        SmallLater(Run(history)[c], history[n].at, now);
      }
    }
  }

  lemma RunStep(history: seq<Event>)
    requires history != []
    ensures Run(history) == Next(Run(history[..|history| - 1]), history[|history| - 1])
  {
  }
}
