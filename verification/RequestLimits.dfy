/** What the limits promise a request: it is charged once, what is checked is what is charged, and
    what the live view shows is what refuses. */
module RequestLimits {
  import opened Common
  import opened RateLimiter
  import opened RateLimits

  /** A counter, whatever the minute or day. */
  datatype Row = Row(dim: Dimension, who: Identity, where: Endpoint)

  function RowOf(c: Check): Row {
    Row(c.dim, c.who, c.where)
  }

  // ---------- How often a request is charged to a counter ----------

  function Times(checks: seq<Check>, k: Row): nat {
    if checks == [] then 0
    else (if Counting(checks[0].dim) && RowOf(checks[0]) == k then 1 else 0) + Times(checks[1..], k)
  }

  function One(b: bool): nat {
    if b then 1 else 0
  }

  lemma {:induction false} TimesAdds(a: seq<Check>, b: seq<Check>, k: Row)
    ensures Times(a + b, k) == Times(a, k) + Times(b, k)
    decreases a
  {
    if a == [] {
      assert a + b == b;
    } else {
      assert (a + b)[1..] == a[1..] + b;
      TimesAdds(a[1..], b, k);
    }
  }

  lemma TimesOne(c: Check, k: Row)
    ensures Times([c], k) == One(Counting(c.dim) && RowOf(c) == k)
  {
    assert [c][1..] == [];
  }

  lemma TimesCheckIf(chosen: Option<int>, d: Dimension, who: Identity, where: Endpoint, k: Row)
    ensures Times(CheckIf(chosen, d, who, where), k) == One(chosen.Some? && Counting(d) && k == Row(d, who, where))
  {
    if chosen.Some? {
      TimesOne(Check(d, who, where, 0, chosen.value, true), k);
    }
  }

  lemma TimesPlatform(st: Settings, k: Row)
    ensures Times(PlatformLayer(st), k) == One(k == Row(Rpm, Platform, AllEndpoints))
  {
    var c := Check(Rpm, Platform, AllEndpoints, 0, Or(st.platform.rpm, 0), st.platform.rpm.Some?);
    TimesAdds([c], CheckIf(st.platform.tpm, Tpm, Platform, AllEndpoints), k);
    TimesOne(c, k);
    TimesCheckIf(st.platform.tpm, Tpm, Platform, AllEndpoints, k);
  }

  lemma TimesEndpoint(st: Settings, tier: Tier, cl: Claims, slug: Endpoint, k: Row)
    ensures Times(EndpointLayer(st, tier, cl, slug), k) ==
            One(k == Row(Rpm, Caller(cl.client), slug)) + One(Distinct(cl) && k == Row(Rpm, Caller(cl.user), slug))
  {
    var a := Check(Rpm, Caller(cl.client), slug, 0, EndpointRpm(st, slug), true);
    var b := Check(Rpm, Caller(cl.user), slug, 0, EndpointRpm(st, slug), true);
    var c := Check(Tpm, Caller(cl.client), slug, 0, EndpointTpm(st, slug), tier.tpm.None?);
    var users := if Distinct(cl) then [b] else [];
    TimesAdds([a] + users, [c], k);
    TimesAdds([a], users, k);
    TimesOne(a, k);
    TimesOne(b, k);
    TimesOne(c, k);
  }

  lemma TimesClient(st: Settings, tier: Tier, who: Identity, k: Row)
    ensures Times(ClientChecks(st, tier, who), k) ==
            One(k == Row(Rpm, who, AllEndpoints)) + One(tier.rpd.Some? && k == Row(Rpd, who, AllEndpoints))
  {
    var a := Check(Rpm, who, AllEndpoints, 0, ClientRpm(st, tier), true);
    var b := Check(Tpm, who, AllEndpoints, 0, ClientTpm(st, tier), true);
    var rpd, tpd := CheckIf(tier.rpd, Rpd, who, AllEndpoints), CheckIf(tier.tpd, Tpd, who, AllEndpoints);
    var into, out := CheckIf(tier.tpmInput, TpmIn, who, AllEndpoints), CheckIf(tier.tpmOutput, TpmOut, who, AllEndpoints);
    TimesAdds([a, b] + rpd + tpd + into, out, k);
    TimesAdds([a, b] + rpd + tpd, into, k);
    TimesAdds([a, b] + rpd, tpd, k);
    TimesAdds([a, b], rpd, k);
    assert [a, b] == [a] + [b];
    TimesAdds([a], [b], k);
    TimesOne(a, k);
    TimesOne(b, k);
    TimesCheckIf(tier.rpd, Rpd, who, AllEndpoints, k);
    TimesCheckIf(tier.tpd, Tpd, who, AllEndpoints, k);
    TimesCheckIf(tier.tpmInput, TpmIn, who, AllEndpoints, k);
    TimesCheckIf(tier.tpmOutput, TpmOut, who, AllEndpoints, k);
  }

  /** How often a name stands in a list of names. */
  function Standing(ids: seq<Identity>, who: Identity): nat {
    if ids == [] then 0 else One(ids[0] == who) + Standing(ids[1..], who)
  }

  lemma {:induction false} TimesClientLayer(st: Settings, tier: Tier, ids: seq<Identity>, k: Row)
    ensures Times(ClientLayer(st, tier, ids), k) ==
            if k.where == AllEndpoints && (k.dim.Rpm? || (k.dim.Rpd? && tier.rpd.Some?)) then Standing(ids, k.who) else 0
  {
    if ids != [] {
      TimesAdds(ClientChecks(st, tier, ids[0]), ClientLayer(st, tier, ids[1..]), k);
      TimesClient(st, tier, ids[0], k);
      TimesClientLayer(st, tier, ids[1..], k);
    }
  }

  lemma {:induction false} TimesDailyLayer(st: Settings, ids: seq<Identity>, slug: Endpoint, k: Row)
    ensures Times(DailyLayer(st, ids, slug), k) ==
            if k.where == slug && k.dim.Rpd? && st.rpd.Some? then Standing(ids, k.who) else 0
  {
    if ids != [] {
      TimesAdds(DailyChecks(st, ids[0], slug), DailyLayer(st, ids[1..], slug), k);
      TimesAdds(CheckIf(st.rpd, Rpd, ids[0], slug), CheckIf(st.tpd, Tpd, ids[0], slug), k);
      TimesCheckIf(st.rpd, Rpd, ids[0], slug, k);
      TimesCheckIf(st.tpd, Tpd, ids[0], slug, k);
      TimesDailyLayer(st, ids[1..], slug, k);
    }
  }

  lemma {:induction false} TimesDirectionLayer(chosen: Option<int>, d: Dimension, ids: seq<Identity>, slug: Endpoint, k: Row)
    requires !Counting(d)
    ensures Times(DirectionLayer(chosen, d, ids, slug), k) == 0
  {
    if ids != [] {
      TimesAdds(CheckIf(chosen, d, ids[0], slug), DirectionLayer(chosen, d, ids[1..], slug), k);
      TimesCheckIf(chosen, d, ids[0], slug, k);
      TimesDirectionLayer(chosen, d, ids[1..], slug, k);
    }
  }

  /** What an allowed request is charged, counter by counter. */
  function Charge(st: Settings, tier: Tier, cl: Claims, slug: Endpoint, k: Row): nat {
    match k.dim
    case Rpm =>
      if k.where == AllEndpoints then One(k.who == Platform) + Standing(Once(cl), k.who)
      else if k.where == slug then One(k.who == Caller(cl.client)) + One(Distinct(cl) && k.who == Caller(cl.user))
      else 0
    case Rpd =>
      if k.where == AllEndpoints then (if tier.rpd.Some? then Standing(Once(cl), k.who) else 0)
      else if k.where == slug && st.rpd.Some? then Standing(Both(cl), k.who)
      else 0
    case _ => 0
  }

  lemma TimesAddSix(a: seq<Check>, b: seq<Check>, c: seq<Check>, d: seq<Check>, e: seq<Check>, f: seq<Check>, k: Row)
    ensures Times(a + (b + (c + (d + (e + f)))), k) ==
            Times(a, k) + Times(b, k) + Times(c, k) + Times(d, k) + Times(e, k) + Times(f, k)
  {
    TimesAdds(a, b + (c + (d + (e + f))), k);
    TimesAdds(b, c + (d + (e + f)), k);
    TimesAdds(c, d + (e + f), k);
    TimesAdds(d, e + f, k);
    TimesAdds(e, f, k);
  }

  lemma TimesPlan(st: Settings, tier: Tier, cl: Claims, slug: Endpoint, k: Row)
    requires slug != AllEndpoints
    ensures Times(Plan(st, tier, cl, slug), k) == Charge(st, tier, cl, slug, k)
  {
    TimesAddSix(PlatformLayer(st), EndpointLayer(st, tier, cl, slug), ClientLayer(st, tier, Once(cl)),
                DailyLayer(st, Both(cl), slug), DirectionLayer(st.tpmInput, TpmIn, Both(cl), slug),
                DirectionLayer(st.tpmOutput, TpmOut, Both(cl), slug), k);
    TimesLayers(st, tier, cl, slug, k);
    TimesDirectionLayer(st.tpmInput, TpmIn, Both(cl), slug, k);
    TimesDirectionLayer(st.tpmOutput, TpmOut, Both(cl), slug, k);
  }

  lemma TimesLayers(st: Settings, tier: Tier, cl: Claims, slug: Endpoint, k: Row)
    requires slug != AllEndpoints
    ensures Times(PlatformLayer(st), k) + Times(EndpointLayer(st, tier, cl, slug), k)
            + Times(ClientLayer(st, tier, Once(cl)), k) + Times(DailyLayer(st, Both(cl), slug), k)
            == Charge(st, tier, cl, slug, k)
  {
    TimesPlatform(st, k);
    TimesEndpoint(st, tier, cl, slug, k);
    TimesClientLayer(st, tier, Once(cl), k);
    TimesDailyLayer(st, Both(cl), slug, k);
  }

  lemma {:induction false} StandingPresent(ids: seq<string>, who: Identity)
    ensures Standing(Present(ids), who) ==
            if ids == [] then 0 else One(ids[0] != "" && who == Caller(ids[0])) + Standing(Present(ids[1..]), who)
  {
    if ids != [] {
      if ids[0] != "" {
        assert Present(ids) == [Caller(ids[0])] + Present(ids[1..]);
        assert Present(ids)[1..] == Present(ids[1..]);
      } else {
        assert Present(ids) == Present(ids[1..]);
      }
    }
  }

  lemma StandingOf(cl: Claims, who: Identity)
    ensures Standing(Both(cl), who) == One(cl.client != "" && who == Caller(cl.client)) + One(cl.user != "" && who == Caller(cl.user))
    ensures Standing(Once(cl), who) ==
            One(cl.client != "" && who == Caller(cl.client)) + One(Distinct(cl) && who == Caller(cl.user))
  {
    var c, u := cl.client, cl.user;
    assert [c, u][1..] == [u] && [u][1..] == [] && [c][1..] == [];
    StandingPresent([c, u], who);
    StandingPresent([u], who);
    StandingPresent([c], who);
    StandingPresent([], who);
  }

  predicate OwnUserDaily(st: Settings, cl: Claims) {
    st.rpd.Some? && cl.client == cl.user && cl.client != ""
  }

  lemma ChargeIsAtMost(st: Settings, tier: Tier, cl: Claims, slug: Endpoint, k: Row)
    requires slug != AllEndpoints && !OwnUserDaily(st, cl)
    ensures Charge(st, tier, cl, slug, k) <= 1
  {
    StandingOf(cl, k.who);
  }

  lemma ChargedTwice(st: Settings, tier: Tier, cl: Claims, slug: Endpoint)
    requires slug != AllEndpoints && OwnUserDaily(st, cl)
    ensures Charge(st, tier, cl, slug, Row(Rpd, Caller(cl.client), slug)) == 2
  {
    StandingOf(cl, Caller(cl.client));
  }

  /** A request is charged to no counter twice, exactly when the daily limit does not meet a client
      that is its own user. */
  lemma ChargedOnceIff(st: Settings, tier: Tier, cl: Claims, slug: Endpoint)
    requires slug != AllEndpoints
    ensures (forall k :: Times(Plan(st, tier, cl, slug), k) <= 1) <==> !OwnUserDaily(st, cl)
  {
    if OwnUserDaily(st, cl) {
      TimesPlan(st, tier, cl, slug, Row(Rpd, Caller(cl.client), slug));
      ChargedTwice(st, tier, cl, slug);
    } else {
      forall k
        ensures Times(Plan(st, tier, cl, slug), k) <= 1
      {
        TimesPlan(st, tier, cl, slug, k);
        ChargeIsAtMost(st, tier, cl, slug, k);
      }
    }
  }

  function RowOfKey(key: Key): Row {
    Row(key.dim, key.identity, key.endpoint)
  }

  /** The checks a request got to: all of them, or those to the first that refused. */
  function Made(before: map<Key, Counter>, checks: seq<Check>, clock: Clock, i: nat): seq<Check>
    decreases checks
  {
    if checks == [] then []
    else if Refuses(before, checks[0], clock(i)) then [checks[0]]
    else [checks[0]] + Made(Effect(before, checks[0], clock(i)), checks[1..], clock, i + 1)
  }

  /** How many of the checks count on this counter, each in the window its own reading of the clock falls in. */
  function TimesAt(checks: seq<Check>, clock: Clock, i: nat, key: Key): nat
    decreases checks
  {
    if checks == [] then 0
    else One(Counting(checks[0].dim) && KeyOf(checks[0], clock(i)) == key) + TimesAt(checks[1..], clock, i + 1, key)
  }

  /** While a counter's window lasts it reads the same at whatever moment. */
  function Held(counters: map<Key, Counter>, key: Key): int {
    if key in counters then counters[key].value else 0
  }

  lemma HeldIsUsed(counters: map<Key, Counter>, key: Key, now: int)
    requires Lasting(counters) && now < (key.bucket + 1) * Window(key.dim)
    ensures Used(counters, key, now) == Held(counters, key)
  {
    if key in counters {
      LastingIsExact(counters, key, now);
    }
  }

  lemma InItsWindow(d: Dimension, now: int)
    ensures now < (BucketAt(d, now) + 1) * Window(d)
  {
  }

  lemma AddedHolds(before: map<Key, Counter>, k: Key, now: int, key: Key)
    requires Used(before, k, now) == Held(before, k)
    ensures Held(Added(before, k, 1, now), key) == Held(before, key) + One(k == key)
  {
  }

  lemma EffectLasts(before: map<Key, Counter>, c: Check, now: int)
    requires Lasting(before)
    ensures Lasting(Effect(before, c, now))
  {
    AddedLasts(before, KeyOf(c, now), 1, now);
  }

  lemma EffectHolds(before: map<Key, Counter>, c: Check, now: int, key: Key)
    requires Lasting(before)
    ensures Held(Effect(before, c, now), key) == Held(before, key) + One(Counting(c.dim) && KeyOf(c, now) == key)
  {
    InItsWindow(c.dim, now);
    HeldIsUsed(before, KeyOf(c, now), now);
    AddedHolds(before, KeyOf(c, now), now, key);
  }

  lemma {:induction false} PerformHolds(before: map<Key, Counter>, checks: seq<Check>, clock: Clock, i: nat, key: Key)
    requires Lasting(before)
    ensures var p := Perform(before, checks, clock, i);
            && Lasting(p.counters)
            && Held(p.counters, key) == Held(before, key) + TimesAt(Made(before, checks, clock, i), clock, i, key)
    decreases checks
  {
    if checks != [] {
      EffectLasts(before, checks[0], clock(i));
      EffectHolds(before, checks[0], clock(i), key);
      var rest := Effect(before, checks[0], clock(i));
      if Refuses(before, checks[0], clock(i)) {
        assert [checks[0]][1..] == [];
      } else {
        assert ([checks[0]] + Made(rest, checks[1..], clock, i + 1))[1..] == Made(rest, checks[1..], clock, i + 1);
        PerformHolds(rest, checks[1..], clock, i + 1, key);
      }
    }
  }

  /** The counters bear it out: whatever the clock reads at each check, a request refused or allowed
      moves every counter, for as long as its window lasts, by the checks it got to. */
  lemma RequestMovesCounters(before: map<Key, Counter>, checks: seq<Check>, clock: Clock, i: nat, key: Key, now: int)
    requires Lasting(before) && now < (key.bucket + 1) * Window(key.dim)
    ensures Used(Perform(before, checks, clock, i).counters, key, now) ==
            Used(before, key, now) + TimesAt(Made(before, checks, clock, i), clock, i, key)
  {
    PerformHolds(before, checks, clock, i, key);
    HeldIsUsed(before, key, now);
    HeldIsUsed(Perform(before, checks, clock, i).counters, key, now);
  }

  lemma {:induction false} AllowedMakesAll(before: map<Key, Counter>, checks: seq<Check>, clock: Clock, i: nat)
    requires Perform(before, checks, clock, i).refusal.None?
    ensures Made(before, checks, clock, i) == checks
    decreases checks
  {
    if checks != [] {
      AllowedMakesAll(Effect(before, checks[0], clock(i)), checks[1..], clock, i + 1);
    }
  }

  predicate ReadIn(clock: Clock, i: nat, n: nat, key: Key) {
    forall j :: i <= j < i + n ==> BucketAt(key.dim, clock(j)) == key.bucket
  }

  lemma {:induction false} TimesAtIsTimes(checks: seq<Check>, clock: Clock, i: nat, key: Key)
    ensures TimesAt(checks, clock, i, key) <= Times(checks, RowOfKey(key))
    ensures ReadIn(clock, i, |checks|, key) ==> TimesAt(checks, clock, i, key) == Times(checks, RowOfKey(key))
    decreases checks
  {
    if checks != [] {
      TimesAtIsTimes(checks[1..], clock, i + 1, key);
      assert ReadIn(clock, i, |checks|, key) ==> BucketAt(key.dim, clock(i)) == key.bucket;
    }
  }

  /** An allowed request moves no counter by more than it is charged, and each by all of it when the
      whole of it falls in the counter's window. */
  lemma AllowedMovesCounters(before: map<Key, Counter>, checks: seq<Check>, clock: Clock, i: nat, key: Key, now: int)
    requires Lasting(before) && now < (key.bucket + 1) * Window(key.dim)
    requires Perform(before, checks, clock, i).refusal.None?
    ensures var moved := Used(Perform(before, checks, clock, i).counters, key, now) - Used(before, key, now);
            && 0 <= moved <= Times(checks, RowOfKey(key))
            && (ReadIn(clock, i, |checks|, key) ==> moved == Times(checks, RowOfKey(key)))
  {
    RequestMovesCounters(before, checks, clock, i, key, now);
    AllowedMakesAll(before, checks, clock, i);
    TimesAtIsTimes(checks, clock, i, key);
  }

  // ---------- What a served request's tokens and images are charged to ----------

  /** The routes whose handlers record usage. */
  predicate Served(slug: Endpoint) {
    slug in {ChatCompletions, Embeddings, Rerank, Predict, Images}
  }

  function AmountOf(d: Dimension, u: Usage): nat {
    match d
    case Tpm => u.prompt + u.completion
    case TpmIn => u.prompt
    case TpmOut => u.completion
    case Tpd => u.prompt + u.completion
    case Ipm => u.images
    case _ => 0
  }

  /** The client's own counters and the user's, on the route and across all; the platform's by the minute. */
  predicate IsCharged(cl: Claims, slug: Endpoint, k: Row) {
    if k.who.Platform? then k.where == AllEndpoints && !k.dim.Ipm? && !k.dim.Tpd?
    else (k.who.id == cl.client || (Distinct(cl) && k.who.id == cl.user)) && k.where in {slug, AllEndpoints}
  }

  /** What one request used, of an image route or another. */
  datatype Usage = Usage(image: bool, prompt: nat, completion: nat, images: nat)

  /** Nothing is recorded of an image request without images, nor of another without tokens. */
  predicate Recorded(u: Usage) {
    if u.image then u.images > 0 else u.prompt + u.completion > 0
  }

  function Due(cl: Claims, slug: Endpoint, u: Usage, k: Key, now: int): nat {
    if Recorded(u) && k.bucket == BucketAt(k.dim, now) && IsCharged(cl, slug, Row(k.dim, k.identity, k.endpoint))
    then AmountOf(k.dim, u) else 0
  }

  function OfName(who: Identity, slug: Endpoint, u: Usage, k: Key, now: int): nat {
    if k.identity == who && k.endpoint in {slug, AllEndpoints} && k.bucket == BucketAt(k.dim, now)
    then AmountOf(k.dim, u) else 0
  }

  function OfPlatform(u: Usage, k: Key, now: int): nat {
    if k.identity == Platform && k.endpoint == AllEndpoints && k.bucket == BucketAt(k.dim, now) && !k.dim.Ipm? && !k.dim.Tpd?
    then AmountOf(k.dim, u) else 0
  }

  lemma DueByName(cl: Claims, slug: Endpoint, u: Usage, k: Key, now: int)
    requires Recorded(u)
    ensures Due(cl, slug, u, k, now) ==
            OfName(Caller(cl.client), slug, u, k, now)
            + (if Distinct(cl) then OfName(Caller(cl.user), slug, u, k, now) else 0) + OfPlatform(u, k, now)
  {
  }

  /** _record_usage's part: for each name the route and the whole, then the platform once. */
  method ChargeUsage(limiter: RateLimiter, cl: Claims, slug: Endpoint, u: Usage, now: int)
    requires slug != AllEndpoints
    modifies limiter
    ensures forall k :: Used(limiter.counters, k, now) == Used(old(limiter.counters), k, now) + Due(cl, slug, u, k, now)
  {
    if u.image && u.images == 0 {
      return;
    } else if !u.image && u.prompt + u.completion == 0 {
      return;
    }
    forall k
      ensures Due(cl, slug, u, k, now) ==
              OfName(Caller(cl.client), slug, u, k, now)
              + (if Distinct(cl) then OfName(Caller(cl.user), slug, u, k, now) else 0) + OfPlatform(u, k, now)
    {
      DueByName(cl, slug, u, k, now);
    }
    ChargeAll(limiter, Caller(cl.client), slug, u, now);
    if Distinct(cl) {
      ChargeAll(limiter, Caller(cl.user), slug, u, now);
    }
    if u.prompt + u.completion > 0 {
      ChargePlatform(limiter, u, now);
    }
  }

  method ChargePlatform(limiter: RateLimiter, u: Usage, now: int)
    modifies limiter
    ensures forall k :: Used(limiter.counters, k, now) == Used(old(limiter.counters), k, now) + OfPlatform(u, k, now)
  {
    limiter.IncrementTpm(Platform, AllEndpoints, u.prompt, u.completion, now);
  }

  /** One name's counters. */
  method ChargeAll(limiter: RateLimiter, who: Identity, slug: Endpoint, u: Usage, now: int)
    requires slug != AllEndpoints
    modifies limiter
    ensures forall k :: Used(limiter.counters, k, now) == Used(old(limiter.counters), k, now) + OfName(who, slug, u, k, now)
  {
    ChargeOne(limiter, who, slug, u, now);
    ChargeOne(limiter, who, AllEndpoints, u, now);
  }

  method ChargeOne(limiter: RateLimiter, who: Identity, where: Endpoint, u: Usage, now: int)
    modifies limiter
    ensures forall k :: Used(limiter.counters, k, now) == Used(old(limiter.counters), k, now) +
              (if k.identity == who && k.endpoint == where && k.bucket == BucketAt(k.dim, now)
               then AmountOf(k.dim, u) else 0)
  {
    if u.prompt + u.completion > 0 {
      ChargeTokens(limiter, who, where, u, now);
    }
    if u.images > 0 {
      AddedLasts(limiter.counters, Key(Ipm, who, where, BucketAt(Ipm, now)), u.images, now);
      limiter.IncrementIpm(who, where, u.images, now);
    }
  }

  method ChargeTokens(limiter: RateLimiter, who: Identity, where: Endpoint, u: Usage, now: int)
    modifies limiter
    ensures forall k :: Used(limiter.counters, k, now) == Used(old(limiter.counters), k, now) +
              (if k.identity == who && k.endpoint == where && k.bucket == BucketAt(k.dim, now)
               then AmountOf(k.dim, u.(images := 0)) else 0)
  {
    limiter.IncrementTpm(who, where, u.prompt, u.completion, now);
    AddedLasts(limiter.counters, Key(Tpd, who, where, BucketAt(Tpd, now)), u.prompt + u.completion, now);
    limiter.IncrementTpd(who, where, u.prompt + u.completion, now);
  }

  /** The image route's gate reads each name's counter, and charges nothing. */
  method CheckImageGate(limiter: RateLimiter, st: Settings, tier: Tier, cl: Claims, images: nat, now: int)
    returns (refusal: Option<Check>)
    ensures refusal.Some? ==>
              refusal.value in ImageGate(st, tier, Once(cl), images) && Refuses(limiter.counters, refusal.value, now)
    ensures refusal.None? ==>
              forall c :: c in ImageGate(st, tier, Once(cl), images) ==> !Refuses(limiter.counters, c, now)
  {
    var ids := Once(cl);
    for i := 0 to |ids|
      invariant forall c :: c in ImageGate(st, tier, ids, images) && c !in ImageGate(st, tier, ids[i..], images) ==>
                  !Refuses(limiter.counters, c, now)
      invariant forall c :: c in ImageGate(st, tier, ids[i..], images) ==> c in ImageGate(st, tier, ids, images)
    {
      assert ids[i..][1..] == ids[i + 1..];
      var limit := if tier.ipm.Some? then tier.ipm else st.ipm;
      if limit.Some? {
        var where := if tier.ipm.Some? then AllEndpoints else Images;
        var headroom := limiter.CheckBudget(Ipm, ids[i], where, limit.value, images, now);
        if !headroom.allowed {
          return Some(Check(Ipm, ids[i], where, images, limit.value, true));
        }
      }
    }
    refusal := None;
  }

  // ---------- What is checked is what is charged ----------

  predicate IsRead(c: Check) {
    !Counting(c.dim)
  }

  lemma {:induction false} PresentHolds(ids: seq<string>, who: Identity)
    ensures who in Present(ids) <==> who.Caller? && who.id != "" && who.id in ids
  {
    if ids != [] {
      PresentHolds(ids[1..], who);
      assert ids == [ids[0]] + ids[1..];
    }
  }

  lemma BothHolds(cl: Claims, who: Identity)
    ensures who in Both(cl) <==> who.Caller? && who.id != "" && (who.id == cl.client || who.id == cl.user)
    ensures who in Once(cl) <==> who in Both(cl)
  {
    PresentHolds([cl.client, cl.user], who);
    PresentHolds([cl.client], who);
  }

  lemma {:induction false} ClientLayerHolds(st: Settings, tier: Tier, ids: seq<Identity>, c: Check)
    ensures c in ClientLayer(st, tier, ids) <==> c.who in ids && c in ClientChecks(st, tier, c.who)
  {
    if ids != [] {
      ClientLayerHolds(st, tier, ids[1..], c);
      assert ids == [ids[0]] + ids[1..];
    }
  }

  lemma {:induction false} DailyLayerHolds(st: Settings, ids: seq<Identity>, slug: Endpoint, c: Check)
    ensures c in DailyLayer(st, ids, slug) <==> c.who in ids && c in DailyChecks(st, c.who, slug)
  {
    if ids != [] {
      DailyLayerHolds(st, ids[1..], slug, c);
      assert ids == [ids[0]] + ids[1..];
    }
  }

  lemma {:induction false} DirectionLayerHolds(chosen: Option<int>, d: Dimension, ids: seq<Identity>, slug: Endpoint, c: Check)
    ensures c in DirectionLayer(chosen, d, ids, slug) <==> c.who in ids && c in CheckIf(chosen, d, c.who, slug)
  {
    if ids != [] {
      DirectionLayerHolds(chosen, d, ids[1..], slug, c);
      assert ids == [ids[0]] + ids[1..];
    }
  }

  lemma {:induction false} ImageGateHolds(st: Settings, tier: Tier, ids: seq<Identity>, images: nat, c: Check)
    ensures c in ImageGate(st, tier, ids, images) <==> c.who in ids && c in ImageGate(st, tier, [c.who], images)
  {
    assert [c.who][1..] == [];
    if ids != [] {
      ImageGateHolds(st, tier, ids[1..], images, c);
      assert ids == [ids[0]] + ids[1..];
    }
  }

  /** Every check of a request, the image route's gate included. */
  predicate Checked(st: Settings, tier: Tier, cl: Claims, slug: Endpoint, images: nat, c: Check) {
    c in Plan(st, tier, cl, slug) || (slug.Images? && c in ImageGate(st, tier, Once(cl), images))
  }

  /** Which checks those are. */
  predicate InPlan(st: Settings, tier: Tier, cl: Claims, slug: Endpoint, c: Check) {
    || c in PlatformLayer(st)
    || c in EndpointLayer(st, tier, cl, slug)
    || (c.who in Both(cl)
        && (|| c in ClientChecks(st, tier, c.who)
            || c in DailyChecks(st, c.who, slug)
            || c in CheckIf(st.tpmInput, TpmIn, c.who, slug)
            || c in CheckIf(st.tpmOutput, TpmOut, c.who, slug)))
  }

  lemma PlanHolds(st: Settings, tier: Tier, cl: Claims, slug: Endpoint, c: Check)
    ensures c in Plan(st, tier, cl, slug) <==> InPlan(st, tier, cl, slug, c)
  {
    BothHolds(cl, c.who);
    ClientLayerHolds(st, tier, Once(cl), c);
    DailyLayerHolds(st, Both(cl), slug, c);
    DirectionLayerHolds(st.tpmInput, TpmIn, Both(cl), slug, c);
    DirectionLayerHolds(st.tpmOutput, TpmOut, Both(cl), slug, c);
  }

  lemma ChecksAreCharged(st: Settings, tier: Tier, cl: Claims, slug: Endpoint, c: Check)
    requires slug != AllEndpoints && InPlan(st, tier, cl, slug, c) && IsRead(c)
    ensures IsCharged(cl, slug, RowOf(c))
  {
    BothHolds(cl, c.who);
    if c.who in Both(cl) {
      assert c.where in {slug, AllEndpoints} || c in PlatformLayer(st) || c in EndpointLayer(st, tier, cl, slug);
    }
  }

  lemma GateIsCharged(st: Settings, tier: Tier, cl: Claims, asked: nat, c: Check)
    requires c in ImageGate(st, tier, Once(cl), asked)
    ensures IsCharged(cl, Images, RowOf(c))
  {
    BothHolds(cl, c.who);
    ImageGateHolds(st, tier, Once(cl), asked, c);
    assert [c.who][1..] == [];
  }

  /** On a served route, every token or image counter some check reads is charged all of what the
      request used, once. */
  lemma ReadsAreCharged(st: Settings, tier: Tier, cl: Claims, slug: Endpoint, asked: nat, c: Check, u: Usage, now: int)
    requires Served(slug) && Checked(st, tier, cl, slug, asked, c) && IsRead(c)
    requires if u.image then u.images > 0 else u.prompt + u.completion > 0
    ensures Due(cl, slug, u, KeyOf(c, now), now) ==
            match c.dim
            case TpmIn => u.prompt
            case TpmOut => u.completion
            case Ipm => u.images
            case _ => u.prompt + u.completion
  {
    if c in Plan(st, tier, cl, slug) {
      PlanHolds(st, tier, cl, slug, c);
      ChecksAreCharged(st, tier, cl, slug, c);
    } else {
      GateIsCharged(st, tier, cl, asked, c);
    }
  }

  /** And no other counter is charged than a name's of the request, on its route or across all, and the
      platform's, nor any for a request that recorded nothing. */
  lemma OnlyItsOwnAreCharged(cl: Claims, slug: Endpoint, u: Usage, k: Key, now: int)
    requires Due(cl, slug, u, k, now) != 0
    ensures if u.image then u.images > 0 else u.prompt + u.completion > 0
    ensures k.bucket == now / (if k.dim.Tpd? then 86_400 else 60)
    ensures k.identity == Platform || k.identity == Caller(cl.client) || (k.identity == Caller(cl.user) && cl.user != "")
    ensures k.endpoint == AllEndpoints || (k.endpoint == slug && k.identity != Platform)
    ensures k.dim.Rpm? || k.dim.Rpd? ==> false
  {
  }

  /** On the others, the route's own token counter is read, and no route ever charges it. */
  lemma UnservedReadsAreNeverCharged(st: Settings, tier: Tier, cl: Claims, slug: Endpoint)
    requires !Served(slug) && slug != AllEndpoints
    ensures exists c :: c in Plan(st, tier, cl, slug) && IsRead(c)
              && forall served, cl', u, now :: Served(served) ==> Due(cl', served, u, KeyOf(c, now), now) == 0
  {
    var c := Check(Tpm, Caller(cl.client), slug, 0, EndpointTpm(st, slug), tier.tpm.None?);
    assert c in EndpointLayer(st, tier, cl, slug);
    PlanHolds(st, tier, cl, slug, c);
  }

  // ---------- What is shown is what refuses ----------

  datatype Source = FromTier | Set | Derived | Unchecked

  datatype Layer = PlatformWide | ClientWide | PerEndpoint

  /** Read off the counter's own key. */
  function LayerOf(who: Identity, where: Endpoint): Layer {
    if who.Platform? then PlatformWide else if where == AllEndpoints then ClientWide else PerEndpoint
  }

  function Shown(limit: Option<int>, source: Source): (Option<int>, Source) {
    if limit.Some? then (limit, source) else (None, Unchecked)
  }

  function TierField(tier: Tier, d: Dimension): Option<int> {
    match d
    case Rpm => tier.rpm
    case Tpm => tier.tpm
    case TpmIn => tier.tpmInput
    case TpmOut => tier.tpmOutput
    case Rpd => tier.rpd
    case Tpd => tier.tpd
    case Ipm => tier.ipm
  }

  /** live_limit_for, with the tier of the counter's own identity. */
  function LiveLimit(st: Settings, layer: Layer, d: Dimension, where: Endpoint, tier: Tier): (Option<int>, Source) {
    match (layer, d)
    case (PerEndpoint, Rpm) => (Some(EndpointRpm(st, where)), Set)
    case (PerEndpoint, Tpm) => (Some(EndpointTpm(st, where)), Set)
    case (ClientWide, Rpm) =>
      if tier.rpm.Some? then (tier.rpm, FromTier)
      else if st.client.rpm.Some? then (st.client.rpm, Set)
      else (Some(st.rpm * ENDPOINT_COUNT), Derived)
    case (ClientWide, Tpm) =>
      if tier.tpm.Some? then (tier.tpm, FromTier)
      else if st.client.tpm.Some? then (st.client.tpm, Set)
      else (Some(st.tpm * ENDPOINT_COUNT), Derived)
    case (ClientWide, _) => Shown(TierField(tier, d), FromTier)
    case (PlatformWide, Rpm) => Shown(st.platform.rpm, Set)
    case (PlatformWide, Tpm) => Shown(st.platform.tpm, Set)
    case (PlatformWide, _) => (None, Unchecked)
    case (PerEndpoint, TpmIn) => Shown(st.tpmInput, Set)
    case (PerEndpoint, TpmOut) => Shown(st.tpmOutput, Set)
    case (PerEndpoint, Rpd) => Shown(st.rpd, Set)
    case (PerEndpoint, Tpd) => Shown(st.tpd, Set)
    case (PerEndpoint, Ipm) => Shown(st.ipm, Set)
  }

  /** What some check of the request refuses at. */
  ghost predicate RefusedAt(st: Settings, tier: Tier, cl: Claims, slug: Endpoint, images: nat, k: Row, limit: int) {
    exists c :: Checked(st, tier, cl, slug, images, c) && c.enforced && RowOf(c) == k && c.limit == limit
  }

  /** The counters a request of these claims on this route is about. */
  predicate Concerns(cl: Claims, slug: Endpoint, k: Row) {
    && (if k.who.Platform? then k.where == AllEndpoints else k.who in Both(cl) && k.where in {slug, AllEndpoints})
    && (k.dim.Ipm? ==> slug.Images?)
  }

  /** What the live view reports for a row, each identity by its own tier. */
  function ShownFor(st: Settings, tiers: Identity -> Tier, k: Row): Option<int> {
    LiveLimit(st, LayerOf(k.who, k.where), k.dim, k.where, tiers(k.who)).0
  }

  /** What a client-wide row is held to, by this tier. */
  function HeldTo(st: Settings, tier: Tier, d: Dimension): Option<int> {
    match d
    case Rpm => if tier.rpm.Some? then tier.rpm else if st.client.rpm.Some? then st.client.rpm else Some(6 * st.rpm)
    case Tpm => if tier.tpm.Some? then tier.tpm else if st.client.tpm.Some? then st.client.tpm else Some(6 * st.tpm)
    case TpmIn => tier.tpmInput
    case TpmOut => tier.tpmOutput
    case Rpd => tier.rpd
    case Tpd => tier.tpd
    case Ipm => tier.ipm
  }

  /** A route's own word on requests or tokens, where it has one. */
  function RouteSays(st: Settings, slug: Endpoint): Pair {
    if slug.ChatCompletions? then st.chat else if slug.Predict? then st.predict
    else if slug.Admin? then st.admin else Pair(None, None)
  }

  /** What a client is held to where its tier says nothing. */
  function Unspoken(st: Settings, d: Dimension): Option<int> {
    match d
    case Rpm => Some(Or(st.client.rpm, st.rpm * ENDPOINT_COUNT))
    case Tpm => Some(Or(st.client.tpm, st.tpm * ENDPOINT_COUNT))
    case _ => None
  }

  /** The tiers say different things, and neither only spells out what the other leaves unspoken. */
  predicate TiersPart(st: Settings, a: Tier, b: Tier, d: Dimension) {
    var mine, theirs, default_ := TierField(a, d), TierField(b, d), Unspoken(st, d);
    mine != theirs && !(mine.None? && theirs == default_) && !(theirs.None? && mine == default_)
  }

  /** Where the two part: the route's tokens where the client's tier speaks of tokens, or of a
      user who is not the client; the route's images where the tier speaks of images; and the
      client-wide rows of a user who is not the client where the two names' tiers part. */
  predicate Parted(st: Settings, tiers: Identity -> Tier, cl: Claims, k: Row) {
    var tier := tiers(Caller(cl.client));
    && k.who.Caller?
    && if k.where == AllEndpoints then k.who.id != cl.client && TiersPart(st, tiers(k.who), tier, k.dim)
       else
         || (k.dim.Tpm? && (tier.tpm.Some? || k.who.id != cl.client))
         || (k.dim.Ipm? && tier.ipm.Some? && st.ipm.Some?)
  }

  /** What a row is held to, on a request of this tier. */
  function HeldAt(st: Settings, tier: Tier, cl: Claims, k: Row): Option<int> {
    if k.who.Platform? then
      (if k.dim.Rpm? then st.platform.rpm else if k.dim.Tpm? then st.platform.tpm else None)
    else if k.where == AllEndpoints then HeldTo(st, tier, k.dim)
    else
      match k.dim
      case Rpm => if RouteSays(st, k.where).rpm.Some? then RouteSays(st, k.where).rpm else Some(st.rpm)
      case Tpm =>
        if k.who.id != cl.client || tier.tpm.Some? then None
        else if RouteSays(st, k.where).tpm.Some? then RouteSays(st, k.where).tpm
        else Some(st.tpm)
      case TpmIn => st.tpmInput
      case TpmOut => st.tpmOutput
      case Rpd => st.rpd
      case Tpd => st.tpd
      case Ipm => if tier.ipm.None? then st.ipm else None
  }

  lemma GateIsHeld(st: Settings, tier: Tier, cl: Claims, slug: Endpoint, images: nat, c: Check)
    requires slug != AllEndpoints && Concerns(cl, slug, RowOf(c))
    ensures slug.Images? && c in ImageGate(st, tier, Once(cl), images) <==>
            c.dim.Ipm? && c.ask == images && c.enforced && HeldAt(st, tier, cl, RowOf(c)) == Some(c.limit)
  {
    BothHolds(cl, c.who);
    ImageGateHolds(st, tier, Once(cl), images, c);
    assert [c.who][1..] == [];
  }

  lemma PlanIsHeld(st: Settings, tier: Tier, cl: Claims, slug: Endpoint, c: Check)
    requires slug != AllEndpoints && Concerns(cl, slug, RowOf(c)) && c.enforced
    ensures c in Plan(st, tier, cl, slug) <==>
            !c.dim.Ipm? && c.ask == 0 && HeldAt(st, tier, cl, RowOf(c)) == Some(c.limit)
  {
    PlanHolds(st, tier, cl, slug, c);
    if c.who.Caller? {
      CallersAreHeld(st, tier, cl, slug, c);
    } else {
      PlatformIsHeld(st, tier, cl, slug, c);
    }
  }

  lemma PlatformIsHeld(st: Settings, tier: Tier, cl: Claims, slug: Endpoint, c: Check)
    requires c.who.Platform? && c.where == AllEndpoints && c.enforced && slug != AllEndpoints
    ensures InPlan(st, tier, cl, slug, c) <==>
            !c.dim.Ipm? && c.ask == 0 && HeldAt(st, tier, cl, RowOf(c)) == Some(c.limit)
  {
    BothHolds(cl, c.who);
    assert c !in EndpointLayer(st, tier, cl, slug);
    assert c in PlatformLayer(st) <==>
           c.ask == 0 && ((c.dim.Rpm? && st.platform.rpm == Some(c.limit)) || (c.dim.Tpm? && st.platform.tpm == Some(c.limit)));
  }

  lemma CallersAreHeld(st: Settings, tier: Tier, cl: Claims, slug: Endpoint, c: Check)
    requires slug != AllEndpoints && Concerns(cl, slug, RowOf(c)) && c.enforced && c.who.Caller?
    ensures InPlan(st, tier, cl, slug, c) <==>
            !c.dim.Ipm? && c.ask == 0 && HeldAt(st, tier, cl, RowOf(c)) == Some(c.limit)
  {
    BothHolds(cl, c.who);
    if c.where == AllEndpoints {
      ClientIsHeld(st, tier, cl, slug, c);
    } else {
      RouteIsHeld(st, tier, cl, slug, c);
    }
  }

  lemma ClientIsHeld(st: Settings, tier: Tier, cl: Claims, slug: Endpoint, c: Check)
    requires slug != AllEndpoints && c.where == AllEndpoints && c.who in Both(cl) && c.who.Caller? && c.enforced
    ensures InPlan(st, tier, cl, slug, c) <==> !c.dim.Ipm? && c.ask == 0 && HeldTo(st, tier, c.dim) == Some(c.limit)
  {
    assert c !in PlatformLayer(st);
    assert c !in EndpointLayer(st, tier, cl, slug);
  }

  lemma RouteIsHeld(st: Settings, tier: Tier, cl: Claims, slug: Endpoint, c: Check)
    requires slug != AllEndpoints && c.where == slug && c.who in Both(cl) && c.who.Caller? && c.enforced
    requires c.who.id == cl.client || (Distinct(cl) && c.who.id == cl.user)
    ensures InPlan(st, tier, cl, slug, c) <==>
            !c.dim.Ipm? && c.ask == 0 && HeldAt(st, tier, cl, RowOf(c)) == Some(c.limit)
  {
    assert c !in PlatformLayer(st);
    assert c !in ClientChecks(st, tier, c.who);
  }

  lemma RefusedIffHeld(st: Settings, tier: Tier, cl: Claims, slug: Endpoint, images: nat, k: Row, limit: int)
    requires slug != AllEndpoints && Concerns(cl, slug, k)
    ensures RefusedAt(st, tier, cl, slug, images, k, limit) <==> HeldAt(st, tier, cl, k) == Some(limit)
  {
    var own := Check(k.dim, k.who, k.where, if k.dim.Ipm? then images else 0, limit, true);
    assert RowOf(own) == k;
    forall c: Check | c.enforced && RowOf(c) == k && c.limit == limit
      ensures Checked(st, tier, cl, slug, images, c) ==> HeldAt(st, tier, cl, k) == Some(limit)
      ensures c == own && HeldAt(st, tier, cl, k) == Some(limit) ==> Checked(st, tier, cl, slug, images, c)
    {
      GateIsHeld(st, tier, cl, slug, images, c);
      PlanIsHeld(st, tier, cl, slug, c);
    }
  }

  lemma ShownIsHeldUnlessParted(st: Settings, tiers: Identity -> Tier, cl: Claims, slug: Endpoint, k: Row)
    requires slug != AllEndpoints && Concerns(cl, slug, k)
    ensures ShownFor(st, tiers, k) == HeldAt(st, tiers(Caller(cl.client)), cl, k) <==> !Parted(st, tiers, cl, k)
  {
  }

  /** The limit shown is the one a check refuses at, and none is shown exactly where none refuses,
      for every row but those that part, and for none of those. */
  lemma ShownIsEnforcedUnlessParted(st: Settings, tiers: Identity -> Tier, cl: Claims, slug: Endpoint, images: nat, k: Row)
    requires slug != AllEndpoints && Concerns(cl, slug, k)
    ensures (forall limit :: RefusedAt(st, tiers(Caller(cl.client)), cl, slug, images, k, limit) <==>
                             ShownFor(st, tiers, k) == Some(limit))
            <==> !Parted(st, tiers, cl, k)
  {
    var tier := tiers(Caller(cl.client));
    var shown, held := ShownFor(st, tiers, k), HeldAt(st, tier, cl, k);
    forall limit
      ensures RefusedAt(st, tier, cl, slug, images, k, limit) <==> held == Some(limit)
    {
      RefusedIffHeld(st, tier, cl, slug, images, k, limit);
    }
    ShownIsHeldUnlessParted(st, tiers, cl, slug, k);
    if shown != held {
      var limit := if held.Some? then held.value else shown.value;
      assert RefusedAt(st, tier, cl, slug, images, k, limit) <==> held == Some(limit);
    }
  }

  /** Where a shown limit is said to come from is where it comes from. */
  lemma SourceIsTrue(st: Settings, layer: Layer, d: Dimension, where: Endpoint, tier: Tier)
    ensures var (limit, source) := LiveLimit(st, layer, d, where, tier);
            && (source == Unchecked <==> limit.None?)
            && (source == FromTier ==> layer == ClientWide && limit == TierField(tier, d))
            && (source == Derived ==>
                  && layer == ClientWide && (d.Rpm? || d.Tpm?) && TierField(tier, d).None?
                  && limit == Some(6 * if d.Rpm? then st.rpm else st.tpm))
            && (source == Set && layer == ClientWide ==>
                  TierField(tier, d).None? && limit == (if d.Rpm? then st.client.rpm else st.client.tpm))
  {
  }
}
