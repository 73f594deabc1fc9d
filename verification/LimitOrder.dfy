/** In which order a request's limits are asked: whichever refuses it, everything that ranks before has
    been asked and has let it through. */
module LimitOrder {
  import opened Common
  import opened RateLimiter
  import opened RateLimits
  import opened RequestLimits

  function TheSecond(cl: Claims, who: Identity): nat {
    if who == Caller(cl.client) then 0 else 1
  }

  /** The platform; the route, its user after its client, its tokens last; then name by name the minute, the
      day and the directions across every route; the day on the route; and there the directions. */
  function Rank(cl: Claims, c: Check): nat {
    var second := TheSecond(cl, c.who);
    if c.who.Platform? then (if c.dim.Rpm? then 0 else 1)
    else if c.where == AllEndpoints then
      match c.dim
      case Rpm => 5 + 6 * second
      case Tpm => 6 + 6 * second
      case Rpd => 7 + 6 * second
      case Tpd => 8 + 6 * second
      case TpmIn => 9 + 6 * second
      case _ => 10 + 6 * second
    else
      match c.dim
      case Rpm => 2 + second
      case Tpm => 4
      case Rpd => 17 + 2 * second
      case Tpd => 18 + 2 * second
      case TpmIn => 21 + second
      case _ => 23 + second
  }

  /** What ranks before a check stands before it. */
  predicate Ranked(cl: Claims, s: seq<Check>, lo: nat, hi: nat) {
    && (forall c :: c in s ==> lo <= Rank(cl, c) < hi)
    && (forall j, c :: 0 <= j < |s| && c in s && Rank(cl, c) < Rank(cl, s[j]) ==> c in s[..j])
  }

  lemma RankedWider(cl: Claims, s: seq<Check>, lo: nat, hi: nat, lo': nat, hi': nat)
    requires Ranked(cl, s, lo, hi) && lo' <= lo && hi <= hi'
    ensures Ranked(cl, s, lo', hi')
  {
  }

  lemma RankedAppend(cl: Claims, a: seq<Check>, b: seq<Check>, lo: nat, mid: nat, hi: nat)
    requires Ranked(cl, a, lo, mid) && Ranked(cl, b, mid, hi) && lo <= mid <= hi
    ensures Ranked(cl, a + b, lo, hi)
  {
    var s := a + b;
    forall j, c | 0 <= j < |s| && c in s && Rank(cl, c) < Rank(cl, s[j])
      ensures c in s[..j]
    {
      if j < |a| {
        assert s[j] in a && s[..j] == a[..j];
      } else {
        assert s[j] in b && s[..j] == a + b[..j - |a|];
      }
    }
  }

  lemma RankedOne(cl: Claims, c: Check)
    ensures Ranked(cl, [c], Rank(cl, c), Rank(cl, c) + 1)
  {
  }

  lemma RankedIf(cl: Claims, chosen: Option<int>, d: Dimension, who: Identity, where: Endpoint, at: nat)
    requires Rank(cl, Check(d, who, where, 0, 0, true)) == at
    ensures Ranked(cl, CheckIf(chosen, d, who, where), at, at + 1)
  {
    if chosen.Some? {
      RankedOne(cl, Check(d, who, where, 0, chosen.value, true));
    }
  }

  lemma PlatformRanked(st: Settings, cl: Claims)
    ensures Ranked(cl, PlatformLayer(st), 0, 2)
  {
    var c := Check(Rpm, Platform, AllEndpoints, 0, Or(st.platform.rpm, 0), st.platform.rpm.Some?);
    RankedOne(cl, c);
    RankedIf(cl, st.platform.tpm, Tpm, Platform, AllEndpoints, 1);
    RankedAppend(cl, [c], CheckIf(st.platform.tpm, Tpm, Platform, AllEndpoints), 0, 1, 2);
  }

  lemma EndpointRanked(st: Settings, tier: Tier, cl: Claims, slug: Endpoint)
    requires slug != AllEndpoints
    ensures Ranked(cl, EndpointLayer(st, tier, cl, slug), 2, 5)
  {
    var a := Check(Rpm, Caller(cl.client), slug, 0, EndpointRpm(st, slug), true);
    var b := Check(Rpm, Caller(cl.user), slug, 0, EndpointRpm(st, slug), true);
    var c := Check(Tpm, Caller(cl.client), slug, 0, EndpointTpm(st, slug), tier.tpm.None?);
    var users := if Distinct(cl) then [b] else [];
    RankedOne(cl, a);
    RankedOne(cl, b);
    RankedOne(cl, c);
    RankedAppend(cl, [a], users, 2, 3, 4);
    RankedAppend(cl, [a] + users, [c], 2, 4, 5);
  }

  lemma ClientRanked(st: Settings, tier: Tier, cl: Claims, who: Identity)
    requires who.Caller?
    ensures var at := 5 + 6 * TheSecond(cl, who); Ranked(cl, ClientChecks(st, tier, who), at, at + 6)
  {
    var at := 5 + 6 * TheSecond(cl, who);
    var a := Check(Rpm, who, AllEndpoints, 0, ClientRpm(st, tier), true);
    var b := Check(Tpm, who, AllEndpoints, 0, ClientTpm(st, tier), true);
    var rpd, tpd := CheckIf(tier.rpd, Rpd, who, AllEndpoints), CheckIf(tier.tpd, Tpd, who, AllEndpoints);
    var into, out := CheckIf(tier.tpmInput, TpmIn, who, AllEndpoints), CheckIf(tier.tpmOutput, TpmOut, who, AllEndpoints);
    RankedOne(cl, a);
    RankedOne(cl, b);
    RankedIf(cl, tier.rpd, Rpd, who, AllEndpoints, at + 2);
    RankedIf(cl, tier.tpd, Tpd, who, AllEndpoints, at + 3);
    RankedIf(cl, tier.tpmInput, TpmIn, who, AllEndpoints, at + 4);
    RankedIf(cl, tier.tpmOutput, TpmOut, who, AllEndpoints, at + 5);
    RankedAppend(cl, [a], [b], at, at + 1, at + 2);
    assert [a] + [b] == [a, b];
    RankedAppend(cl, [a, b], rpd, at, at + 2, at + 3);
    RankedAppend(cl, [a, b] + rpd, tpd, at, at + 3, at + 4);
    RankedAppend(cl, [a, b] + rpd + tpd, into, at, at + 4, at + 5);
    RankedAppend(cl, [a, b] + rpd + tpd + into, out, at, at + 5, at + 6);
  }

  lemma DayRanked(st: Settings, cl: Claims, who: Identity, slug: Endpoint)
    requires who.Caller? && slug != AllEndpoints
    ensures var at := 17 + 2 * TheSecond(cl, who); Ranked(cl, DailyChecks(st, who, slug), at, at + 2)
  {
    var at := 17 + 2 * TheSecond(cl, who);
    RankedIf(cl, st.rpd, Rpd, who, slug, at);
    RankedIf(cl, st.tpd, Tpd, who, slug, at + 1);
    RankedAppend(cl, CheckIf(st.rpd, Rpd, who, slug), CheckIf(st.tpd, Tpd, who, slug), at, at + 1, at + 2);
  }

  // ---------- A layer that goes name by name ----------

  /** One name's checks, then another's that is not the client or is this one again. */
  lemma NamesRanked(cl: Claims, a: seq<Check>, b: seq<Check>, lo: nat, n: nat)
    requires Ranked(cl, a, lo, lo + n) && (Ranked(cl, b, lo + n, lo + 2 * n) || b == a)
    ensures Ranked(cl, a + b, lo, lo + 2 * n)
  {
    if b == a {
      forall j, c | 0 <= j < |a + a| && c in a + a && Rank(cl, c) < Rank(cl, (a + a)[j])
        ensures c in (a + a)[..j]
      {
        if j < |a| {
          assert (a + a)[..j] == a[..j];
        } else {
          assert (a + a)[..j] == a + a[..j - |a|];
        }
      }
    } else {
      RankedAppend(cl, a, b, lo, lo + n, lo + 2 * n);
    }
  }

  /** What the names of a request may be: none, one or both, the client first. */
  lemma NamesAre(cl: Claims)
    ensures var client, user := Caller(cl.client), Caller(cl.user);
            && (Both(cl) == [] || Both(cl) == [client] || Both(cl) == [user] || Both(cl) == [client, user])
            && (Once(cl) == [] || Once(cl) == [client] || Once(cl) == [user]
                || (client != user && Once(cl) == [client, user]))
  {
    var c, u := cl.client, cl.user;
    assert [c, u][1..] == [u] && [u][1..] == [] && [c][1..] == [];
    assert Present([]) == [];
    assert Present([u]) == if u != "" then [Caller(u)] else [];
    assert Present([c]) == if c != "" then [Caller(c)] else [];
    assert Present([c, u]) == (if c != "" then [Caller(c)] else []) + Present([u]);
  }

  lemma ClientLayerRanked(st: Settings, tier: Tier, cl: Claims)
    ensures Ranked(cl, ClientLayer(st, tier, Once(cl)), 5, 17)
  {
    NamesAre(cl);
    var ids, client, user := Once(cl), Caller(cl.client), Caller(cl.user);
    ClientRanked(st, tier, cl, client);
    ClientRanked(st, tier, cl, user);
    if |ids| == 1 {
      LayerOfOne(st, tier, ids[0]);
      var at := 5 + 6 * TheSecond(cl, ids[0]);
      RankedWider(cl, ClientChecks(st, tier, ids[0]), at, at + 6, 5, 17);
    } else if |ids| == 2 {
      LayerOfOne(st, tier, user);
      assert ids[1..] == [user];
      NamesRanked(cl, ClientChecks(st, tier, client), ClientChecks(st, tier, user), 5, 6);
    }
  }

  lemma LayerOfOne(st: Settings, tier: Tier, who: Identity)
    ensures ClientLayer(st, tier, [who]) == ClientChecks(st, tier, who)
  {
    assert [who][1..] == [];
  }

  lemma DailyLayerRanked(st: Settings, cl: Claims, slug: Endpoint)
    requires slug != AllEndpoints
    ensures Ranked(cl, DailyLayer(st, Both(cl), slug), 17, 21)
  {
    NamesAre(cl);
    var ids, client, user := Both(cl), Caller(cl.client), Caller(cl.user);
    DayRanked(st, cl, client, slug);
    DayRanked(st, cl, user, slug);
    if |ids| == 1 {
      assert [ids[0]][1..] == [] && DailyLayer(st, [ids[0]], slug) == DailyChecks(st, ids[0], slug);
      var at := 17 + 2 * TheSecond(cl, ids[0]);
      RankedWider(cl, DailyChecks(st, ids[0], slug), at, at + 2, 17, 21);
    } else if |ids| == 2 {
      assert ids[1..] == [user] && [user][1..] == [];
      assert DailyLayer(st, [user], slug) == DailyChecks(st, user, slug);
      NamesRanked(cl, DailyChecks(st, client, slug), DailyChecks(st, user, slug), 17, 2);
    }
  }

  lemma DirectionLayerRanked(chosen: Option<int>, d: Dimension, cl: Claims, slug: Endpoint)
    requires slug != AllEndpoints && (d.TpmIn? || d.TpmOut?)
    ensures var at := if d.TpmIn? then 21 else 23; Ranked(cl, DirectionLayer(chosen, d, Both(cl), slug), at, at + 2)
  {
    NamesAre(cl);
    var at := if d.TpmIn? then 21 else 23;
    var ids, client, user := Both(cl), Caller(cl.client), Caller(cl.user);
    RankedIf(cl, chosen, d, client, slug, at);
    RankedIf(cl, chosen, d, user, slug, at + TheSecond(cl, user));
    if |ids| == 1 {
      assert [ids[0]][1..] == [] && DirectionLayer(chosen, d, [ids[0]], slug) == CheckIf(chosen, d, ids[0], slug);
      var from := at + TheSecond(cl, ids[0]);
      RankedWider(cl, CheckIf(chosen, d, ids[0], slug), from, from + 1, at, at + 2);
    } else if |ids| == 2 {
      assert ids[1..] == [user] && [user][1..] == [];
      assert DirectionLayer(chosen, d, [user], slug) == CheckIf(chosen, d, user, slug);
      NamesRanked(cl, CheckIf(chosen, d, client, slug), CheckIf(chosen, d, user, slug), at, 1);
    }
  }

  lemma PlanIsRanked(st: Settings, tier: Tier, cl: Claims, slug: Endpoint)
    requires slug != AllEndpoints
    ensures Ranked(cl, Plan(st, tier, cl, slug), 0, 25)
  {
    var into, out := DirectionLayer(st.tpmInput, TpmIn, Both(cl), slug), DirectionLayer(st.tpmOutput, TpmOut, Both(cl), slug);
    var day, client := DailyLayer(st, Both(cl), slug), ClientLayer(st, tier, Once(cl));
    DirectionLayerRanked(st.tpmInput, TpmIn, cl, slug);
    DirectionLayerRanked(st.tpmOutput, TpmOut, cl, slug);
    DailyLayerRanked(st, cl, slug);
    ClientLayerRanked(st, tier, cl);
    EndpointRanked(st, tier, cl, slug);
    PlatformRanked(st, cl);
    RankedAppend(cl, into, out, 21, 23, 25);
    RankedAppend(cl, day, into + out, 17, 21, 25);
    RankedAppend(cl, client, day + (into + out), 5, 17, 25);
    RankedAppend(cl, EndpointLayer(st, tier, cl, slug), client + (day + (into + out)), 2, 5, 25);
    RankedAppend(cl, PlatformLayer(st), EndpointLayer(st, tier, cl, slug) + (client + (day + (into + out))), 0, 2, 25);
  }

  // ---------- What refuses ----------

  /** Where the checks stopped: at the one that refused, or at the end. */
  lemma {:induction false} MadeIsPrefix(before: map<Key, Counter>, checks: seq<Check>, clock: Clock, i: nat)
    ensures var made, p := Made(before, checks, clock, i), Perform(before, checks, clock, i);
            && made <= checks
            && (p.refusal.Some? ==> made != [] && made[|made| - 1] == p.refusal.value && p.refusal.value.enforced)
    decreases checks
  {
    if checks != [] && !Refuses(before, checks[0], clock(i)) {
      MadeIsPrefix(Effect(before, checks[0], clock(i)), checks[1..], clock, i + 1);
      assert checks == [checks[0]] + checks[1..];
    }
  }

  /** Whichever check refuses a request is enforced, and every check that ranks before it has been made. */
  lemma RefusalComesInRank(before: map<Key, Counter>, st: Settings, tier: Tier, cl: Claims, slug: Endpoint, clock: Clock)
    requires slug != AllEndpoints && Perform(before, Plan(st, tier, cl, slug), clock, 0).refusal.Some?
    ensures var plan := Plan(st, tier, cl, slug);
            var made, refusal := Made(before, plan, clock, 0), Perform(before, plan, clock, 0).refusal.value;
            && refusal in plan && refusal.enforced
            && forall c :: c in plan && Rank(cl, c) < Rank(cl, refusal) ==> c in made
  {
    var plan := Plan(st, tier, cl, slug);
    MadeIsPrefix(before, plan, clock, 0);
    PlanIsRanked(st, tier, cl, slug);
    var made := Made(before, plan, clock, 0);
    var j := |made| - 1;
    assert plan[j] == made[j];
    forall c | c in plan && Rank(cl, c) < Rank(cl, plan[j])
      ensures c in made
    {
      assert c in plan[..j];
    }
  }
}
