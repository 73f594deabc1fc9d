/** Which replicas of a model can take a request right now: router.py's _healthy_members. */
module Routing {
  import opened Common
  import Breaker

  /** What asking a replica's breaker would bring: an error, or its state and, should it be asked
      for a probe, whether it grants one. */
  datatype Circuit = NoBreaker | Unreadable | Readable(view: Breaker.View, grants: bool)

  datatype Member = Member(id: nat, load: real, unreachable: bool, saturated: bool, circuit: Circuit)

  datatype Reason = Unreachable | Saturated | CircuitIs(mode: Breaker.Mode)

  // ---------- Least loaded first ----------

  function InsertByLoad(m: Member, s: seq<Member>): (r: seq<Member>)
    ensures multiset(r) == multiset(s) + multiset{m}
  {
    if s == [] || m.load <= s[0].load then [m] + s
    else
      assert s == [s[0]] + s[1..];
      [s[0]] + InsertByLoad(m, s[1..])
  }

  /** Python's sorted(), by load. */
  function ByLoad(members: seq<Member>): (r: seq<Member>)
    ensures multiset(r) == multiset(members)
  {
    if members == [] then []
    else
      assert members == [members[0]] + members[1..];
      InsertByLoad(members[0], ByLoad(members[1..]))
  }

  predicate LoadsAscend(s: seq<Member>) {
    forall i, j :: 0 <= i < j < |s| ==> s[i].load <= s[j].load
  }

  /** The members of one load, in order. */
  function WithLoad(s: seq<Member>, load: real): seq<Member> {
    if s == [] then [] else (if s[0].load == load then [s[0]] else []) + WithLoad(s[1..], load)
  }

  lemma InsertedIsOneOf(m: Member, s: seq<Member>, j: nat)
    requires j < |InsertByLoad(m, s)|
    ensures InsertByLoad(m, s)[j] == m || InsertByLoad(m, s)[j] in s
  {
    assert InsertByLoad(m, s)[j] in multiset(InsertByLoad(m, s));
    assert InsertByLoad(m, s)[j] in multiset(s) || InsertByLoad(m, s)[j] == m;
  }

  lemma {:induction false} InsertingAscends(m: Member, s: seq<Member>)
    requires LoadsAscend(s)
    ensures LoadsAscend(InsertByLoad(m, s))
  {
    if s != [] && m.load > s[0].load {
      InsertingAscends(m, s[1..]);
      var rest := InsertByLoad(m, s[1..]);
      forall j | 0 <= j < |rest|
        ensures s[0].load <= rest[j].load
      {
        InsertedIsOneOf(m, s[1..], j);
      }
    }
  }

  lemma WithLoadFirst(m: Member, s: seq<Member>, load: real)
    ensures WithLoad([m] + s, load) == (if m.load == load then [m] else []) + WithLoad(s, load)
  {
    assert ([m] + s)[1..] == s;
  }

  lemma NeitherFirst(a: seq<Member>, b: seq<Member>, rest: seq<Member>)
    requires a == [] || b == []
    ensures a + (b + rest) == b + (a + rest)
  {
  }

  lemma {:induction false} InsertingIsStable(m: Member, s: seq<Member>, load: real)
    ensures WithLoad(InsertByLoad(m, s), load) == (if m.load == load then [m] else []) + WithLoad(s, load)
    decreases s
  {
    if s != [] && m.load > s[0].load {
      InsertingIsStable(m, s[1..], load);
      WithLoadFirst(s[0], InsertByLoad(m, s[1..]), load);
      NeitherFirst(if s[0].load == load then [s[0]] else [], if m.load == load then [m] else [], WithLoad(s[1..], load));
    } else {
      WithLoadFirst(m, s, load);
    }
  }

  /** The least loaded come first, and members of equal load keep the registry's order. */
  lemma {:induction false} ByLoadIsStable(members: seq<Member>, load: real)
    ensures LoadsAscend(ByLoad(members))
    ensures WithLoad(ByLoad(members), load) == WithLoad(members, load)
  {
    if members != [] {
      ByLoadIsStable(members[1..], load);
      InsertingAscends(members[0], ByLoad(members[1..]));
      InsertingIsStable(members[0], ByLoad(members[1..]), load);
    }
  }

  // ---------- Who is usable ----------

  predicate Reachable(m: Member) {
    !m.unreachable && !m.saturated
  }

  /** Usable without spending a probe. */
  predicate Ready(m: Member) {
    Reachable(m) && (m.circuit.Readable? ==> m.circuit.view.mode == Breaker.Closed)
  }

  /** Usable only if its breaker grants a probe. */
  predicate Tripped(m: Member) {
    Reachable(m) && !Ready(m)
  }

  predicate Grants(m: Member) {
    Tripped(m) && m.circuit.grants
  }

  function ReadyOnes(members: seq<Member>): seq<Member> {
    if members == [] then []
    else ReadyOnes(members[..|members| - 1]) + if Ready(members[|members| - 1]) then [members[|members| - 1]] else []
  }

  /** The tripped replicas whose breakers are asked for a probe: those met before anything usable. */
  function Asked(members: seq<Member>): seq<Member> {
    if members == [] then []
    else
      var earlier := members[..|members| - 1];
      var m := members[|members| - 1];
      Asked(earlier) + if Tripped(m) && ReadyOnes(earlier) == [] && Won(earlier) == [] then [m] else []
  }

  /** The replicas that granted one. */
  function Won(members: seq<Member>): seq<Member> {
    if members == [] then []
    else
      var earlier := members[..|members| - 1];
      var m := members[|members| - 1];
      Won(earlier)
      + if Grants(m) && ReadyOnes(earlier) == [] && Won(earlier) == [] then [m] else []
  }

  /** When the tripped replicas that were passed over might come back. */
  function Recoveries(members: seq<Member>): seq<real> {
    if members == [] then []
    else
      var earlier := members[..|members| - 1];
      var m := members[|members| - 1];
      Recoveries(earlier)
      + if Tripped(m) && !(Grants(m) && ReadyOnes(earlier) == [] && Won(earlier) == [])
           && Breaker.Truthy(m.circuit.view.recoveryAt)
        then [m.circuit.view.recoveryAt.value] else []
  }

  /** Why each replica left out was left out; a later one of the same id wins. */
  function Skipped(members: seq<Member>): map<nat, Reason> {
    if members == [] then map[]
    else
      var earlier := members[..|members| - 1];
      var m := members[|members| - 1];
      if Ready(m) || (Grants(m) && ReadyOnes(earlier) == [] && Won(earlier) == []) then Skipped(earlier)
      else
        Skipped(earlier)[m.id := if m.unreachable then Unreachable
                                 else if m.saturated then Saturated
                                 else CircuitIs(m.circuit.view.mode)]
  }

  /** Every candidate is either usable or accounted for. */
  lemma {:induction false} NobodyForgotten(members: seq<Member>)
    ensures forall m :: m in members ==> m in Won(members) + ReadyOnes(members) || m.id in Skipped(members)
  {
    if members != [] {
      var n := |members| - 1;
      NobodyForgotten(members[..n]);
      assert members == members[..n] + [members[n]];
    }
  }

  /** Takes a request without a probe: a replica that answers, has room, and whose breaker is closed, missing
      or cannot be read. */
  predicate Takes(m: Member) {
    !m.unreachable && !m.saturated && (m.circuit.NoBreaker? || m.circuit.Unreadable? || m.circuit.view.mode.Closed?)
  }

  /** Takes one as a probe, if its breaker grants it. */
  predicate Probes(m: Member) {
    !m.unreachable && !m.saturated && m.circuit.Readable? && !m.circuit.view.mode.Closed? && m.circuit.grants
  }

  lemma {:induction false} ReadyOnesTake(members: seq<Member>, m: Member)
    ensures m in ReadyOnes(members) <==> m in members && Takes(m)
  {
    if members != [] {
      var n := |members| - 1;
      ReadyOnesTake(members[..n], m);
      assert members == members[..n] + [members[n]];
    }
  }

  /** A probe before anything that takes a request without one. */
  predicate ProbeFirst(members: seq<Member>, i: nat)
    requires i < |members|
  {
    Probes(members[i]) && forall j :: 0 <= j < i ==> !Takes(members[j]) && !Probes(members[j])
  }

  /** The probe won is the first replica that would take one, if none before it takes a request without. */
  lemma {:induction false} WonIsTheFirst(members: seq<Member>)
    ensures forall i :: 0 <= i < |members| && ProbeFirst(members, i) ==> Won(members) == [members[i]]
    ensures (forall i :: 0 <= i < |members| ==> !ProbeFirst(members, i)) ==> Won(members) == []
  {
    if members != [] {
      var n := |members| - 1;
      var earlier, m := members[..n], members[n];
      WonIsTheFirst(earlier);
      forall i | 0 <= i < n
        ensures ProbeFirst(earlier, i) <==> ProbeFirst(members, i)
      {
        assert forall j :: 0 <= j < i ==> earlier[j] == members[j];
      }
      NothingUsable(earlier);
      assert ProbeFirst(members, n) <==> Grants(m) && ReadyOnes(earlier) == [] && Won(earlier) == [];
    }
  }

  lemma {:induction false} NothingUsable(members: seq<Member>)
    ensures ReadyOnes(members) == [] && Won(members) == [] <==>
            forall j :: 0 <= j < |members| ==> !Takes(members[j]) && !Probes(members[j])
  {
    if members != [] {
      var n := |members| - 1;
      NothingUsable(members[..n]);
      assert forall j :: 0 <= j < n ==> members[..n][j] == members[j];
      LastUsable(members);
    }
  }

  lemma LastUsable(members: seq<Member>)
    requires members != []
    ensures var n := |members| - 1;
            ReadyOnes(members) == [] && Won(members) == [] <==>
            ReadyOnes(members[..n]) == [] && Won(members[..n]) == [] && !Takes(members[n]) && !Probes(members[n])
  {
  }

  predicate OneOfEach(members: seq<Member>) {
    forall i, j :: 0 <= i < j < |members| ==> members[i].id != members[j].id
  }

  predicate IsWhy(why: Reason, m: Member) {
    match why
    case Unreachable => m.unreachable
    case Saturated => m.saturated && !m.unreachable
    case CircuitIs(mode) => m.circuit.Readable? && mode == m.circuit.view.mode && !mode.Closed? && !m.unreachable && !m.saturated
  }

  /** Of a replica met once: left out exactly if not usable, and for what is wrong with it. */
  predicate ToldWhy(members: seq<Member>, m: Member) {
    && (m.id in Skipped(members) <==> m !in Won(members) + ReadyOnes(members))
    && (m.id in Skipped(members) ==> IsWhy(Skipped(members)[m.id], m))
  }

  lemma LastToldWhy(members: seq<Member>)
    requires members != [] && OneOfEach(members)
    ensures ToldWhy(members, members[|members| - 1])
  {
    var earlier, last := members[..|members| - 1], members[|members| - 1];
    OnlyMembers(earlier);
    assert forall m :: m in earlier ==> m.id != last.id;
    assert last !in Won(earlier) + ReadyOnes(earlier) && last.id !in Skipped(earlier);
    assert last in Won(members) + ReadyOnes(members) <==>
           Ready(last) || (Grants(last) && ReadyOnes(earlier) == [] && Won(earlier) == []);
  }

  lemma EarlierToldWhy(members: seq<Member>, m: Member)
    requires members != [] && ToldWhy(members[..|members| - 1], m) && m.id != members[|members| - 1].id
    ensures ToldWhy(members, m)
  {
  }

  lemma {:induction false} AllToldWhy(members: seq<Member>, i: nat)
    requires i < |members| && OneOfEach(members)
    ensures ToldWhy(members, members[i])
  {
    var n := |members| - 1;
    if i < n {
      AllToldWhy(members[..n], i);
      EarlierToldWhy(members, members[i]);
    } else {
      LastToldWhy(members);
    }
  }

  /** Each replica left out is left out for what is wrong with it, and no other is. */
  lemma SkippedTellsWhy(members: seq<Member>, i: nat)
    requires i < |members| && OneOfEach(members)
    ensures members[i].id in Skipped(members) <==> members[i] !in Won(members) + ReadyOnes(members)
    ensures members[i].id in Skipped(members) ==> IsWhy(Skipped(members)[members[i].id], members[i])
  {
    AllToldWhy(members, i);
  }

  lemma {:induction false} OnlyMembers(members: seq<Member>)
    ensures forall m :: m in Won(members) + ReadyOnes(members) ==> m in members
    ensures forall id :: id in Skipped(members) ==> exists m :: m in members && m.id == id
  {
    if members != [] {
      var n := |members| - 1;
      OnlyMembers(members[..n]);
      assert members == members[..n] + [members[n]];
    }
  }

  /** Usable replicas come least loaded first. */
  lemma {:induction false} ReadyOnesAscend(members: seq<Member>)
    requires LoadsAscend(members)
    ensures LoadsAscend(ReadyOnes(members))
  {
    if members != [] {
      var n := |members| - 1;
      ReadyOnesAscend(members[..n]);
      forall m | m in ReadyOnes(members[..n])
        ensures m.load <= members[n].load
      {
        ReadyOnesTake(members[..n], m);
      }
    }
  }

  /** A replica left out for its breaker, which says when it may be back. */
  predicate BackAt(members: seq<Member>, m: Member, at: real) {
    && m in members && !m.unreachable && !m.saturated
    && m.circuit.Readable? && !m.circuit.view.mode.Closed? && m.circuit.view.recoveryAt == Some(at) && at != 0.0
  }

  /** Nothing is waited for but such replicas, and none of those that are not used is forgotten. */
  lemma {:induction false} RecoveriesAreTheirs(members: seq<Member>, at: real)
    ensures at in Recoveries(members) ==> exists m :: BackAt(members, m, at)
    ensures (exists m :: BackAt(members, m, at) && m !in Won(members)) ==> at in Recoveries(members)
  {
    if members != [] {
      var n := |members| - 1;
      RecoveriesAreTheirs(members[..n], at);
      forall m
        ensures BackAt(members, m, at) <==> BackAt(members[..n], m, at) || (m == members[n] && BackAt([m], m, at))
      {
        assert members == members[..n] + [members[n]];
      }
    }
  }

  /** However many replicas are tripped, one call wins at most one probe, it is the last one asked
      for, and no probe is asked for once a replica is known to be usable. */
  lemma {:induction false} AtMostOneProbe(members: seq<Member>)
    ensures |Won(members)| <= 1
    ensures forall i :: 0 <= i < |Asked(members)| - 1 ==> !Grants(Asked(members)[i])
    ensures Won(members) != [] ==> Asked(members) != [] && Won(members)[0] == Asked(members)[|Asked(members)| - 1]
    ensures Won(members) == [] ==> forall m :: m in Asked(members) ==> !Grants(m)
    ensures forall m :: m in Asked(members) ==> Tripped(m)
    ensures members != [] && Ready(members[0]) ==> Asked(members) == []
  {
    if members != [] {
      var earlier := members[..|members| - 1];
      AtMostOneProbe(earlier);
      if |members| > 1 && Ready(members[0]) {
        FirstReadyCounts(earlier);
      }
    }
  }

  lemma {:induction false} FirstReadyCounts(members: seq<Member>)
    requires members != [] && Ready(members[0])
    ensures ReadyOnes(members) != []
  {
    if |members| > 1 {
      FirstReadyCounts(members[..|members| - 1]);
    }
  }

  /** The least of these times, if there are any. */
  ghost predicate Soonest(times: seq<real>, at: Option<real>) {
    && (at.None? <==> times == [])
    && (at.Some? ==> at.value in times && forall t :: t in times ==> at.value <= t)
  }

  lemma NextMember(members: seq<Member>, i: nat)
    requires i < |members|
    ensures var earlier, next, m := members[..i], members[..i + 1], members[i];
            var none := ReadyOnes(earlier) == [] && Won(earlier) == [];
            var wins := Grants(m) && none;
            && next == earlier + [m]
            && ReadyOnes(next) == ReadyOnes(earlier) + (if Ready(m) then [m] else [])
            && Won(next) == Won(earlier) + (if wins then [m] else [])
            && Skipped(next) == (if Ready(m) || wins then Skipped(earlier)
                                 else Skipped(earlier)[m.id := if m.unreachable then Unreachable
                                                               else if m.saturated then Saturated
                                                               else CircuitIs(m.circuit.view.mode)])
            && Recoveries(next) == Recoveries(earlier)
                 + (if Tripped(m) && !wins && Breaker.Truthy(m.circuit.view.recoveryAt)
                    then [m.circuit.view.recoveryAt.value] else [])
  {
    assert members[..i + 1][..i] == members[..i];
  }

  /** Usable, least loaded first: the probe won, if any, then every ready replica in order. `soonest` is
      the least of the skipped breakers' recovery times. */
  method HealthyMembers(candidates: seq<Member>)
    returns (usable: seq<Member>, skipped: map<nat, Reason>, soonest: Option<real>)
    ensures var members := ByLoad(candidates);
            && usable == Won(members) + ReadyOnes(members)
            && skipped == Skipped(members)
            && Soonest(Recoveries(members), soonest)
  {
    var members := ByLoad(candidates);
    usable, skipped, soonest := [], map[], None;
    assert members[..0] == [];
    for i := 0 to |members|
      invariant Through(members[..i], usable, skipped, soonest)
    {
      var m := members[i];
      assert members[..i + 1] == members[..i] + [m];
      if m.unreachable {
        SkipMember(members, i, usable, skipped, soonest, Unreachable);
        skipped := skipped[m.id := Unreachable];
      } else if m.saturated {
        SkipMember(members, i, usable, skipped, soonest, Saturated);
        skipped := skipped[m.id := Saturated];
      } else if !m.circuit.Readable? || m.circuit.view.mode == Breaker.Closed {
        UseMember(members, i, usable, skipped, soonest);
        usable := usable + [m];
      } else if usable == [] && m.circuit.grants {
        UseMember(members, i, usable, skipped, soonest);
        usable := usable + [m];
      } else {
        SkipMember(members, i, usable, skipped, soonest, CircuitIs(m.circuit.view.mode));
        skipped := skipped[m.id := CircuitIs(m.circuit.view.mode)];
        if Breaker.Truthy(m.circuit.view.recoveryAt) {
          soonest := Sooner(soonest, m.circuit.view.recoveryAt.value);
        }
      }
    }
    assert members[..|members|] == members;
  }

  function Sooner(soonest: Option<real>, at: real): Option<real> {
    if soonest.Some? && soonest.value <= at then soonest else Some(at)
  }

  /** What the loop has found of the members it has met. */
  ghost predicate Through(met: seq<Member>, usable: seq<Member>, skipped: map<nat, Reason>, soonest: Option<real>) {
    usable == Won(met) + ReadyOnes(met) && skipped == Skipped(met) && Soonest(Recoveries(met), soonest)
  }

  lemma UseMember(members: seq<Member>, i: nat, usable: seq<Member>, skipped: map<nat, Reason>, soonest: Option<real>)
    requires i < |members| && Through(members[..i], usable, skipped, soonest)
    requires Ready(members[i]) || (Grants(members[i]) && usable == [])
    ensures Through(members[..i + 1], usable + [members[i]], skipped, soonest)
  {
    NextMember(members, i);
    var won, ready, m := Won(members[..i]), ReadyOnes(members[..i]), members[i];
    assert (won + ready) + [m] == won + (ready + [m]);
  }

  lemma SkipMember(members: seq<Member>, i: nat, usable: seq<Member>, skipped: map<nat, Reason>, soonest: Option<real>,
                   why: Reason)
    requires i < |members| && Through(members[..i], usable, skipped, soonest)
    requires !Ready(members[i]) && !(Grants(members[i]) && usable == [])
    requires why == if members[i].unreachable then Unreachable else if members[i].saturated then Saturated
                    else CircuitIs(members[i].circuit.view.mode)
    ensures var m := members[i];
            Through(members[..i + 1], usable, skipped[m.id := why],
                    if Tripped(m) && Breaker.Truthy(m.circuit.view.recoveryAt)
                    then Sooner(soonest, m.circuit.view.recoveryAt.value) else soonest)
  {
    NextMember(members, i);
    var m := members[i];
    if Tripped(m) && Breaker.Truthy(m.circuit.view.recoveryAt) {
      SoonestNext(Recoveries(members[..i]), soonest, m.circuit.view.recoveryAt.value);
    }
  }

  lemma SoonestNext(times: seq<real>, soonest: Option<real>, at: real)
    requires Soonest(times, soonest)
    ensures Soonest(times + [at], Sooner(soonest, at))
  {
  }
}
