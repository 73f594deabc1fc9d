/** Spend alerts: any number of calls walking their thresholds at once over one month's notified set. */
module AlertRuns {
  import opened Common
  import opened Budget

  /** One _check_thresholds in progress. */
  datatype Call = Call(percent: real, asked: seq<int>, walked: nat, crossed: seq<int>)

  datatype State = State(notified: set<int>, calls: seq<Call>)

  datatype Action =
    | Open(total: int, cap: real, thresholds: seq<int>)   // a reserve or a settle, its total known
    | Walk(call: nat)                                     // its next threshold, one SADD

  predicate Walking(s: State, i: nat) {
    i < |s.calls| && s.calls[i].walked < |s.calls[i].asked|
  }

  function Next(s: State, a: Action): State {
    match a
    case Open(total, cap, thresholds) =>
      if cap <= 0.0 then s
      else s.(calls := s.calls + [Call(Percent(total, cap), Sorted(thresholds), 0, [])])
    case Walk(i) =>
      if !Walking(s, i) then s
      else
        var c := s.calls[i];
        var t := c.asked[c.walked];
        var isNew := c.percent >= t as real && t !in s.notified;
        var c' := c.(walked := c.walked + 1, crossed := if isNew then c.crossed + [t] else c.crossed);
        State(if isNew then s.notified + {t} else s.notified, s.calls[i := c'])
  }

  function Run(acts: seq<Action>): State {
    if acts == [] then State({}, []) else Next(Run(acts[..|acts| - 1]), acts[|acts| - 1])
  }

  /** Everything the calls have reported as newly crossed. */
  function Reported(calls: seq<Call>): multiset<int> {
    if calls == [] then multiset{}
    else Reported(calls[..|calls| - 1]) + multiset(calls[|calls| - 1].crossed)
  }

  lemma AddedInEitherOrder(a: multiset<int>, b: multiset<int>, c: multiset<int>)
    ensures a + b + c == a + c + b
  {
  }

  lemma {:induction false} ReportedUpdate(calls: seq<Call>, i: nat, c: Call, t: int)
    requires i < |calls| && c.crossed == calls[i].crossed + [t]
    ensures Reported(calls[i := c]) == Reported(calls) + multiset{t}
  {
    var n := |calls| - 1;
    if i == n {
      assert calls[i := c][..n] == calls[..n];
    } else {
      assert calls[i := c][..n] == calls[..n][i := c];
      ReportedUpdate(calls[..n], i, c, t);
      AddedInEitherOrder(Reported(calls[..n]), multiset{t}, multiset(calls[n].crossed));
    }
  }

  lemma {:induction false} ReportedSame(calls: seq<Call>, i: nat, c: Call)
    requires i < |calls| && c.crossed == calls[i].crossed
    ensures Reported(calls[i := c]) == Reported(calls)
  {
    var n := |calls| - 1;
    if i == n {
      assert calls[i := c][..n] == calls[..n];
    } else {
      assert calls[i := c][..n] == calls[..n][i := c];
      ReportedSame(calls[..n], i, c);
    }
  }

  /** Each threshold has been reported once if it is notified, and never otherwise: so by at
      most one call, and a later fall in the spend cannot fire it again. */
  lemma {:induction false} EachAlertOnce(acts: seq<Action>)
    ensures Reported(Run(acts).calls) == multiset(Run(acts).notified)
  {
    if acts != [] {
      var s, a := Run(acts[..|acts| - 1]), acts[|acts| - 1];
      EachAlertOnce(acts[..|acts| - 1]);
      var t := Next(s, a);
      match a
      case Open(_, cap, _) =>
        if cap > 0.0 {
          assert t.calls[..|s.calls|] == s.calls;
        }
      case Walk(i) =>
        if Walking(s, i) {
          if t.notified == s.notified {
            ReportedSame(s.calls, i, t.calls[i]);
          } else {
            ReportedUpdate(s.calls, i, t.calls[i], s.calls[i].asked[s.calls[i].walked]);
          }
        }
    }
  }

  /** What a call has walked past and had reached is notified. */
  ghost predicate Thorough(s: State) {
    forall c :: c in s.calls ==>
      && c.walked <= |c.asked|
      && forall k :: 0 <= k < c.walked && c.percent >= c.asked[k] as real ==> c.asked[k] in s.notified
  }

  lemma NextThorough(s: State, a: Action)
    requires Thorough(s)
    ensures Thorough(Next(s, a))
  {
    var t := Next(s, a);
    forall c | c in t.calls
      ensures c.walked <= |c.asked|
      ensures forall k :: 0 <= k < c.walked && c.percent >= c.asked[k] as real ==> c.asked[k] in t.notified
    {
      var j: nat :| j < |t.calls| && t.calls[j] == c;
      assert j < |s.calls| ==> s.calls[j] in s.calls;
    }
  }

  lemma {:induction false} RunThorough(acts: seq<Action>)
    ensures Thorough(Run(acts))
  {
    if acts != [] {
      RunThorough(acts[..|acts| - 1]);
      NextThorough(Run(acts[..|acts| - 1]), acts[|acts| - 1]);
    }
  }

  /** What a call saw is its total's percentage of its cap, and it walks the thresholds it was given. */
  lemma OpenSeesItsShare(s: State, total: int, cap: real, thresholds: seq<int>, t: int)
    requires cap > 0.0
    ensures var c := Next(s, Open(total, cap, thresholds)).calls[|s.calls|];
            && c.walked == 0 && c.crossed == []
            && (t in c.asked <==> t in thresholds)
            && (c.percent >= t as real <==> 100.0 * total as real >= t as real * cap * 1000000.0)
  {
    SortedHolds(thresholds);
    PercentReaches(total, cap, t);
  }

  /** When a call ends, every threshold at or below the percentage it saw has been notified. */
  lemma FinishedCallMissesNothing(acts: seq<Action>, i: nat, t: int)
    requires i < |Run(acts).calls|
    requires var c := Run(acts).calls[i]; c.walked == |c.asked| && t in c.asked && c.percent >= t as real
    ensures t in Run(acts).notified
  {
    RunThorough(acts);
    assert Run(acts).calls[i] in Run(acts).calls;
  }
}
