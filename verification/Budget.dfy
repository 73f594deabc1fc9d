/** The monthly spend cap of budget.py: money, the per-client tracker and its alerts. */
module Budget {
  import opened Common

  /** Months in calendar order. */
  type Period = nat

  // ---------- Money ----------

  /** Python's round(): to nearest, ties to even. */
  function RoundHalfEven(x: real): (r: int)
    ensures -0.5 <= r as real - x <= 0.5
    ensures (r as real - x == 0.5 || r as real - x == -0.5) ==> r % 2 == 0
  {
    var f := x.Floor;
    var d := x - f as real;
    if d < 0.5 then f
    else if d > 0.5 then f + 1
    else if f % 2 == 0 then f
    else f + 1
  }

  function ToMicros(usd: real): (micros: int)
    ensures -0.5 <= micros as real - 1000000.0 * usd <= 0.5
  {
    RoundHalfEven(usd * 1000000.0)
  }

  function ToUsd(micros: int): real {
    micros as real / 1000000.0
  }

  predicate OverCap(totalMicros: int, cap: Option<real>) {
    cap.Some? && ToUsd(totalMicros) > cap.value
  }

  // ---------- Thresholds ----------

  predicate Ascending(s: seq<int>) {
    forall i, j :: 0 <= i < j < |s| ==> s[i] <= s[j]
  }

  function Insert(x: int, s: seq<int>): (r: seq<int>)
    ensures multiset(r) == multiset(s) + multiset{x}
  {
    if s == [] then [x]
    else if x <= s[0] then [x] + s
    else
      assert s == [s[0]] + s[1..];
      [s[0]] + Insert(x, s[1..])
  }

  lemma {:induction false} InsertKeepsOrder(x: int, s: seq<int>)
    requires Ascending(s)
    ensures Ascending(Insert(x, s))
  {
    if s != [] && s[0] < x {
      InsertKeepsOrder(x, s[1..]);
      var rest := Insert(x, s[1..]);
      forall j | 0 <= j < |rest|
        ensures s[0] <= rest[j]
      {
        InsertedIsOneOf(x, s[1..], j);
      }
    }
  }

  lemma {:induction false} InsertedIsOneOf(x: int, s: seq<int>, j: nat)
    requires j < |Insert(x, s)|
    ensures Insert(x, s)[j] == x || exists i :: 0 <= i < |s| && Insert(x, s)[j] == s[i]
  {
    var y := Insert(x, s)[j];
    assert y in multiset(Insert(x, s));
    if y != x {
      assert y in multiset(s);
      assert y in s;
    }
  }

  function Sorted(s: seq<int>): (r: seq<int>)
    ensures multiset(r) == multiset(s)
    ensures Ascending(r)
  {
    if s == [] then []
    else
      assert s == [s[0]] + s[1..];
      InsertKeepsOrder(s[0], Sorted(s[1..]));
      Insert(s[0], Sorted(s[1..]))
  }

  predicate StrictlyAscending(s: seq<int>) {
    forall i, j :: 0 <= i < j < |s| ==> s[i] < s[j]
  }

  function Unique(s: seq<int>): (r: seq<int>)
    requires Ascending(s)
    ensures StrictlyAscending(r)
    ensures forall x :: x in r <==> x in s
  {
    if |s| <= 1 then s
    else
      var rest := Unique(s[1..]);
      assert s == [s[0]] + s[1..];
      if s[0] == s[1] then rest
      else
        assert forall j :: 0 <= j < |rest| ==> rest[j] in s[1..];
        [s[0]] + rest
  }

  /** str.split, on one character. */
  function SplitOn(s: string, sep: char): (parts: seq<string>)
    ensures |parts| >= 1
  {
    if s == "" then [""]
    else
      var rest := SplitOn(s[1..], sep);
      if s[0] == sep then [""] + rest else [[s[0]] + rest[0]] + rest[1..]
  }

  function JoinedBy(parts: seq<string>, sep: char): string
    requires parts != []
  {
    if |parts| == 1 then parts[0] else parts[0] + [sep] + JoinedBy(parts[1..], sep)
  }

  lemma JoinedNext(c: char, rest: seq<string>, sep: char)
    requires rest != []
    ensures JoinedBy([""] + rest, sep) == [sep] + JoinedBy(rest, sep)
    ensures JoinedBy([[c] + rest[0]] + rest[1..], sep) == [c] + JoinedBy(rest, sep)
  {
    assert ([""] + rest)[1..] == rest;
    var all := [[c] + rest[0]] + rest[1..];
    assert all[1..] == rest[1..];
    if |rest| > 1 {
      assert ([c] + rest[0]) + [sep] + JoinedBy(rest[1..], sep) == [c] + (rest[0] + [sep] + JoinedBy(rest[1..], sep));
    }
  }

  /** The parts hold everything but the separators. */
  lemma {:induction false} SplitJoins(s: string, sep: char)
    ensures JoinedBy(SplitOn(s, sep), sep) == s
    ensures forall i :: 0 <= i < |SplitOn(s, sep)| ==> sep !in SplitOn(s, sep)[i]
  {
    if s != "" {
      SplitJoins(s[1..], sep);
      JoinedNext(s[0], SplitOn(s[1..], sep), sep);
      assert s == [s[0]] + s[1..];
    }
  }

  predicate IsSpace(c: char) {
    c == ' ' || '\t' <= c <= '\r' || '\U{1C}' <= c <= '\U{1F}'
  }

  /** str.strip, of what ASCII calls whitespace. */
  function Stripped(s: string): string {
    if s != "" && IsSpace(s[0]) then Stripped(s[1..])
    else if s != "" && IsSpace(s[|s| - 1]) then Stripped(s[..|s| - 1])
    else s
  }

  /** A space, or one of the nine control characters that count as whitespace. */
  predicate Blank(code: int) {
    code == 32 || 9 <= code <= 13 || 28 <= code <= 31
  }

  /** All but the characters from i to j is whitespace, and it is not whitespace at their ends. */
  predicate Trims(s: string, i: int, j: int) {
    && 0 <= i <= j <= |s|
    && (forall n :: 0 <= n < i ==> Blank(s[n] as int))
    && (forall n :: j <= n < |s| ==> Blank(s[n] as int))
    && (i < j ==> !Blank(s[i] as int) && !Blank(s[j - 1] as int))
  }

  lemma TrimsFirst(s: string, i: int, j: int)
    requires s != "" && IsSpace(s[0]) && Trims(s[1..], i, j)
    ensures Trims(s, i + 1, j + 1) && s[1..][i..j] == s[i + 1..j + 1]
  {
    forall n | 0 <= n < |s| && !(i + 1 <= n < j + 1)
      ensures Blank(s[n] as int)
    {
      assert n > 0 ==> s[n] == s[1..][n - 1];
    }
  }

  lemma TrimsLast(s: string, i: int, j: int)
    requires s != "" && IsSpace(s[|s| - 1]) && Trims(s[..|s| - 1], i, j)
    ensures Trims(s, i, j) && s[..|s| - 1][i..j] == s[i..j]
  {
    var most := s[..|s| - 1];
    forall n | 0 <= n < |s| && !(i <= n < j)
      ensures Blank(s[n] as int)
    {
      assert n < |most| ==> s[n] == most[n];
    }
  }

  /** Nothing but whitespace goes, and none is left at either end. */
  lemma {:induction false} StrippedIsTheMiddle(s: string) returns (i: int, j: int)
    ensures Trims(s, i, j) && Stripped(s) == s[i..j]
  {
    if s != "" && IsSpace(s[0]) {
      i, j := StrippedIsTheMiddle(s[1..]);
      TrimsFirst(s, i, j);
      i, j := i + 1, j + 1;
    } else if s != "" && IsSpace(s[|s| - 1]) {
      i, j := StrippedIsTheMiddle(s[..|s| - 1]);
      TrimsLast(s, i, j);
    } else {
      i, j := 0, |s|;
    }
  }

  /** The threshold a part of a setting stands for, if float() reads it at all. */
  function ThresholdOf(part: string, read: string -> Option<real>): Option<int> {
    var text := Stripped(part);
    if text == "" || read(text).None? then None else Some(Truncated(read(text).value))
  }

  function Found(parts: seq<string>, read: string -> Option<real>): seq<int> {
    if parts == [] then []
    else
      var t := ThresholdOf(parts[|parts| - 1], read);
      Found(parts[..|parts| - 1], read) + if t.Some? then [t.value] else []
  }

  lemma {:induction false} FoundHolds(parts: seq<string>, read: string -> Option<real>)
    ensures forall t :: t in Found(parts, read) <==> exists part :: part in parts && ThresholdOf(part, read) == Some(t)
  {
    if parts != [] {
      var n := |parts| - 1;
      FoundHolds(parts[..n], read);
      assert forall part :: part in parts <==> part in parts[..n] || part == parts[n];
    }
  }

  /** parse_thresholds: the client's own setting, or the platform's; its readable parts, truncated, each
      once, in order. */
  method ParseThresholds(raw: Option<string>, defaultRaw: string, read: string -> Option<real>)
    returns (thresholds: seq<int>)
    ensures StrictlyAscending(thresholds)
    ensures var source := if raw.Some? && raw.value != "" then raw.value else defaultRaw;
            forall t :: t in thresholds <==> exists part :: part in SplitOn(source, ',') && ThresholdOf(part, read) == Some(t)
  {
    var source := if raw.Some? && raw.value != "" then raw.value else defaultRaw;
    var parts := SplitOn(source, ',');
    var found: seq<int> := [];
    for i := 0 to |parts|
      invariant found == Found(parts[..i], read)
    {
      assert parts[..i + 1][..i] == parts[..i];
      var text := Stripped(parts[i]);
      if text != "" {
        var value := read(text);
        if value.Some? {
          found := found + [Truncated(value.value)];
        }
      }
    }
    assert parts[..|parts|] == parts;
    FoundHolds(parts, read);
    SortedHolds(found);
    thresholds := Unique(Sorted(found));
  }

  lemma SortedHolds(s: seq<int>)
    ensures forall t :: t in Sorted(s) <==> t in s
  {
    assert forall t :: t in Sorted(s) <==> t in multiset(Sorted(s));
    assert forall t :: t in s <==> t in multiset(s);
  }

  /** The thresholds an observed percentage has reached. */
  function Reached(thresholds: seq<int>, percent: real): set<int> {
    set t | t in thresholds && percent >= t as real
  }

  // ---------- The tracker ----------

  datatype Key = Key(client: string, period: Period)

  datatype Reservation = Reservation(
    allowed: bool,
    reservedUsd: real,
    totalSpendUsd: real,
    cap: Option<real>,
    period: Period,
    crossed: seq<int>)

  function Spent<K>(spend: map<K, int>, k: K): int {
    if k in spend then spend[k] else 0
  }

  function Notified<K>(notified: map<K, set<int>>, k: K): set<int> {
    if k in notified then notified[k] else {}
  }

  function Percent(total: int, cap: real): real
    requires cap > 0.0
  {
    ToUsd(total) / cap * 100.0
  }

  /** A percentage of the cap, told in micro-dollars. */
  lemma PercentReaches(total: int, cap: real, t: int)
    requires cap > 0.0
    ensures Percent(total, cap) >= t as real <==> 100.0 * total as real >= t as real * cap * 1000000.0
  {
    var x, y := Percent(total, cap), t as real;
    assert x * (cap * 1000000.0) == 100.0 * total as real;
    Scales(x, y, cap * 1000000.0);
  }

  lemma Scales(x: real, y: real, scale: real)
    requires scale > 0.0
    ensures x >= y <==> x * scale >= y * scale
  {
    assert (x - y) * scale == x * scale - y * scale;
  }

  /** Which thresholds a call that saw `total` against `cap` owes an alert for: those it has come up to. */
  function Due(total: int, cap: Option<real>, thresholds: seq<int>): (due: set<int>)
    ensures forall t :: t in due <==>
              t in thresholds && cap.Some? && cap.value > 0.0 && 100.0 * total as real >= t as real * cap.value * 1000000.0
  {
    if cap.None? || cap.value <= 0.0 then {}
    else
      var due := Reached(thresholds, Percent(total, cap.value));
      assert forall t :: t in due <==> t in thresholds && 100.0 * total as real >= t as real * cap.value * 1000000.0 by {
        forall t | t in thresholds
          ensures Percent(total, cap.value) >= t as real <==> 100.0 * total as real >= t as real * cap.value * 1000000.0
        {
          PercentReaches(total, cap.value, t);
        }
      }
      due
  }

  /** BudgetTracker, its Redis counters and sets as fields; the period is the clock's. */
  class BudgetTracker {
    var spend: map<Key, int>
    var notified: map<Key, set<int>>

    constructor ()
      ensures spend == map[] && notified == map[]
    {
      spend, notified := map[], map[];
    }

    method Reserve(client: string, estimateUsd: real, cap: Option<real>, thresholds: seq<int>, period: Period)
      returns (r: Reservation)
      modifies this
      ensures var k, delta := Key(client, period), ToMicros(estimateUsd);
              var total := Spent(old(spend), k) + delta;
              // A million micro-dollars to the dollar of the cap.
              && (r.allowed <==> cap.None? || total as real <= 1000000.0 * cap.value)
              && r.reservedUsd == estimateUsd && r.cap == cap && r.period == period
              // A refused request leaves the counter where it found it.
              && Spent(spend, k) == (if r.allowed then total else Spent(old(spend), k))
              && (forall k' :: k' != k ==> Spent(spend, k') == Spent(old(spend), k'))
              && r.totalSpendUsd * 1000000.0 == total as real - (if r.allowed then 0.0 else estimateUsd * 1000000.0)
              && (r.allowed ==> Alerted(old(notified), notified, k, Due(total, cap, thresholds), r.crossed))
              && (!r.allowed ==> notified == old(notified) && r.crossed == [])
    {
      var k := Key(client, period);
      var delta := ToMicros(estimateUsd);
      spend := spend[k := Spent(spend, k) + delta];
      var totalMicros := spend[k];
      var total := ToUsd(totalMicros);
      if OverCap(totalMicros, cap) {
        spend := spend[k := spend[k] - delta];
        return Reservation(false, estimateUsd, total - estimateUsd, cap, period, []);
      }
      var crossed := CheckThresholds(k, totalMicros, cap, thresholds);
      r := Reservation(true, estimateUsd, total, cap, period, crossed);
    }

    /** The period is read afresh: it need not be the one reserved in. */
    method Settle(client: string, reservedUsd: real, actualUsd: real, cap: Option<real>, thresholds: seq<int>,
                  period: Period)
      returns (crossed: seq<int>)
      modifies this
      ensures var k := Key(client, period);
              var total := Spent(old(spend), k) + ToMicros(actualUsd) - ToMicros(reservedUsd);
              && Spent(spend, k) == total
              && (forall k' :: k' != k ==> Spent(spend, k') == Spent(old(spend), k'))
              && Alerted(old(notified), notified, k, Due(total, cap, thresholds), crossed)
    {
      var k := Key(client, period);
      var delta := ToMicros(actualUsd) - ToMicros(reservedUsd);
      var total := Spent(spend, k);
      if delta != 0 {
        total := total + delta;
        spend := spend[k := total];
      }
      crossed := CheckThresholds(k, total, cap, thresholds);
    }

    method CheckThresholds(k: Key, totalMicros: int, cap: Option<real>, thresholds: seq<int>)
      returns (crossed: seq<int>)
      modifies this`notified
      ensures Alerted(old(notified), notified, k, Due(totalMicros, cap, thresholds), crossed)
    {
      crossed := [];
      if cap.None? || cap.value <= 0.0 {
        return;
      }
      var percent := Percent(totalMicros, cap.value);
      var ordered := Sorted(thresholds);
      for i := 0 to |ordered|
        invariant Alerted(old(notified), notified, k, Reached(ordered[..i], percent), crossed)
        invariant forall c, j :: c in crossed && i <= j < |ordered| ==> c <= ordered[j]
      {
        var t := ordered[i];
        ReachedNext(ordered, i, percent);
        if percent >= t as real {
          AlertNext(old(notified), notified, k, Reached(ordered[..i], percent), crossed, t);
          if t !in Notified(notified, k) {
            notified := notified[k := Notified(notified, k) + {t}];
            crossed := crossed + [t];
          }
        }
      }
      assert ordered[..|ordered|] == ordered;
      ReachedSorted(thresholds, percent);
    }
  }

  /** `crossed` lists, in strictly rising order, exactly the due thresholds that had not
      been notified under `k`; they are notified now and nothing else has changed. */
  ghost predicate Alerted(before: map<Key, set<int>>, after: map<Key, set<int>>, k: Key, due: set<int>,
                          crossed: seq<int>)
  {
    && (forall i, j :: 0 <= i < j < |crossed| ==> crossed[i] < crossed[j])
    && (forall t :: t in crossed <==> t in due && t !in Notified(before, k))
    && Notified(after, k) == Notified(before, k) + due
    && (forall k' :: k' != k ==> Notified(after, k') == Notified(before, k'))
  }

  lemma ReachedSorted(thresholds: seq<int>, percent: real)
    ensures Reached(Sorted(thresholds), percent) == Reached(thresholds, percent)
  {
    SortedHolds(thresholds);
  }

  lemma ReachedNext(ordered: seq<int>, i: nat, percent: real)
    requires i < |ordered|
    ensures Reached(ordered[..i + 1], percent)
         == Reached(ordered[..i], percent) + (if percent >= ordered[i] as real then {ordered[i]} else {})
  {
    assert ordered[..i + 1] == ordered[..i] + [ordered[i]];
  }

  /** One SADD: a due threshold no smaller than those already crossed. */
  lemma AlertNext(before: map<Key, set<int>>, now: map<Key, set<int>>, k: Key, due: set<int>, crossed: seq<int>, t: int)
    requires Alerted(before, now, k, due, crossed)
    requires forall c :: c in crossed ==> c <= t
    ensures t in Notified(now, k) ==> Alerted(before, now, k, due + {t}, crossed)
    ensures t !in Notified(now, k) ==>
              Alerted(before, now[k := Notified(now, k) + {t}], k, due + {t}, crossed + [t])
  {
    if t in Notified(now, k) {
      assert forall c :: c in crossed <==> c in due + {t} && c !in Notified(before, k);
    } else {
      forall j | 0 <= j < |crossed|
        ensures crossed[j] < t
      {
        assert crossed[j] in crossed;
        assert crossed[j] in due;
        assert crossed[j] in Notified(now, k);
      }
    }
  }
}
