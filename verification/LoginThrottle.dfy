/** The budget for failed sign-ins (login_throttle.py): per key, a queue of failure times pruned
    from the front, against the whole history of failures. */
module LoginThrottle {
  import opened Common

  /** What retry_after comes to: budget left, seconds to wait, or the IndexError of an empty queue
      that is nonetheless at its maximum. */
  datatype Answer = HasBudget | Wait(seconds: int) | NoFirstFailure

  datatype Limits = Limits(maxFailures: int, windowSeconds: int)

  function Cutoff(l: Limits, now: real): real {
    now - l.windowSeconds as real
  }

  /** The front popped while it is out of the window. */
  function Pruned(hits: seq<real>, cutoff: real): seq<real> {
    if hits != [] && hits[0] <= cutoff then Pruned(hits[1..], cutoff) else hits
  }

  function AnswerFor(l: Limits, hits: seq<real>, now: real): Answer {
    if |hits| < l.maxFailures then HasBudget
    else if hits == [] then NoFirstFailure
    else Wait(Truncated(l.windowSeconds as real - (now - hits[0])) + 1)
  }

  function Hits(failures: map<string, seq<real>>, key: string): seq<real> {
    if key in failures then failures[key] else []
  }

  class LoginThrottle {
    const limits: Limits
    var failures: map<string, seq<real>>

    constructor (limits: Limits)
      ensures this.limits == limits && failures == map[]
    {
      this.limits := limits;
      failures := map[];
    }

    method Recent(key: string, now: real) returns (hits: seq<real>)
      modifies this
      ensures hits == Pruned(Hits(old(failures), key), Cutoff(limits, now))
      ensures failures == old(failures)[key := hits]
    {
      hits := Hits(failures, key);
      var cutoff := Cutoff(limits, now);
      while hits != [] && hits[0] <= cutoff
        invariant Pruned(hits, cutoff) == Pruned(Hits(old(failures), key), cutoff)
        decreases |hits|
      {
        hits := hits[1..];
      }
      failures := failures[key := hits];
    }

    method RetryAfter(key: string, now: real) returns (answer: Answer)
      modifies this
      ensures answer == AnswerFor(limits, Pruned(Hits(old(failures), key), Cutoff(limits, now)), now)
      ensures failures == old(failures)[key := Pruned(Hits(old(failures), key), Cutoff(limits, now))]
    {
      var hits := Recent(key, now);
      if |hits| < limits.maxFailures {
        return HasBudget;
      }
      if hits == [] {
        return NoFirstFailure;
      }
      answer := Wait(Truncated(limits.windowSeconds as real - (now - hits[0])) + 1);
    }

    method RecordFailure(key: string, now: real)
      modifies this
      ensures failures == old(failures)[key := Pruned(Hits(old(failures), key), Cutoff(limits, now)) + [now]]
    {
      var hits := Recent(key, now);
      failures := failures[key := hits + [now]];
    }

    method Clear(key: string)
      modifies this
      ensures failures == old(failures) - {key}
    {
      failures := failures - {key};
    }
  }

  // ---------- The queue is the window of the whole history ----------

  datatype Event = Asked(key: string, at: real) | Failed(key: string, at: real) | SignedIn(key: string, at: real)

  function Next(l: Limits, failures: map<string, seq<real>>, e: Event): map<string, seq<real>> {
    match e
    case Asked(key, at) => failures[key := Pruned(Hits(failures, key), Cutoff(l, at))]
    case Failed(key, at) => failures[key := Pruned(Hits(failures, key), Cutoff(l, at)) + [at]]
    case SignedIn(key, _) => failures - {key}
  }

  function Run(l: Limits, history: seq<Event>): map<string, seq<real>> {
    if history == [] then map[] else Next(l, Run(l, history[..|history| - 1]), history[|history| - 1])
  }

  /** Every failure of a key since it last signed in. */
  function FailuresOf(history: seq<Event>, key: string): seq<real> {
    if history == [] then []
    else
      var e := history[|history| - 1];
      var earlier := FailuresOf(history[..|history| - 1], key);
      if e.key != key || e.Asked? then earlier
      else if e.Failed? then earlier + [e.at]
      else []
  }

  /** Those of a list after the cutoff, wherever they stand in it. */
  function After(times: seq<real>, cutoff: real): seq<real> {
    if times == [] then []
    else After(times[..|times| - 1], cutoff) + if times[|times| - 1] > cutoff then [times[|times| - 1]] else []
  }

  predicate Ascending(times: seq<real>) {
    forall i, j :: 0 <= i < j < |times| ==> times[i] <= times[j]
  }

  predicate Monotone(history: seq<Event>) {
    forall i, j :: 0 <= i < j < |history| ==> history[i].at <= history[j].at
  }

  predicate Until(history: seq<Event>, now: real) {
    forall i :: 0 <= i < |history| ==> history[i].at <= now
  }

  lemma {:induction false} FailuresAscend(history: seq<Event>, key: string, now: real)
    requires Monotone(history) && Until(history, now)
    ensures Ascending(FailuresOf(history, key) + [now])
  {
    if history != [] {
      var n := |history| - 1;
      FailuresAscend(history[..n], key, history[n].at);
      var earlier := FailuresOf(history[..n], key);
      assert forall i :: 0 <= i < |earlier| ==> (earlier + [history[n].at])[i] == earlier[i];
      assert (earlier + [history[n].at])[|earlier|] == history[n].at;
    }
  }

  lemma {:induction false} AllAfter(times: seq<real>, cutoff: real)
    requires forall i :: 0 <= i < |times| ==> times[i] > cutoff
    ensures After(times, cutoff) == times
  {
    if times != [] {
      AllAfter(times[..|times| - 1], cutoff);
    }
  }

  lemma {:induction false} AfterDropsFirst(times: seq<real>, cutoff: real)
    requires times != [] && times[0] <= cutoff
    ensures After(times, cutoff) == After(times[1..], cutoff)
  {
    var n := |times| - 1;
    if n > 0 {
      assert times[..n][1..] == times[1..][..n - 1];
      AfterDropsFirst(times[..n], cutoff);
    }
  }

  /** On an ascending list popping from the front is filtering. */
  lemma {:induction false} PruningIsFiltering(times: seq<real>, cutoff: real)
    requires Ascending(times)
    ensures Pruned(times, cutoff) == After(times, cutoff)
    decreases times
  {
    if times != [] && times[0] <= cutoff {
      AfterDropsFirst(times, cutoff);
      PruningIsFiltering(times[1..], cutoff);
    } else {
      AllAfter(times, cutoff);
    }
  }

  lemma {:induction false} AfterTwice(times: seq<real>, earlier: real, later: real)
    requires earlier <= later
    ensures After(After(times, earlier), later) == After(times, later)
  {
    if times != [] {
      var n := |times| - 1;
      AfterTwice(times[..n], earlier, later);
      if times[n] > earlier {
        assert (After(times[..n], earlier) + [times[n]])[..|After(times[..n], earlier)|] == After(times[..n], earlier);
      } else {
        assert After(times, earlier) == After(times[..n], earlier);
      }
    }
  }

  lemma {:induction false} AfterAscends(times: seq<real>, cutoff: real)
    requires Ascending(times)
    ensures Ascending(After(times, cutoff))
    ensures forall t :: t in After(times, cutoff) ==> t in times && t > cutoff
  {
    if times != [] {
      var n := |times| - 1;
      AfterAscends(times[..n], cutoff);
      var earlier := After(times[..n], cutoff);
      forall i | 0 <= i < |earlier|
        ensures earlier[i] <= times[n]
      {
        assert earlier[i] in earlier;
        assert earlier[i] in times[..n];
      }
    }
  }

  lemma HitsAfter(l: Limits, failures: map<string, seq<real>>, e: Event, key: string)
    ensures Hits(Next(l, failures, e), key) ==
            if e.key != key then Hits(failures, key)
            else
              match e
              case Asked(_, at) => Pruned(Hits(failures, key), Cutoff(l, at))
              case Failed(_, at) => Pruned(Hits(failures, key), Cutoff(l, at)) + [at]
              case SignedIn(_, _) => []
  {
  }

  predicate UpTo(times: seq<real>, now: real) {
    Ascending(times) && forall i :: 0 <= i < |times| ==> times[i] <= now
  }

  /** A queue that stands for `all` at some time does so at any later one. */
  lemma StandsLater(l: Limits, queue: seq<real>, all: seq<real>, at: real, now: real)
    requires UpTo(queue, at) && UpTo(all, at) && at <= now
    requires Pruned(queue, Cutoff(l, at)) == After(all, Cutoff(l, at))
    ensures Pruned(queue, Cutoff(l, now)) == After(all, Cutoff(l, now))
  {
    PruningIsFiltering(queue, Cutoff(l, at));
    PruningIsFiltering(queue, Cutoff(l, now));
    AfterTwice(queue, Cutoff(l, at), Cutoff(l, now));
    AfterTwice(all, Cutoff(l, at), Cutoff(l, now));
  }

  lemma PruningTwice(l: Limits, queue: seq<real>, at: real, now: real)
    requires UpTo(queue, at) && at <= now
    ensures UpTo(Pruned(queue, Cutoff(l, at)), at)
    ensures Pruned(Pruned(queue, Cutoff(l, at)), Cutoff(l, now)) == Pruned(queue, Cutoff(l, now))
  {
    PruningIsFiltering(queue, Cutoff(l, at));
    AfterAscends(queue, Cutoff(l, at));
    var kept := After(queue, Cutoff(l, at));
    assert forall i :: 0 <= i < |kept| ==> kept[i] in kept;
    PruningIsFiltering(queue, Cutoff(l, now));
    PruningIsFiltering(kept, Cutoff(l, now));
    AfterTwice(queue, Cutoff(l, at), Cutoff(l, now));
  }

  lemma AfterAppend(times: seq<real>, t: real, cutoff: real)
    ensures After(times + [t], cutoff) == After(times, cutoff) + if t > cutoff then [t] else []
  {
    assert (times + [t])[..|times|] == times;
  }

  lemma UpToAppend(times: seq<real>, at: real)
    requires UpTo(times, at)
    ensures UpTo(times + [at], at)
  {
    forall i, j | 0 <= i < j < |times| + 1
      ensures (times + [at])[i] <= (times + [at])[j]
    {
      assert i < |times|;
    }
  }

  lemma RecordedStands(l: Limits, kept: seq<real>, all: seq<real>, at: real, now: real)
    requires UpTo(kept, at) && Pruned(kept, Cutoff(l, now)) == After(all, Cutoff(l, now))
    ensures UpTo(kept + [at], at)
    ensures Pruned(kept + [at], Cutoff(l, now)) == After(all + [at], Cutoff(l, now))
  {
    UpToAppend(kept, at);
    AppendPruned(kept, all, at, Cutoff(l, now));
  }

  lemma AppendPruned(kept: seq<real>, all: seq<real>, at: real, cutoff: real)
    requires Ascending(kept) && Ascending(kept + [at]) && Pruned(kept, cutoff) == After(all, cutoff)
    ensures Pruned(kept + [at], cutoff) == After(all + [at], cutoff)
  {
    PruningIsFiltering(kept, cutoff);
    PruningIsFiltering(kept + [at], cutoff);
    AfterAppend(kept, at, cutoff);
    AfterAppend(all, at, cutoff);
  }

  /** Whatever was popped before, the queue as it stands at any later moment is the key's whole
      history since it last signed in, cut to the window. */
  lemma {:induction false} QueueIsTheWindow(l: Limits, history: seq<Event>, key: string, now: real)
    requires Monotone(history) && Until(history, now)
    ensures Pruned(Hits(Run(l, history), key), Cutoff(l, now)) == After(FailuresOf(history, key), Cutoff(l, now))
    ensures UpTo(Hits(Run(l, history), key), now) && UpTo(FailuresOf(history, key), now)
  {
    if history != [] {
      var n := |history| - 1;
      QueueIsTheWindow(l, history[..n], key, history[n].at);
      HitsAfter(l, Run(l, history[..n]), history[n], key);
      QueueStep(l, Hits(Run(l, history[..n]), key), FailuresOf(history[..n], key), history[n], key, now);
    }
  }

  /** Budget while fewer than the maximum fall in the window that ends now, and else a wait until the first of
      them is out of it, within a second. */
  predicate ToldBy(l: Limits, inWindow: seq<real>, answer: Answer, now: real) {
    match answer
    case HasBudget => |inWindow| < l.maxFailures
    case NoFirstFailure => inWindow == [] && l.maxFailures <= 0
    case Wait(seconds) =>
      && inWindow != [] && |inWindow| >= l.maxFailures
      && (seconds - 1) as real <= inWindow[0] + l.windowSeconds as real - now < seconds as real
  }

  /** So what a check answers is told by the failures themselves. */
  lemma AnswerIsOfTheWindow(l: Limits, history: seq<Event>, key: string, now: real)
    requires Monotone(history) && Until(history, now)
    ensures ToldBy(l, After(FailuresOf(history, key), now - l.windowSeconds as real),
                   AnswerFor(l, Pruned(Hits(Run(l, history), key), Cutoff(l, now)), now), now)
  {
    QueueIsTheWindow(l, history, key, now);
    AnswerOfFailures(l, FailuresOf(history, key), Hits(Run(l, history), key), now);
  }

  lemma AnswerOfFailures(l: Limits, all: seq<real>, queue: seq<real>, now: real)
    requires Pruned(queue, Cutoff(l, now)) == After(all, Cutoff(l, now))
    ensures ToldBy(l, After(all, now - l.windowSeconds as real), AnswerFor(l, Pruned(queue, Cutoff(l, now)), now), now)
  {
    AfterBeginsAfter(all, Cutoff(l, now));
    AnswerOfQueue(l, After(all, Cutoff(l, now)), now);
  }

  lemma AnswerOfQueue(l: Limits, hits: seq<real>, now: real)
    requires hits != [] ==> hits[0] > now - l.windowSeconds as real
    ensures ToldBy(l, hits, AnswerFor(l, hits, now), now)
  {
  }

  lemma {:induction false} AfterBeginsAfter(times: seq<real>, cutoff: real)
    ensures After(times, cutoff) != [] ==> After(times, cutoff)[0] > cutoff
  {
    if times != [] {
      AfterBeginsAfter(times[..|times| - 1], cutoff);
    }
  }

  lemma QueueStep(l: Limits, was: seq<real>, all: seq<real>, e: Event, key: string, now: real)
    requires UpTo(was, e.at) && UpTo(all, e.at) && e.at <= now
    requires Pruned(was, Cutoff(l, e.at)) == After(all, Cutoff(l, e.at))
    ensures Pruned(was, Cutoff(l, now)) == After(all, Cutoff(l, now))
    ensures var kept := Pruned(was, Cutoff(l, e.at));
            && UpTo(kept, e.at) && UpTo(kept + [e.at], e.at) && UpTo(all + [e.at], e.at)
            && Pruned(kept, Cutoff(l, now)) == After(all, Cutoff(l, now))
            && Pruned(kept + [e.at], Cutoff(l, now)) == After(all + [e.at], Cutoff(l, now))
  {
    StandsLater(l, was, all, e.at, now);
    PruningTwice(l, was, e.at, now);
    RecordedStands(l, Pruned(was, Cutoff(l, e.at)), all, e.at, now);
  }

  // ---------- The budget ----------

  /** Each failure of the key was let through by a check made at its own moment. */
  ghost predicate Heeded(l: Limits, history: seq<Event>, key: string) {
    forall i :: 0 <= i < |history| && history[i].Failed? && history[i].key == key ==>
      AnswerFor(l, Pruned(Hits(Run(l, history[..i]), key), Cutoff(l, history[i].at)), history[i].at) == HasBudget
  }

  /** Any failure and the one `maxFailures` later are a window apart. */
  predicate Spread(l: Limits, times: seq<real>) {
    forall i, j :: 0 <= i < j < |times| && j - i >= l.maxFailures ==>
      times[j] - times[i] >= l.windowSeconds as real
  }

  /** After the cutoff only what stands last of an ascending list. */
  lemma {:induction false} AfterIsATail(times: seq<real>, cutoff: real, i: nat)
    requires Ascending(times) && i < |times| && times[i] > cutoff
    ensures |After(times, cutoff)| >= |times| - i
  {
    var n := |times| - 1;
    if i < n {
      AfterIsATail(times[..n], cutoff, i);
    }
  }

  lemma SpreadStays(l: Limits, times: seq<real>, at: real)
    requires UpTo(times, at) && Spread(l, times) && |After(times, Cutoff(l, at))| < l.maxFailures
    ensures Spread(l, times + [at])
  {
    var n := |times|;
    forall i | 0 <= i < n && n - i >= l.maxFailures
      ensures times[i] <= Cutoff(l, at)
    {
      if times[i] > Cutoff(l, at) {
        AfterIsATail(times, Cutoff(l, at), i);
      }
    }
  }

  /** A key whose every failure was checked first never has more than its budget of them in any
      window, since it last signed in. */
  lemma {:induction false} FailuresAreSpread(l: Limits, history: seq<Event>, key: string)
    requires Monotone(history) && Heeded(l, history, key)
    ensures Spread(l, FailuresOf(history, key))
  {
    if history != [] {
      var n := |history| - 1;
      HeededBefore(l, history, key);
      FailuresAreSpread(l, history[..n], key);
      LastIsSpread(l, history, key);
    }
  }

  lemma LastIsSpread(l: Limits, history: seq<Event>, key: string)
    requires history != [] && Monotone(history) && Spread(l, FailuresOf(history[..|history| - 1], key))
    requires var e := history[|history| - 1];
             e.Failed? && e.key == key ==>
               |Pruned(Hits(Run(l, history[..|history| - 1]), key), Cutoff(l, e.at))| < l.maxFailures
    ensures Spread(l, FailuresOf(history, key))
  {
    var n := |history| - 1;
    var e := history[n];
    if e.Failed? && e.key == key {
      QueueIsTheWindow(l, history[..n], key, e.at);
      SpreadStays(l, FailuresOf(history[..n], key), e.at);
    }
  }

  lemma HeededBefore(l: Limits, history: seq<Event>, key: string)
    requires history != [] && Heeded(l, history, key)
    ensures Heeded(l, history[..|history| - 1], key)
    ensures var n := |history| - 1;
            var e := history[n];
            e.Failed? && e.key == key ==>
              |Pruned(Hits(Run(l, history[..n]), key), Cutoff(l, e.at))| < l.maxFailures
  {
    var n := |history| - 1;
    assert forall i :: 0 <= i < n ==> history[..n][..i] == history[..i] && history[..n][i] == history[i];
  }

  lemma {:induction false} NothingAfter(times: seq<real>, cutoff: real)
    requires forall i :: 0 <= i < |times| ==> times[i] <= cutoff
    ensures After(times, cutoff) == []
  {
    if times != [] {
      NothingAfter(times[..|times| - 1], cutoff);
    }
  }

  /** After the cutoff nothing that stands at or before one that is not. */
  lemma {:induction false} AtMostAfter(times: seq<real>, cutoff: real, i: nat)
    requires Ascending(times) && i < |times| && times[i] <= cutoff
    ensures |After(times, cutoff)| <= |times| - 1 - i
  {
    var n := |times| - 1;
    if i < n {
      AtMostAfter(times[..n], cutoff, i);
    } else {
      NothingAfter(times, cutoff);
    }
  }

  lemma SpreadHadBudget(l: Limits, times: seq<real>, at: real)
    requires UpTo(times, at) && l.maxFailures >= 1 && Spread(l, times + [at])
    ensures |After(times, Cutoff(l, at))| < l.maxFailures
  {
    if |times| >= l.maxFailures {
      var i := |times| - l.maxFailures;
      assert (times + [at])[i] == times[i] && (times + [at])[|times|] == at;
      AtMostAfter(times, Cutoff(l, at), i);
    } else {
      AfterIsShorter(times, Cutoff(l, at));
    }
  }

  lemma {:induction false} AfterIsShorter(times: seq<real>, cutoff: real)
    ensures |After(times, cutoff)| <= |times|
  {
    if times != [] {
      AfterIsShorter(times[..|times| - 1], cutoff);
    }
  }

  /** At every moment of the history the key's failures, since it last signed in, fit their budget. */
  ghost predicate AlwaysSpread(l: Limits, history: seq<Event>, key: string) {
    forall n :: 0 <= n <= |history| ==> Spread(l, FailuresOf(history[..n], key))
  }

  lemma MonotoneBefore(history: seq<Event>, n: nat)
    requires Monotone(history) && n < |history|
    ensures Monotone(history[..n]) && Until(history[..n], history[n].at)
  {
  }

  lemma SpreadIsHeededAt(l: Limits, history: seq<Event>, key: string, i: nat)
    requires Monotone(history) && l.maxFailures >= 1 && i < |history| && history[i].Failed? && history[i].key == key
    requires Spread(l, FailuresOf(history[..i + 1], key))
    ensures |Pruned(Hits(Run(l, history[..i]), key), Cutoff(l, history[i].at))| < l.maxFailures
  {
    var at := history[i].at;
    MonotoneBefore(history, i);
    QueueIsTheWindow(l, history[..i], key, at);
    assert history[..i + 1][..i] == history[..i];
    assert FailuresOf(history[..i + 1], key) == FailuresOf(history[..i], key) + [at];
    SpreadHadBudget(l, FailuresOf(history[..i], key), at);
  }

  /** The budget is kept at every moment exactly if every failure was let through by a check that would
      have said so at its own moment. */
  lemma BudgetKeptIffHeeded(l: Limits, history: seq<Event>, key: string)
    requires Monotone(history) && l.maxFailures >= 1
    ensures Heeded(l, history, key) <==> AlwaysSpread(l, history, key)
  {
    if Heeded(l, history, key) {
      forall n | 0 <= n <= |history|
        ensures Spread(l, FailuresOf(history[..n], key))
      {
        HeededUpTo(l, history, key, n);
        FailuresAreSpread(l, history[..n], key);
      }
    }
    if AlwaysSpread(l, history, key) {
      forall i | 0 <= i < |history| && history[i].Failed? && history[i].key == key
        ensures AnswerFor(l, Pruned(Hits(Run(l, history[..i]), key), Cutoff(l, history[i].at)), history[i].at) == HasBudget
      {
        SpreadIsHeededAt(l, history, key, i);
      }
    }
  }

  lemma HeededUpTo(l: Limits, history: seq<Event>, key: string, n: nat)
    requires Heeded(l, history, key) && Monotone(history) && n <= |history|
    ensures Heeded(l, history[..n], key) && Monotone(history[..n])
  {
    assert forall i :: 0 <= i < n ==> history[..n][..i] == history[..i] && history[..n][i] == history[i];
  }

  // ---------- Check, then record ----------

  predicate FailureOf(e: Event, key: string) {
    e.Failed? && e.key == key
  }

  /** What a check finds at the j-th event's moment, whenever it was made. */
  function FoundAt(l: Limits, history: seq<Event>, key: string, j: nat): Answer
    requires j < |history|
  {
    AnswerFor(l, Pruned(Hits(Run(l, history[..j]), key), Cutoff(l, history[j].at)), history[j].at)
  }

  /** The j-th event is a check that found budget, and the i-th the next failure after it. */
  predicate LetThrough(l: Limits, history: seq<Event>, key: string, j: nat, i: nat)
    requires j < i < |history|
  {
    && history[j].Asked? && history[j].key == key && FoundAt(l, history, key, j) == HasBudget
    && forall n :: j < n < i ==> !FailureOf(history[n], key)
  }

  /** Each failure of the key follows a check of its own that found budget, however long the credentials
      took to look at, with no other failure of the key recorded in between. */
  ghost predicate Sequential(l: Limits, history: seq<Event>, key: string) {
    forall i :: 0 <= i < |history| && FailureOf(history[i], key) ==>
      exists j :: 0 <= j < i && LetThrough(l, history, key, j, i)
  }

  /** Short of a failure the queue never grows. */
  lemma {:induction false} QueueOnlyShrinks(l: Limits, history: seq<Event>, key: string, j: nat, n: nat)
    requires j < n <= |history| && history[j].Asked? && history[j].key == key
    requires forall m :: j < m < n ==> !FailureOf(history[m], key)
    ensures |Hits(Run(l, history[..n]), key)| <= |Pruned(Hits(Run(l, history[..j]), key), Cutoff(l, history[j].at))|
  {
    assert history[..n][..n - 1] == history[..n - 1];
    if j < n - 1 {
      QueueOnlyShrinks(l, history, key, j, n - 1);
      QueueShrinks(l, Run(l, history[..n - 1]), history[n - 1], key);
    } else {
      HitsAfter(l, Run(l, history[..j]), history[j], key);
    }
  }

  lemma QueueShrinks(l: Limits, failures: map<string, seq<real>>, e: Event, key: string)
    requires !FailureOf(e, key)
    ensures |Hits(Next(l, failures, e), key)| <= |Hits(failures, key)|
  {
    HitsAfter(l, failures, e, key);
    PrunedShrinks(Hits(failures, key), Cutoff(l, e.at));
  }

  /** So a check made before the credentials were looked at is as good as one made when the failure is
      recorded. */
  lemma SequentialIsHeeded(l: Limits, history: seq<Event>, key: string)
    requires Sequential(l, history, key)
    ensures Heeded(l, history, key)
  {
    forall i | 0 <= i < |history| && history[i].Failed? && history[i].key == key
      ensures FoundAt(l, history, key, i) == HasBudget
    {
      assert FailureOf(history[i], key);
      var j :| 0 <= j < i && LetThrough(l, history, key, j, i);
      QueueOnlyShrinks(l, history, key, j, i);
      PrunedShrinks(Hits(Run(l, history[..i]), key), Cutoff(l, history[i].at));
    }
  }

  /** Where every attempt is checked, tried and recorded before the next of its key fails, the budget is
      kept at every moment. */
  lemma CheckThenRecordKeepsBudget(l: Limits, history: seq<Event>, key: string)
    requires Monotone(history) && Sequential(l, history, key) && l.maxFailures >= 1
    ensures AlwaysSpread(l, history, key)
  {
    SequentialIsHeeded(l, history, key);
    BudgetKeptIffHeeded(l, history, key);
  }

  function CountBetween(times: seq<real>, from: real, until: real): nat {
    if times == [] then 0
    else CountBetween(times[..|times| - 1], from, until) + if from < times[|times| - 1] <= until then 1 else 0
  }

  /** Which is to say: however the window is laid. */
  lemma {:induction false} SpreadFitsEveryWindow(l: Limits, times: seq<real>, until: real)
    requires Spread(l, times) && Ascending(times) && l.maxFailures >= 1
    ensures CountBetween(times, until - l.windowSeconds as real, until) <= l.maxFailures
  {
    if times != [] {
      var n := |times| - 1;
      SpreadFitsEveryWindow(l, times[..n], until);
      if Cutoff(l, until) < times[n] <= until {
        if n >= l.maxFailures {
          FewAfter(times[..n], n - l.maxFailures, Cutoff(l, until), until);
        } else {
          CountIsSmall(times[..n], Cutoff(l, until), until);
        }
      }
    }
  }

  lemma {:induction false} CountIsSmall(times: seq<real>, from: real, until: real)
    ensures CountBetween(times, from, until) <= |times|
  {
    if times != [] {
      CountIsSmall(times[..|times| - 1], from, until);
    }
  }

  lemma {:induction false} FewAfter(times: seq<real>, i: nat, from: real, until: real)
    requires Ascending(times) && i < |times| && times[i] <= from
    ensures CountBetween(times, from, until) <= |times| - 1 - i
  {
    var n := |times| - 1;
    if i < n {
      FewAfter(times[..n], i, from, until);
    } else {
      NoneAfter(times, from, until);
    }
  }

  lemma {:induction false} NoneAfter(times: seq<real>, from: real, until: real)
    requires forall i :: 0 <= i < |times| ==> times[i] <= from
    ensures CountBetween(times, from, until) == 0
  {
    if times != [] {
      NoneAfter(times[..|times| - 1], from, until);
    }
  }

  // ---------- Waiting ----------

  lemma {:induction false} PrunedLength(times: seq<real>, cutoff: real, most: nat)
    requires Ascending(times) && |times| > most
    ensures |Pruned(times, cutoff)| <= most <==> times[|times| - 1 - most] <= cutoff
    decreases times
  {
    if times[0] <= cutoff && |times| - 1 > most {
      PrunedLength(times[1..], cutoff, most);
    } else if times[0] <= cutoff {
      assert |Pruned(times[1..], cutoff)| <= |times[1..]| by { PrunedShrinks(times[1..], cutoff); }
    }
  }

  lemma {:induction false} PrunedShrinks(times: seq<real>, cutoff: real)
    ensures |Pruned(times, cutoff)| <= |times|
    decreases times
  {
    if times != [] && times[0] <= cutoff {
      PrunedShrinks(times[1..], cutoff);
    }
  }

  /** Waiting as told gives budget back exactly when the failure that has to go is out of the window
      by then: always, when the queue holds just its maximum. The wait is at most a second too long. */
  lemma WaitingRestoresIff(l: Limits, hits: seq<real>, now: real)
    requires UpTo(hits, now) && |hits| >= l.maxFailures >= 1
    requires hits[0] > Cutoff(l, now)
    ensures var answer := AnswerFor(l, hits, now);
            && answer.Wait?
            && var later := now + answer.seconds as real;
               var needed := hits[0] + l.windowSeconds as real - now;
            && needed < answer.seconds as real <= needed + 1.0
            && (AnswerFor(l, Pruned(hits, Cutoff(l, later)), later) == HasBudget
                <==> hits[|hits| - l.maxFailures] <= Cutoff(l, later))
            && (|hits| == l.maxFailures ==> AnswerFor(l, Pruned(hits, Cutoff(l, later)), later) == HasBudget)
  {
    var answer := AnswerFor(l, hits, now);
    PrunedLength(hits, Cutoff(l, now + answer.seconds as real), l.maxFailures - 1);
  }

  /** And no shorter wait does, while the queue holds just its maximum. */
  lemma NoShorterWaitRestores(l: Limits, hits: seq<real>, now: real, later: real)
    requires UpTo(hits, now) && |hits| == l.maxFailures >= 1 && now <= later
    requires later < hits[0] + l.windowSeconds as real
    ensures AnswerFor(l, Pruned(hits, Cutoff(l, later)), later).Wait?
  {
  }

  lemma {:induction false} CountIsAfter(times: seq<real>, cutoff: real, now: real)
    requires forall i :: 0 <= i < |times| ==> times[i] <= now
    ensures CountBetween(times, cutoff, now) == |After(times, cutoff)|
  {
    if times != [] {
      CountIsAfter(times[..|times| - 1], cutoff, now);
    }
  }

  predicate ComesBackToBudget(l: Limits, hits: seq<real>, now: real) {
    var answer := AnswerFor(l, hits, now);
    answer.Wait? ==>
      var later := now + answer.seconds as real;
      AnswerFor(l, Pruned(hits, Cutoff(l, later)), later) == HasBudget
  }

  lemma FullQueueComesBack(l: Limits, hits: seq<real>, now: real)
    requires UpTo(hits, now) && |hits| <= l.maxFailures && l.maxFailures >= 1
    requires forall i :: 0 <= i < |hits| ==> hits[i] > Cutoff(l, now)
    ensures ComesBackToBudget(l, hits, now)
  {
    if |hits| == l.maxFailures {
      WaitingRestoresIff(l, hits, now);
    }
  }

  /** Where every failure was checked first the queue never holds more than its maximum, so a caller
      told to wait always has budget on coming back. */
  lemma HeededWaitsRestore(l: Limits, history: seq<Event>, key: string, now: real)
    requires Monotone(history) && Until(history, now) && Heeded(l, history, key) && l.maxFailures >= 1
    ensures var hits := Pruned(Hits(Run(l, history), key), Cutoff(l, now));
            |hits| <= l.maxFailures && ComesBackToBudget(l, hits, now)
  {
    QueueIsTheWindow(l, history, key, now);
    FailuresAreSpread(l, history, key);
    var queue := Hits(Run(l, history), key);
    QueueFits(l, FailuresOf(history, key), queue, now);
    FullQueueComesBack(l, Pruned(queue, Cutoff(l, now)), now);
  }

  /** And so where attempts are checked, tried and recorded one after another. */
  lemma CheckThenRecordWaitsRestore(l: Limits, history: seq<Event>, key: string, now: real)
    requires Monotone(history) && Until(history, now) && Sequential(l, history, key) && l.maxFailures >= 1
    ensures var hits := Pruned(Hits(Run(l, history), key), Cutoff(l, now));
            |hits| <= l.maxFailures && ComesBackToBudget(l, hits, now)
  {
    SequentialIsHeeded(l, history, key);
    HeededWaitsRestore(l, history, key, now);
  }

  lemma QueueFits(l: Limits, all: seq<real>, queue: seq<real>, now: real)
    requires UpTo(all, now) && UpTo(queue, now) && Spread(l, all) && l.maxFailures >= 1
    requires Pruned(queue, Cutoff(l, now)) == After(all, Cutoff(l, now))
    ensures var hits := Pruned(queue, Cutoff(l, now));
            |hits| <= l.maxFailures && UpTo(hits, now) && forall i :: 0 <= i < |hits| ==> hits[i] > Cutoff(l, now)
  {
    SpreadFitsEveryWindow(l, all, now);
    CountIsAfter(all, Cutoff(l, now), now);
    WithinIsUpTo(all, Cutoff(l, now), now);
  }

  lemma WithinIsUpTo(all: seq<real>, cutoff: real, now: real)
    requires UpTo(all, now)
    ensures UpTo(After(all, cutoff), now) && forall i :: 0 <= i < |After(all, cutoff)| ==> After(all, cutoff)[i] > cutoff
  {
    AfterAscends(all, cutoff);
    var hits := After(all, cutoff);
    assert forall i :: 0 <= i < |hits| ==> hits[i] in hits;
  }

  /** A maximum of nought refuses a key that never failed, by an error. */
  lemma NoBudgetAtAll(l: Limits, now: real)
    requires l.maxFailures <= 0
    ensures AnswerFor(l, Pruned([], Cutoff(l, now)), now) == NoFirstFailure
  {
  }

  // ---------- Overlapping attempts ----------

  function Repeated(e: Event, n: nat): seq<Event> {
    if n == 0 then [] else Repeated(e, n - 1) + [e]
  }

  lemma {:induction false} AsksLeaveNothing(l: Limits, key: string, now: real, n: nat)
    ensures Hits(Run(l, Repeated(Asked(key, now), n)), key) == [] && FailuresOf(Repeated(Asked(key, now), n), key) == []
  {
    if n > 0 {
      AsksLeaveNothing(l, key, now, n - 1);
      assert (Repeated(Asked(key, now), n - 1) + [Asked(key, now)])[..|Repeated(Asked(key, now), n - 1)|]
          == Repeated(Asked(key, now), n - 1);
    }
  }

  lemma FailuresAppend(history: seq<Event>, key: string, now: real)
    ensures FailuresOf(history + [Failed(key, now)], key) == FailuresOf(history, key) + [now]
  {
    assert (history + [Failed(key, now)])[..|history|] == history;
  }

  function Times(now: real, n: nat): (times: seq<real>)
    ensures |times| == n && forall i :: 0 <= i < n ==> times[i] == now
  {
    if n == 0 then [] else Times(now, n - 1) + [now]
  }

  lemma RepeatedOnceMore(before: seq<Event>, e: Event, n: nat)
    requires n > 0
    ensures before + Repeated(e, n) == before + Repeated(e, n - 1) + [e]
  {
  }

  lemma {:induction false} FailuresAllCount(key: string, now: real, before: seq<Event>, n: nat)
    requires FailuresOf(before, key) == []
    ensures FailuresOf(before + Repeated(Failed(key, now), n), key) == Times(now, n)
  {
    if n > 0 {
      FailuresAllCount(key, now, before, n - 1);
      FailuresAppend(before + Repeated(Failed(key, now), n - 1), key, now);
      RepeatedOnceMore(before, Failed(key, now), n);
    } else {
      assert before + [] == before;
    }
  }

  /** One attempt more than the budget, all checked before any is recorded: each check finds budget,
      and the failures that follow are too many for any window they fit in. */
  lemma OverlappingAttemptsOvershoot(l: Limits, key: string, now: real)
    requires l.maxFailures >= 1 && l.windowSeconds > 0
    ensures var asks := Repeated(Asked(key, now), l.maxFailures + 1);
            var history := asks + Repeated(Failed(key, now), l.maxFailures + 1);
            && (forall n: nat :: n <= l.maxFailures ==>
                  AnswerFor(l, Pruned(Hits(Run(l, Repeated(Asked(key, now), n)), key), Cutoff(l, now)), now) == HasBudget)
            && !Spread(l, FailuresOf(history, key))
  {
    var asks := Repeated(Asked(key, now), l.maxFailures + 1);
    forall n: nat | n <= l.maxFailures
      ensures AnswerFor(l, Pruned(Hits(Run(l, Repeated(Asked(key, now), n)), key), Cutoff(l, now)), now) == HasBudget
    {
      AsksLeaveNothing(l, key, now, n);
    }
    AsksLeaveNothing(l, key, now, l.maxFailures + 1);
    FailuresAllCount(key, now, asks, l.maxFailures + 1);
    TooManyAtOnce(l, now);
  }

  lemma TooManyAtOnce(l: Limits, now: real)
    requires l.maxFailures >= 1 && l.windowSeconds > 0
    ensures !Spread(l, Times(now, l.maxFailures + 1))
  {
    var times := Times(now, l.maxFailures + 1);
    assert times[0] > Cutoff(l, times[l.maxFailures]);
  }
}
