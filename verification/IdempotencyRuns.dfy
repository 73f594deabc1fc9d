/** Any number of requests asking for keys, settling their claims and letting time pass, where
    begin is a read, a delete and an insert that others may come between. */
module IdempotencyRuns {
  import opened Common
  import opened Idempotency

  datatype Fate = Live | Stored(status: int, body: Option<string>) | Released

  /** A request that was told to proceed. */
  datatype Claim = Claim(key: Key, fingerprint: Fingerprint, at: real, fate: Fate)

  /** A row, with the claim that inserted it. */
  datatype Held = Held(row: Row, owner: nat)

  datatype Stage = ToDelete | ToInsert | Told(outcome: Outcome)

  datatype Attempt = Attempt(key: Key, fingerprint: Fingerprint, stage: Stage)

  datatype State = State(now: real, table: map<Key, Held>, claims: seq<Claim>, attempts: seq<Attempt>)

  datatype Action =
    | Read(key: Key, fingerprint: Fingerprint)    // begin: look the key up
    | Delete(attempt: nat)                        // begin: drop the expired row it saw
    | Insert(attempt: nat)                        // begin: claim the key, or lose to another
    | Complete(claim: nat, status: int, serialised: Option<string>)
    | Release(claim: nat)
    | Purge
    | Pass(seconds: real)

  const INITIAL := State(0.0, map[], [], [])

  predicate Enabled(s: State, a: Action) {
    match a
    case Read(k, _) => |k.name| <= MAX_KEY_LENGTH
    case Delete(i) => i < |s.attempts| && s.attempts[i].stage == ToDelete
    case Insert(i) => i < |s.attempts| && s.attempts[i].stage == ToInsert
    case Complete(c, _, _) => c < |s.claims| && s.claims[c].fate == Live
    case Release(c) => c < |s.claims| && s.claims[c].fate == Live
    case Purge => true
    case Pass(d) => d >= 0.0
  }

  function Next(s: State, a: Action): State {
    if !Enabled(s, a) then s
    else
      match a
      case Read(k, want) =>
        var stage :=
          if k !in s.table then ToInsert
          else if Expired(s.table[k].row, s.now) then ToDelete
          else Told(Answer(s.table[k].row, want, None, s.now));
        s.(attempts := s.attempts + [Attempt(k, want, stage)])
      case Delete(i) =>
        var t := s.attempts[i];
        s.(table := s.table - {t.key}, attempts := s.attempts[i := t.(stage := ToInsert)])
      case Insert(i) =>
        var t := s.attempts[i];
        if t.key in s.table then s.(attempts := s.attempts[i := t.(stage := Told(InProgress(None)))])
        else
          s.(table := s.table[t.key := Held(Inserted(t.fingerprint, s.now), |s.claims|)],
             claims := s.claims + [Claim(t.key, t.fingerprint, s.now, Live)],
             attempts := s.attempts[i := t.(stage := Told(Claimed))])
      case Complete(c, status, serialised) =>
        var k := s.claims[c].key;
        s.(table := if k !in s.table then s.table
                    else s.table[k := s.table[k].(row := Completed(s.table[k].row, status, serialised, None))],
           claims := s.claims[c := s.claims[c].(fate := Stored(status, Retained(serialised)))])
      case Release(c) =>
        var k := s.claims[c].key;
        s.(table := if k in s.table && !s.table[k].row.completed then s.table - {k} else s.table,
           claims := s.claims[c := s.claims[c].(fate := Released)])
      case Purge => s.(table := map k | k in s.table && !Expired(s.table[k].row, s.now) :: s.table[k])
      case Pass(d) => s.(now := s.now + d)
  }

  function Run(acts: seq<Action>): State {
    if acts == [] then INITIAL else Next(Run(acts[..|acts| - 1]), acts[|acts| - 1])
  }

  lemma RunOneMore(acts: seq<Action>, a: Action)
    ensures Run(acts + [a]) == Next(Run(acts), a)
  {
    assert (acts + [a])[..|acts|] == acts;
  }

  // ---------- What the table is meant to say ----------

  /** A row is its owner's: in progress while the claim lives, then what the claim stored. */
  predicate Owned(s: State, k: Key) {
    k in s.table ==>
      var h := s.table[k];
      && h.owner < |s.claims|
      && s.claims[h.owner].key == k
      && s.claims[h.owner].fingerprint == h.row.fingerprint
      && s.claims[h.owner].at == h.row.createdAt
      && (!h.row.completed ==> s.claims[h.owner].fate == Live)
      && (h.row.completed ==> h.row.status.Some? && s.claims[h.owner].fate == Stored(h.row.status.value, h.row.body))
  }

  predicate Holds(s: State, c: nat)
    requires c < |s.claims|
  {
    s.claims[c].key in s.table && s.table[s.claims[c].key].owner == c
  }

  ghost predicate RowsOwned(s: State) {
    forall k :: k in s.table ==> Owned(s, k)
  }

  /** A live claim holds its key, and a stored result is there for the whole window. */
  predicate Entitled(s: State, c: nat)
    requires c < |s.claims|
  {
    var claim := s.claims[c];
    claim.fate == Live || (claim.fate.Stored? && claim.at >= s.now - WINDOW)
  }

  predicate ClaimsHold(s: State) {
    forall c :: 0 <= c < |s.claims| && Entitled(s, c) ==> Holds(s, c)
  }

  /** A key is claimed again within the window only after a release. */
  predicate RepeatsReleased(s: State) {
    forall c, d :: 0 <= c < d < |s.claims| && Repeats(s.claims[c], s.claims[d]) ==> s.claims[c].fate == Released
  }

  predicate ClaimsPast(s: State) {
    forall c :: 0 <= c < |s.claims| ==> s.claims[c].at <= s.now
  }

  ghost predicate Consistent(s: State) {
    RowsOwned(s) && ClaimsHold(s) && RepeatsReleased(s) && ClaimsPast(s)
  }

  predicate Repeats(first: Claim, second: Claim) {
    first.key == second.key && second.at - first.at <= WINDOW
  }

  /** The deletes match on the key alone: they are sound when what they remove is a finished
      row past its window. */
  predicate Sane(s: State, a: Action) {
    match a
    case Delete(i) =>
      Enabled(s, a) && s.attempts[i].key in s.table ==>
        s.table[s.attempts[i].key].row.completed && Expired(s.table[s.attempts[i].key].row, s.now)
    case Purge => forall k :: k in s.table && Expired(s.table[k].row, s.now) ==> s.table[k].row.completed
    case _ => true
  }

  /** Nobody who still has a use for a key has left it free. */
  lemma FreeKeyIsDone(s: State, k: Key, c: nat)
    requires Consistent(s) && k !in s.table && c < |s.claims| && s.claims[c].key == k
    ensures s.claims[c].fate == Released || s.claims[c].at < s.now - WINDOW
  {
    assert !Holds(s, c);
    assert !Entitled(s, c);
  }

  lemma InsertKeepsRows(s: State, i: nat)
    requires RowsOwned(s) && Enabled(s, Insert(i)) && s.attempts[i].key !in s.table
    ensures RowsOwned(Next(s, Insert(i)))
  {
    var t := Next(s, Insert(i));
    forall k | k in t.table
      ensures Owned(t, k)
    {
      assert k in s.table ==> Owned(s, k);
    }
  }

  lemma InsertKeepsClaims(s: State, i: nat)
    requires Consistent(s) && Enabled(s, Insert(i)) && s.attempts[i].key !in s.table
    ensures ClaimsHold(Next(s, Insert(i))) && ClaimsPast(Next(s, Insert(i)))
  {
    var t := Next(s, Insert(i));
    forall c | 0 <= c < |t.claims| && Entitled(t, c)
      ensures Holds(t, c)
    {
      if c < |s.claims| {
        assert Entitled(s, c) && Holds(s, c);
      }
    }
  }

  lemma InsertKeepsRepeats(s: State, i: nat)
    requires Consistent(s) && Enabled(s, Insert(i)) && s.attempts[i].key !in s.table
    ensures RepeatsReleased(Next(s, Insert(i)))
  {
    var t := Next(s, Insert(i));
    var k, d := s.attempts[i].key, |s.claims|;
    forall c | 0 <= c < d && Repeats(t.claims[c], t.claims[d])
      ensures t.claims[c].fate == Released
    {
      FreeKeyIsDone(s, k, c);
    }
  }

  lemma InsertKeeps(s: State, i: nat)
    requires Consistent(s) && Enabled(s, Insert(i))
    ensures Consistent(Next(s, Insert(i)))
  {
    if s.attempts[i].key in s.table {
      SameClaims(s, Next(s, Insert(i)));
    } else {
      InsertKeepsRows(s, i);
      InsertKeepsClaims(s, i);
      InsertKeepsRepeats(s, i);
    }
  }

  /** A step that leaves table and claims alone, and time no earlier. */
  lemma SameClaims(s: State, t: State)
    requires Consistent(s) && t.table == s.table && t.claims == s.claims && s.now <= t.now
    ensures Consistent(t)
  {
    forall c | 0 <= c < |t.claims| && Entitled(t, c)
      ensures Holds(t, c)
    {
      assert Entitled(s, c) && Holds(s, c);
    }
    forall k | k in t.table
      ensures Owned(t, k)
    {
      assert Owned(s, k);
    }
  }

  /** Two claims that hold the same key are one. */
  lemma SettlesItsOwnRow(s: State, c: nat)
    requires Consistent(s) && c < |s.claims| && s.claims[c].fate == Live
    ensures s.claims[c].key in s.table && s.table[s.claims[c].key].owner == c && !s.table[s.claims[c].key].row.completed
  {
    assert Entitled(s, c) && Holds(s, c);
    assert Owned(s, s.claims[c].key);
  }

  /** Settling a claim changes its fate, and its own row. */
  lemma SettlingKeepsClaims(s: State, t: State, c: nat, fate: Fate)
    requires Consistent(s) && c < |s.claims| && t.now == s.now && t.claims == s.claims[c := s.claims[c].(fate := fate)]
    requires s.claims[c].fate == Live && fate != Live
    requires forall k :: k in s.table && (k != s.claims[c].key || fate.Stored?) ==>
               k in t.table && t.table[k].owner == s.table[k].owner
    ensures ClaimsHold(t) && RepeatsReleased(t) && ClaimsPast(t)
  {
    SettlesItsOwnRow(s, c);
    forall e | 0 <= e < |t.claims| && Entitled(t, e)
      ensures Holds(t, e)
    {
      assert Entitled(s, e) && Holds(s, e);
    }
    forall e, d | 0 <= e < d < |t.claims| && Repeats(t.claims[e], t.claims[d])
      ensures t.claims[e].fate == Released
    {
      assert Repeats(s.claims[e], s.claims[d]);
    }
  }

  lemma CompleteKeeps(s: State, a: Action)
    requires Consistent(s) && a.Complete? && Enabled(s, a)
    ensures Consistent(Next(s, a))
  {
    var t := Next(s, a);
    SettlesItsOwnRow(s, a.claim);
    SettlingKeepsClaims(s, t, a.claim, Stored(a.status, Retained(a.serialised)));
    forall k | k in t.table
      ensures Owned(t, k)
    {
      assert Owned(s, k);
    }
  }

  lemma ReleaseKeeps(s: State, c: nat)
    requires Consistent(s) && Enabled(s, Release(c))
    ensures Consistent(Next(s, Release(c)))
  {
    var t := Next(s, Release(c));
    SettlesItsOwnRow(s, c);
    SettlingKeepsClaims(s, t, c, Released);
    forall k | k in t.table
      ensures Owned(t, k)
    {
      assert Owned(s, k);
    }
  }

  lemma DropKeeps(s: State, a: Action)
    requires Consistent(s) && Enabled(s, a) && Sane(s, a) && (a.Delete? || a.Purge?)
    ensures Consistent(Next(s, a))
  {
    var t := Next(s, a);
    forall k | k in s.table && k !in t.table
      ensures s.table[k].row.completed && Expired(s.table[k].row, s.now) && Owned(s, k)
    {
    }
    forall c | 0 <= c < |t.claims| && Entitled(t, c)
      ensures Holds(t, c)
    {
      assert Entitled(s, c) && Holds(s, c);
    }
    forall k | k in t.table
      ensures Owned(t, k)
    {
      assert Owned(s, k);
    }
  }

  lemma SaneKeepsConsistent(s: State, a: Action)
    requires Consistent(s) && Sane(s, a)
    ensures Consistent(Next(s, a))
  {
    if Enabled(s, a) {
      match a
      case Insert(i) => InsertKeeps(s, i);
      case Complete(_, _, _) => CompleteKeeps(s, a);
      case Release(c) => ReleaseKeeps(s, c);
      case Delete(_) => DropKeeps(s, a);
      case Purge => DropKeeps(s, a);
      case _ => SameClaims(s, Next(s, a));
    }
  }

  /** Without its row, a claim still entitled to it is left holding nothing. */
  lemma RemovingBreaks(s: State, t: State, k: Key)
    requires Consistent(s) && k in s.table && k !in t.table && t.claims == s.claims && t.now == s.now
    requires !(s.table[k].row.completed && Expired(s.table[k].row, s.now))
    ensures !Consistent(t)
  {
    assert Owned(s, k);
    var c := s.table[k].owner;
    assert Entitled(t, c) && !Holds(t, c);
  }

  /** Exactly the unsound deletes break the table. */
  lemma ConsistentIffSane(s: State, a: Action)
    requires Consistent(s)
    ensures Consistent(Next(s, a)) <==> Sane(s, a)
  {
    if Sane(s, a) {
      SaneKeepsConsistent(s, a);
    } else if a.Delete? {
      var k := s.attempts[a.attempt].key;
      RemovingBreaks(s, Next(s, a), k);
    } else {
      var k :| k in s.table && Expired(s.table[k].row, s.now) && !s.table[k].row.completed;
      RemovingBreaks(s, Next(s, a), k);
    }
  }

  /** Every delete of the run found a finished, expired row, or nothing. */
  ghost predicate Orderly(acts: seq<Action>) {
    forall k :: 0 <= k < |acts| ==> Sane(Run(acts[..k]), acts[k])
  }

  lemma OrderlyBefore(acts: seq<Action>, n: nat)
    requires Orderly(acts) && n <= |acts|
    ensures Orderly(acts[..n])
  {
    assert forall k :: 0 <= k < n ==> acts[..n][..k] == acts[..k] && acts[..n][k] == acts[k];
  }

  lemma RunEnds(acts: seq<Action>)
    requires acts != []
    ensures Run(acts) == Next(Run(acts[..|acts| - 1]), acts[|acts| - 1])
  {
  }

  lemma {:induction false} OrderlyRunsAreConsistent(acts: seq<Action>)
    requires Orderly(acts)
    ensures Consistent(Run(acts))
  {
    if acts != [] {
      var n := |acts| - 1;
      OrderlyBefore(acts, n);
      OrderlyRunsAreConsistent(acts[..n]);
      SaneKeepsConsistent(Run(acts[..n]), acts[n]);
      RunEnds(acts);
    }
  }

  lemma SaneIfStillConsistent(acts: seq<Action>, k: nat)
    requires k < |acts| && Consistent(Run(acts[..k])) && Consistent(Run(acts[..k + 1]))
    ensures Sane(Run(acts[..k]), acts[k])
  {
    assert acts[..k + 1] == acts[..k] + [acts[k]];
    RunOneMore(acts[..k], acts[k]);
    ConsistentIffSane(Run(acts[..k]), acts[k]);
  }

  ghost predicate AlwaysConsistent(acts: seq<Action>) {
    forall k :: 0 <= k <= |acts| ==> Consistent(Run(acts[..k]))
  }

  /** And only they are: a run is consistent all along exactly if it is orderly. */
  lemma AlwaysConsistentIffOrderly(acts: seq<Action>)
    ensures AlwaysConsistent(acts) <==> Orderly(acts)
  {
    if Orderly(acts) {
      forall k | 0 <= k <= |acts|
        ensures Consistent(Run(acts[..k]))
      {
        OrderlyBefore(acts, k);
        OrderlyRunsAreConsistent(acts[..k]);
      }
    }
    if AlwaysConsistent(acts) {
      forall k | 0 <= k < |acts|
        ensures Sane(Run(acts[..k]), acts[k])
      {
        SaneIfStillConsistent(acts, k);
      }
    }
  }

  // ---------- The promises ----------

  /** At most one claim on a key is live. */
  lemma OneLiveClaimPerKey(acts: seq<Action>, c: nat, d: nat)
    requires Orderly(acts)
    requires var s := Run(acts);
             && c < |s.claims| && d < |s.claims| && s.claims[c].key == s.claims[d].key
             && s.claims[c].fate == Live && s.claims[d].fate == Live
    ensures c == d
  {
    OrderlyRunsAreConsistent(acts);
    SettlesItsOwnRow(Run(acts), c);
    SettlesItsOwnRow(Run(acts), d);
  }

  /** A replay is the stored result of a claim made with the asker's own key and fingerprint. */
  lemma ReplaysAreTheAskersOwn(acts: seq<Action>, k: Key, want: Fingerprint)
    requires Orderly(acts) && |k.name| <= MAX_KEY_LENGTH
    requires var s := Run(acts);
             Next(s, Read(k, want)).attempts[|s.attempts|].stage.Told?
             && Next(s, Read(k, want)).attempts[|s.attempts|].stage.outcome.Replay?
    ensures var s := Run(acts);
            var reply := Next(s, Read(k, want)).attempts[|s.attempts|].stage.outcome;
            exists c :: 0 <= c < |s.claims|
              && s.claims[c].key == k && s.claims[c].fingerprint == want
              && s.claims[c].fate.Stored? && s.claims[c].fate.body == Some(reply.body)
              && reply.status == (if s.claims[c].fate.status != 0 then s.claims[c].fate.status else 200)
              && s.claims[c].at >= s.now - WINDOW
  {
    OrderlyRunsAreConsistent(acts);
    var s := Run(acts);
    assert Owned(s, k);
    var c := s.table[k].owner;
    assert s.claims[c].key == k;
  }

  /** Inside the window a key's request is executed again only after the first gave the key back. */
  lemma ExecutedAgainOnlyAfterRelease(acts: seq<Action>, c: nat, d: nat)
    requires Orderly(acts)
    requires var s := Run(acts);
             c < d < |s.claims| && Repeats(s.claims[c], s.claims[d])
    ensures Run(acts).claims[c].fate == Released
  {
    OrderlyRunsAreConsistent(acts);
  }

  // ---------- Who proceeds ----------

  function ToldToProceed(k: Key, f: Fingerprint): Attempt -> int {
    (t: Attempt) => if t.stage == Told(Claimed) && t.key == k && t.fingerprint == f then 1 else 0
  }

  function ClaimedBy(k: Key, f: Fingerprint): Claim -> int {
    (c: Claim) => if c.key == k && c.fingerprint == f then 1 else 0
  }

  predicate Paired(s: State, k: Key, f: Fingerprint) {
    Sum(s.attempts, ToldToProceed(k, f)) == Sum(s.claims, ClaimedBy(k, f))
  }

  lemma InsertPairs(s: State, i: nat, k: Key, f: Fingerprint)
    requires Enabled(s, Insert(i)) && Paired(s, k, f)
    ensures Paired(Next(s, Insert(i)), k, f)
  {
    var s' := Next(s, Insert(i));
    SumUpdate(s.attempts, i, s'.attempts[i], ToldToProceed(k, f));
    if s.attempts[i].key !in s.table {
      SumAppend(s.claims, s'.claims[|s.claims|], ClaimedBy(k, f));
    }
  }

  lemma SettlePairs(s: State, a: Action, k: Key, f: Fingerprint)
    requires Enabled(s, a) && (a.Complete? || a.Release?) && Paired(s, k, f)
    ensures Paired(Next(s, a), k, f)
  {
    SumUpdate(s.claims, a.claim, Next(s, a).claims[a.claim], ClaimedBy(k, f));
  }

  lemma ReadPairs(s: State, a: Action, k: Key, f: Fingerprint)
    requires a.Read? && Enabled(s, a) && Paired(s, k, f)
    ensures Paired(Next(s, a), k, f)
  {
    SumAppend(s.attempts, Next(s, a).attempts[|s.attempts|], ToldToProceed(k, f));
  }

  lemma DeletePairs(s: State, i: nat, k: Key, f: Fingerprint)
    requires Enabled(s, Delete(i)) && Paired(s, k, f)
    ensures Paired(Next(s, Delete(i)), k, f)
  {
    SumUpdate(s.attempts, i, Next(s, Delete(i)).attempts[i], ToldToProceed(k, f));
  }

  lemma StepPairs(s: State, a: Action, k: Key, f: Fingerprint)
    requires Enabled(s, a) && Paired(s, k, f)
    ensures Paired(Next(s, a), k, f)
  {
    match a
    case Read(_, _) => ReadPairs(s, a, k, f);
    case Delete(i) => DeletePairs(s, i, k, f);
    case Insert(i) => InsertPairs(s, i, k, f);
    case Complete(_, _, _) => SettlePairs(s, a, k, f);
    case Release(_) => SettlePairs(s, a, k, f);
    case _ =>
  }

  /** In every run, orderly or not, as many attempts have been told to proceed with a request as there are
      claims of it: nobody proceeds without a claim of their own. */
  lemma {:induction false} WhoProceedsHasAClaim(acts: seq<Action>, k: Key, f: Fingerprint)
    ensures Sum(Run(acts).attempts, ToldToProceed(k, f)) == Sum(Run(acts).claims, ClaimedBy(k, f))
  {
    if acts != [] {
      var before := acts[..|acts| - 1];
      WhoProceedsHasAClaim(before, k, f);
      if Enabled(Run(before), acts[|acts| - 1]) {
        StepPairs(Run(before), acts[|acts| - 1], k, f);
      }
    }
  }

  // ---------- When runs are orderly ----------

  /** Nothing comes between a begin's read and its delete. */
  predicate AtomicDeletes(acts: seq<Action>) {
    forall k :: 0 <= k < |acts| && acts[k].Delete? ==>
      k > 0 && acts[k - 1].Read? && acts[k].attempt == |Run(acts[..k - 1]).attempts|
  }

  /** No claim outlives the window. */
  predicate PromptClaims(acts: seq<Action>) {
    forall k :: 0 <= k <= |acts| ==> Prompt(Run(acts[..k]))
  }

  predicate Prompt(s: State) {
    forall c :: 0 <= c < |s.claims| && s.claims[c].fate == Live ==> s.claims[c].at >= s.now - WINDOW
  }

  lemma PromptRowsAreFinished(s: State)
    requires Consistent(s) && Prompt(s)
    ensures forall k :: k in s.table && Expired(s.table[k].row, s.now) ==> s.table[k].row.completed
  {
    forall k | k in s.table && Expired(s.table[k].row, s.now)
      ensures s.table[k].row.completed
    {
      assert Owned(s, k);
    }
  }

  /** A delete straight after its read finds the row the read saw. */
  lemma DeleteFindsWhatItRead(before: State, k: Key, want: Fingerprint, i: nat)
    requires i == |before.attempts|
    ensures var s := Next(before, Read(k, want));
            Enabled(s, Delete(i)) ==> s.attempts[i].key in s.table && Expired(s.table[s.attempts[i].key].row, s.now)
  {
  }

  lemma EarlierToo(acts: seq<Action>)
    requires acts != [] && AtomicDeletes(acts) && PromptClaims(acts)
    ensures AtomicDeletes(acts[..|acts| - 1]) && PromptClaims(acts[..|acts| - 1]) && Prompt(Run(acts[..|acts| - 1]))
  {
    var n := |acts| - 1;
    assert forall k :: 0 <= k <= n ==> acts[..n][..k] == acts[..k];
    assert acts[..n][..n] == acts[..n];
  }

  lemma OrderlyMore(acts: seq<Action>)
    requires acts != []
    requires Orderly(acts[..|acts| - 1]) && Sane(Run(acts[..|acts| - 1]), acts[|acts| - 1])
    ensures Orderly(acts)
  {
    var n := |acts| - 1;
    forall k | 0 <= k < |acts|
      ensures Sane(Run(acts[..k]), acts[k])
    {
      assert k < n ==> acts[..n][..k] == acts[..k] && acts[..n][k] == acts[k];
    }
  }

  lemma AtomicDeleteIsSane(acts: seq<Action>)
    requires acts != [] && acts[|acts| - 1].Delete? && AtomicDeletes(acts)
    requires var s := Run(acts[..|acts| - 1]);
             forall k :: k in s.table && Expired(s.table[k].row, s.now) ==> s.table[k].row.completed
    ensures Sane(Run(acts[..|acts| - 1]), acts[|acts| - 1])
  {
    var n := |acts| - 1;
    var read := acts[n - 1];
    assert acts[..n] == acts[..n - 1] + [read];
    RunOneMore(acts[..n - 1], read);
    DeleteFindsWhatItRead(Run(acts[..n - 1]), read.key, read.fingerprint, acts[n].attempt);
  }

  lemma {:induction false} AtomicAndPromptIsOrderly(acts: seq<Action>)
    requires AtomicDeletes(acts) && PromptClaims(acts)
    ensures Orderly(acts)
  {
    if acts != [] {
      var n := |acts| - 1;
      EarlierToo(acts);
      AtomicAndPromptIsOrderly(acts[..n]);
      OrderlyRunsAreConsistent(acts[..n]);
      PromptRowsAreFinished(Run(acts[..n]));
      if acts[n].Delete? {
        AtomicDeleteIsSane(acts);
      }
      OrderlyMore(acts);
    }
  }

  // ---------- What goes wrong otherwise ----------

  lemma PromptStays(acts: seq<Action>, a: Action)
    requires PromptClaims(acts) && (a.Pass? ==> Prompt(Run(acts + [a])))
    ensures PromptClaims(acts + [a])
  {
    assert acts[..|acts|] == acts && Prompt(Run(acts));
    RunOneMore(acts, a);
    forall k | 0 <= k <= |acts| + 1
      ensures Prompt(Run((acts + [a])[..k]))
    {
      if k <= |acts| {
        assert (acts + [a])[..k] == acts[..k];
      } else {
        assert (acts + [a])[..k] == acts + [a];
      }
    }
  }

  function Answered(k: Key, f: Fingerprint, status: int, body: Option<string>): seq<Action> {
    [Read(k, f)] + [Insert(0)] + [Complete(0, status, body)] + [Pass(WINDOW + 1.0)]
  }

  /** A key answered long ago. */
  lemma AnsweredLongAgo(k: Key, f: Fingerprint, status: int, body: Option<string>)
    requires |k.name| <= MAX_KEY_LENGTH
    ensures PromptClaims(Answered(k, f, status, body))
    ensures Run(Answered(k, f, status, body)) == State(WINDOW + 1.0, map[k := Held(Row(f, true, Some(status), Retained(body), None, 0.0), 0)],
                                   [Claim(k, f, 0.0, Stored(status, Retained(body)))], [Attempt(k, f, Told(Claimed))])
  {
    var a1 := [Read(k, f)];
    var a2 := a1 + [Insert(0)];
    var a3 := a2 + [Complete(0, status, body)];
    assert [] + a1 == a1;
    RunOneMore([], Read(k, f));
    RunOneMore(a1, Insert(0));
    RunOneMore(a2, Complete(0, status, body));
    RunOneMore(a3, Pass(WINDOW + 1.0));
    assert Run(a2) == State(0.0, map[k := Held(Inserted(f, 0.0), 0)], [Claim(k, f, 0.0, Live)], [Attempt(k, f, Told(Claimed))]);
    PromptStays([], Read(k, f));
    PromptStays(a1, Insert(0));
    PromptStays(a2, Complete(0, status, body));
    PromptStays(a3, Pass(WINDOW + 1.0));
  }

  /** Two retries read the same expired row; the second's delete removes the row the first has
      just inserted, and both are told to proceed. */
  lemma TwoLiveClaims(k: Key, f: Fingerprint) returns (acts: seq<Action>)
    requires |k.name| <= MAX_KEY_LENGTH
    ensures var s := Run(acts);
            |s.claims| == 3 && s.claims[1] == s.claims[2] == Claim(k, f, s.now, Live)
    ensures PromptClaims(acts)
  {
    AnsweredLongAgo(k, f, 200, None);
    acts := BothRead(Answered(k, f, 200, None), k, f);
    acts := DeleteAndInsert(acts, 1, k, f);
    acts := DeleteAndInsert(acts, 2, k, f);
  }

  /** An attempt that saw an expired row deletes what is there by now, and claims the key. */
  lemma DeleteAndInsert(before: seq<Action>, i: nat, k: Key, f: Fingerprint) returns (acts: seq<Action>)
    requires PromptClaims(before) && i < |Run(before).attempts| && Run(before).attempts[i] == Attempt(k, f, ToDelete)
    ensures PromptClaims(acts)
    ensures var s := Run(before);
            && Run(acts).claims == s.claims + [Claim(k, f, s.now, Live)] && Run(acts).now == s.now
            && Run(acts).attempts == s.attempts[i := Attempt(k, f, Told(Claimed))]
  {
    RunOneMore(before, Delete(i));
    PromptStays(before, Delete(i));
    acts := before + [Delete(i)];
    RunOneMore(acts, Insert(i));
    PromptStays(acts, Insert(i));
    acts := acts + [Insert(i)];
  }

  lemma BothRead(before: seq<Action>, k: Key, f: Fingerprint) returns (acts: seq<Action>)
    requires PromptClaims(before) && |k.name| <= MAX_KEY_LENGTH
    requires var s := Run(before); k in s.table && Expired(s.table[k].row, s.now)
    ensures PromptClaims(acts)
    ensures var s := Run(before);
            Run(acts) == s.(attempts := s.attempts + [Attempt(k, f, ToDelete)] + [Attempt(k, f, ToDelete)])
  {
    RunOneMore(before, Read(k, f));
    PromptStays(before, Read(k, f));
    acts := before + [Read(k, f)];
    RunOneMore(acts, Read(k, f));
    PromptStays(acts, Read(k, f));
    acts := acts + [Read(k, f)];
  }

  function Unanswered(k: Key, f: Fingerprint): seq<Action> {
    [Read(k, f)] + [Insert(0)] + [Pass(WINDOW + 1.0)]
  }

  /** A claim that outlives its window. */
  lemma ClaimedLongAgo(k: Key, f: Fingerprint)
    requires |k.name| <= MAX_KEY_LENGTH
    ensures AtomicDeletes(Unanswered(k, f))
    ensures Run(Unanswered(k, f)) == State(WINDOW + 1.0, map[k := Held(Inserted(f, 0.0), 0)],
                                     [Claim(k, f, 0.0, Live)], [Attempt(k, f, Told(Claimed))])
  {
    var a1 := [Read(k, f)];
    var a2 := a1 + [Insert(0)];
    assert [] + a1 == a1;
    RunOneMore([], Read(k, f));
    RunOneMore(a1, Insert(0));
    RunOneMore(a2, Pass(WINDOW + 1.0));
  }

  /** A read of another request's expired row, the delete and the insert, one after another. */
  lemma TakenOver(before: seq<Action>, s: State, k: Key, g: Fingerprint) returns (acts: seq<Action>)
    requires AtomicDeletes(before) && Run(before) == s && |k.name| <= MAX_KEY_LENGTH
    requires k in s.table && Expired(s.table[k].row, s.now)
    ensures AtomicDeletes(acts)
    ensures Run(acts) == State(s.now, s.table[k := Held(Inserted(g, s.now), |s.claims|)],
                               s.claims + [Claim(k, g, s.now, Live)], s.attempts + [Attempt(k, g, Told(Claimed))])
  {
    var i := |s.attempts|;
    RunOneMore(before, Read(k, g));
    RunOneMore(before + [Read(k, g)], Delete(i));
    RunOneMore(before + [Read(k, g)] + [Delete(i)], Insert(i));
    acts := before + [Read(k, g)] + [Delete(i)] + [Insert(i)];
    assert (s.table - {k})[k := Held(Inserted(g, s.now), |s.claims|)] == s.table[k := Held(Inserted(g, s.now), |s.claims|)];
    DeleteAfterRead(before, Read(k, g), Insert(i));
  }

  lemma DeleteAfterRead(before: seq<Action>, read: Action, last: Action)
    requires AtomicDeletes(before) && read.Read? && last.Insert?
    ensures AtomicDeletes(before + [read] + [Delete(|Run(before).attempts|)] + [last])
  {
    var acts := before + [read] + [Delete(|Run(before).attempts|)] + [last];
    forall k | 0 <= k < |acts| && acts[k].Delete?
      ensures k > 0 && acts[k - 1].Read? && acts[k].attempt == |Run(acts[..k - 1]).attempts|
    {
      if k < |before| {
        assert acts[k] == before[k] && acts[..k - 1] == before[..k - 1];
      } else {
        assert acts[..k - 1] == before;
      }
    }
  }

  /** A claim that outlives its window completes on the row of the one that replaced it, and the wrong
      answer is replayed: nobody ever completed this request. */
  lemma WrongReplay(k: Key, f: Fingerprint, g: Fingerprint, status: int, body: string) returns (acts: seq<Action>)
    requires |k.name| <= MAX_KEY_LENGTH && f != g && status != 0 && |body| <= MAX_STORED_BODY
    ensures AtomicDeletes(acts)
    ensures var s := Run(acts);
            && Next(s, Read(k, g)).attempts[|s.attempts|].stage == Told(Replay(status, body, None))
            && forall c :: 0 <= c < |s.claims| && s.claims[c].fingerprint == g ==> !s.claims[c].fate.Stored?
  {
    ClaimedLongAgo(k, f);
    var before := TakenOver(Unanswered(k, f), Run(Unanswered(k, f)), k, g);
    var late := Complete(0, status, Some(body));
    RunOneMore(before, late);
    acts := before + [late];
    StaysAtomic(before, late);
  }

  lemma StaysAtomic(before: seq<Action>, last: Action)
    requires AtomicDeletes(before) && !last.Delete?
    ensures AtomicDeletes(before + [last])
  {
    var acts := before + [last];
    assert forall i :: 0 <= i < |before| ==> acts[i] == before[i] && acts[..i] == before[..i];
  }
}
