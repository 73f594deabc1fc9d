/** Idempotency keys: the table of idempotency.py and its four operations. */
module Idempotency {
  import opened Common

  const MAX_KEY_LENGTH: nat := 255
  const MAX_STORED_BODY: nat := 1024 * 1024
  const WINDOW: real := 86400.0
  const DEFAULT_RETRY_AFTER: int := 2

  /** Keys are scoped per client. */
  datatype Key = Key(client: string, name: string)

  /** A SHA-256 over path and payload, taken to be as good as the pair itself. */
  datatype Fingerprint = Fingerprint(path: string, payload: string)

  datatype Row = Row(
    fingerprint: Fingerprint,
    completed: bool,
    status: Option<int>,
    body: Option<string>,
    requestId: Option<string>,
    createdAt: real)

  datatype Outcome =
    | Replay(status: int, body: string, originalRequestId: Option<string>)
    | InvalidKey
    | KeyReuse
    | InProgress(retryAfter: Option<int>)
    | NotRetained
    | Claimed

  /** What a handler leaves for the middleware; a body that cannot be serialised has no text. */
  datatype Response = Response(status: int, serialised: Option<string>)

  predicate Expired(row: Row, now: real) {
    row.createdAt < now - WINDOW
  }

  function Ceil(x: real): (n: int)
    ensures (n - 1) as real < x <= n as real
  {
    -((-x).Floor)
  }

  /** The model's p95 latency less what has already elapsed, at least a second. */
  function EstimatedWait(row: Row, p95Ms: Option<real>, now: real): (seconds: int)
    ensures seconds >= 1
    ensures p95Ms.None? || p95Ms.value == 0.0 ==> seconds == 2
    ensures p95Ms.Some? && p95Ms.value != 0.0 ==>
              var due := row.createdAt + p95Ms.value / 1000.0;
              now + seconds as real >= due && (seconds == 1 || now + (seconds - 1) as real < due)
  {
    if p95Ms.None? || p95Ms.value == 0.0 then DEFAULT_RETRY_AFTER
    else
      var wait := Ceil(p95Ms.value / 1000.0 - (now - row.createdAt));
      if wait > 1 then wait else 1
  }

  /** What an unexpired row answers. */
  function Answer(row: Row, want: Fingerprint, p95Ms: Option<real>, now: real): Outcome {
    if row.fingerprint != want then KeyReuse
    else if !row.completed then InProgress(Some(EstimatedWait(row, p95Ms, now)))
    else if row.body.None? then NotRetained
    else Replay(if row.status.Some? && row.status.value != 0 then row.status.value else 200, row.body.value, row.requestId)
  }

  function Inserted(want: Fingerprint, now: real): Row {
    Row(want, false, None, None, None, now)
  }

  /** What of a serialised body is kept. */
  function Retained(serialised: Option<string>): Option<string> {
    if serialised.Some? && |serialised.value| > MAX_STORED_BODY then None else serialised
  }

  function Completed(row: Row, status: int, serialised: Option<string>, requestId: Option<string>): Row {
    row.(completed := true, status := Some(status), body := Retained(serialised),
         requestId := if requestId.Some? && requestId.value != "" then requestId else row.requestId)
  }

  /** The table, every operation one transaction; time is the caller's. */
  class IdempotencyStore {
    var rows: map<Key, Row>

    constructor ()
      ensures rows == map[]
    {
      rows := map[];
    }

    method Begin(k: Key, want: Fingerprint, p95Ms: Option<real>, now: real) returns (outcome: Outcome)
      modifies this
      ensures |k.name| > MAX_KEY_LENGTH ==> outcome == InvalidKey && rows == old(rows)
      ensures |k.name| <= MAX_KEY_LENGTH ==>
                var held := k in old(rows) && !Expired(old(rows)[k], now);
                && outcome == (if held then Answer(old(rows)[k], want, p95Ms, now) else Claimed)
                && rows == (if held then old(rows) else old(rows)[k := Inserted(want, now)])
      // Told to proceed exactly if there was no row, or one more than a day old: then this request's is there.
      ensures outcome.Claimed? <==> |k.name| <= 255 && (k !in old(rows) || old(rows)[k].createdAt < now - 86400.0)
      ensures outcome.Claimed? ==>
                k in rows && rows[k] == Row(want, false, None, None, None, now) && rows - {k} == old(rows) - {k}
      ensures |k.name| <= 255 && !outcome.Claimed? ==>
                var row := old(rows)[k];
                if row.fingerprint != want then outcome == KeyReuse
                else if !row.completed then outcome == InProgress(Some(EstimatedWait(row, p95Ms, now)))
                else if row.body.None? then outcome == NotRetained
                else
                  && outcome.Replay? && outcome.body == row.body.value && outcome.originalRequestId == row.requestId
                  && (row.status.Some? && row.status.value != 0 ==> outcome.status == row.status.value)
                  && (row.status.None? || row.status.value == 0 ==> outcome.status == 200)
    {
      if |k.name| > MAX_KEY_LENGTH {
        return InvalidKey;
      }
      if k in rows && Expired(rows[k], now) {
        rows := rows - {k};
      }
      if k in rows {
        return Answer(rows[k], want, p95Ms, now);
      }
      rows := rows[k := Inserted(want, now)];
      outcome := Claimed;
    }

    method Complete(k: Key, status: int, serialised: Option<string>, requestId: Option<string>)
      modifies this
      ensures rows == if k in old(rows) then old(rows)[k := Completed(old(rows)[k], status, serialised, requestId)]
                      else old(rows)
      // Only what is stored changes, and a text of more than a megabyte is not stored.
      ensures k in old(rows) ==>
                var row, row' := old(rows)[k], rows[k];
                && row'.completed && row'.status == Some(status)
                && row'.body == (if serialised.Some? && |serialised.value| <= 1048576 then serialised else None)
                && row'.requestId == (if requestId.Some? && requestId.value != "" then requestId else row.requestId)
                && row'.fingerprint == row.fingerprint && row'.createdAt == row.createdAt
    {
      if k !in rows {
        return;
      }
      var row := rows[k];
      row := row.(completed := true, status := Some(status), body := Retained(serialised));
      if requestId.Some? && requestId.value != "" {
        row := row.(requestId := requestId);
      }
      rows := rows[k := row];
    }

    method Release(k: Key)
      modifies this
      ensures rows == if k in old(rows) && !old(rows)[k].completed then old(rows) - {k} else old(rows)
    {
      if k in rows && !rows[k].completed {
        rows := rows - {k};
      }
    }

    /** The middleware, once a response exists or the handler raised: only a success is stored. */
    method SettleResponse(claim: Option<Key>, result: Option<Response>, requestId: Option<string>)
      modifies this
      ensures forall k :: claim != Some(k) ==>
                (k in rows <==> k in old(rows)) && (k in rows ==> rows[k] == old(rows)[k])
      ensures claim.Some? ==>
                (claim.value !in old(rows) ==> claim.value !in rows)
                && (claim.value in old(rows) && old(rows)[claim.value].completed ==>
                      && claim.value in rows
                      && rows[claim.value] ==
                         if result.Some? && 200 <= result.value.status < 300
                         then Completed(old(rows)[claim.value], result.value.status, result.value.serialised, requestId)
                         else old(rows)[claim.value])
      ensures claim.Some? && claim.value in old(rows) && !old(rows)[claim.value].completed ==>
                var k := claim.value;
                if result.Some? && 200 <= result.value.status < 300 then
                  && k in rows && rows[k].completed && rows[k].status == Some(result.value.status)
                  && rows[k].body == Retained(result.value.serialised) && rows[k].fingerprint == old(rows)[k].fingerprint
                else k !in rows
    {
      if claim.None? {
        return;
      }
      if result.Some? && 200 <= result.value.status < 300 {
        Complete(claim.value, result.value.status, result.value.serialised, requestId);
      } else {
        Release(claim.value);
      }
    }

    method PurgeExpired(now: real) returns (gone: nat)
      modifies this
      ensures rows == Purged(old(rows), now)
      ensures forall k :: k in rows <==> k in old(rows) && old(rows)[k].createdAt >= now - 86400.0
      ensures forall k :: k in rows ==> rows[k] == old(rows)[k]
      ensures gone == |old(rows)| - |rows|
    {
      var stale := set k | k in rows && Expired(rows[k], now);
      gone := |stale|;
      ghost var before := rows;
      var left := stale;
      while left != {}
        invariant left <= stale
        invariant rows == before - (stale - left)
        decreases left
      {
        var k :| k in left;
        rows := rows - {k};
        left := left - {k};
        assert stale - left == stale - (left + {k}) + {k};
      }
      assert stale - left == stale;
      PurgedIsTheRest(before, stale, now);
    }
  }

  lemma PurgedIsTheRest(rows: map<Key, Row>, stale: set<Key>, now: real)
    requires stale == set k | k in rows && Expired(rows[k], now)
    ensures rows - stale == Purged(rows, now)
    ensures |stale| == |rows| - |rows - stale|
  {
    var rest := rows - stale;
    assert rest.Keys == rows.Keys - stale;
    PartsAddUp(rows.Keys, rest.Keys, stale);
    assert |rows| == |rows.Keys| && |rest| == |rest.Keys|;
  }

  lemma PartsAddUp(all: set<Key>, rest: set<Key>, gone: set<Key>)
    requires gone <= all && rest == all - gone
    ensures |all| == |rest| + |gone|
  {
    assert all == rest + gone;
  }

  function Purged(rows: map<Key, Row>, now: real): map<Key, Row> {
    map k | k in rows && !Expired(rows[k], now) :: rows[k]
  }
}
