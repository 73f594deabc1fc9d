/** The counters of rate_limiter.py: one Redis key per dimension, identity, endpoint and window. */
module RateLimiter {
  import opened Common

  datatype Dimension = Rpm | Tpm | TpmIn | TpmOut | Rpd | Tpd | Ipm

  /** The platform's reserved name is no caller's: client ids are UUIDs. */
  datatype Identity = Platform | Caller(id: string)

  datatype Endpoint = AllEndpoints | ChatCompletions | Embeddings | Rerank | Predict | Images | Admin | Default

  datatype Key = Key(dim: Dimension, identity: Identity, endpoint: Endpoint, bucket: int)

  /** A counter without an expiry stays for good. */
  datatype Counter = Counter(value: int, expires: Option<int>)

  predicate Daily(d: Dimension) {
    d.Rpd? || d.Tpd?
  }

  function Window(d: Dimension): (seconds: int)
    ensures seconds > 0
  {
    if Daily(d) then 86_400 else 60
  }

  /** How long a counter lasts from its first increment: always past the end of its window. */
  function Ttl(d: Dimension): (seconds: int)
    ensures seconds > Window(d)
  {
    if Daily(d) then 86_400 + 7_200 else 90
  }

  function BucketAt(d: Dimension, now: int): int {
    now / Window(d)
  }

  function ResetAt(d: Dimension, now: int): (at: int)
    ensures now < at <= now + Window(d)
  {
    (now / Window(d) + 1) * Window(d)
  }

  function Max(a: int, b: int): int {
    if a >= b then a else b
  }

  function Min(a: int, b: int): int {
    if a <= b then a else b
  }

  predicate Live(counters: map<Key, Counter>, k: Key, now: int) {
    k in counters && (counters[k].expires.Some? ==> now < counters[k].expires.value)
  }

  function Used(counters: map<Key, Counter>, k: Key, now: int): int {
    if Live(counters, k, now) then counters[k].value else 0
  }

  /** INCRBY, and EXPIRE when the counter came back without one. */
  function Added(counters: map<Key, Counter>, k: Key, amount: int, now: int): map<Key, Counter> {
    var expires := if Live(counters, k, now) && counters[k].expires.Some? then counters[k].expires else Some(now + Ttl(k.dim));
    counters[k := Counter(Used(counters, k, now) + amount, expires)]
  }

  datatype LimitState = LimitState(allowed: bool, limit: int, remaining: int, resetAt: int)

  /** Every counter outlives the window it is for. */
  ghost predicate Lasting(counters: map<Key, Counter>) {
    forall k :: k in counters && counters[k].expires.Some? ==> counters[k].expires.value > (k.bucket + 1) * Window(k.dim)
  }

  /** One counter moved, from what it held or from nothing if it had expired or was never there; an expiry
      it has stays, and one it has not is `lasts` seconds from now. */
  predicate CountedOn(before: map<Key, Counter>, after: map<Key, Counter>, k: Key, amount: int, now: int, lasts: int) {
    && k in after
    && after - {k} == before - {k}
    && if k in before && before[k].expires.Some? && now < before[k].expires.value then
         after[k] == Counter(before[k].value + amount, before[k].expires)
       else
         after[k] == Counter((if k in before && before[k].expires.None? then before[k].value else 0) + amount, Some(now + lasts))
  }

  lemma AddedIsCountedOn(before: map<Key, Counter>, k: Key, amount: int, now: int)
    ensures CountedOn(before, Added(before, k, amount, now), k, amount, now, if k.dim.Rpd? || k.dim.Tpd? then 93_600 else 90)
  {
  }

  class RateLimiter {
    var counters: map<Key, Counter>

    constructor ()
      ensures counters == map[]
    {
      counters := map[];
    }

    /** Counted before it is compared: a refused request has spent its slot too. */
    method CheckAndIncrementRpm(identity: Identity, endpoint: Endpoint, limit: int, now: int) returns (state: LimitState)
      modifies this
      ensures var k := Key(Rpm, identity, endpoint, now / 60);
              && CountedOn(old(counters), counters, k, 1, now, 90)
              && (state.allowed <==> counters[k].value <= limit)
              && state.remaining == (if counters[k].value <= limit then limit - counters[k].value else 0)
      ensures state.limit == limit && state.resetAt == now - now % 60 + 60
      ensures counters == Added(old(counters), Key(Rpm, identity, endpoint, BucketAt(Rpm, now)), 1, now)
    {
      var k := Key(Rpm, identity, endpoint, BucketAt(Rpm, now));
      AddedIsCountedOn(counters, k, 1, now);
      var count := Increment(k, 1, now);
      state := LimitState(count <= limit, limit, Max(0, limit - count), ResetAt(Rpm, now));
    }

    method CheckAndIncrementRpd(identity: Identity, endpoint: Endpoint, limit: int, now: int) returns (state: LimitState)
      modifies this
      ensures var k := Key(Rpd, identity, endpoint, now / 86_400);
              && CountedOn(old(counters), counters, k, 1, now, 93_600)
              && (state.allowed <==> counters[k].value <= limit)
              && state.remaining == (if counters[k].value <= limit then limit - counters[k].value else 0)
      ensures state.limit == limit && state.resetAt == now - now % 86_400 + 86_400
      ensures counters == Added(old(counters), Key(Rpd, identity, endpoint, BucketAt(Rpd, now)), 1, now)
    {
      var k := Key(Rpd, identity, endpoint, BucketAt(Rpd, now));
      AddedIsCountedOn(counters, k, 1, now);
      var count := Increment(k, 1, now);
      state := LimitState(count <= limit, limit, Max(0, limit - count), ResetAt(Rpd, now));
    }

    /** One MULTI of INCRBY and TTL, then EXPIRE when there was no expiry. */
    method Increment(k: Key, amount: int, now: int) returns (count: int)
      modifies this
      ensures counters == Added(old(counters), k, amount, now)
      ensures count == Used(old(counters), k, now) + amount == Used(counters, k, now)
    {
      count := Used(counters, k, now) + amount;
      var expires := if Live(counters, k, now) then counters[k].expires else None;
      counters := counters[k := Counter(count, expires)];
      if expires.None? {
        counters := counters[k := counters[k].(expires := Some(now + Ttl(k.dim)))];
      }
    }

    /** A read: of the combined tokens of the minute or of the day, or of one direction's. */
    method CheckBudget(d: Dimension, identity: Identity, endpoint: Endpoint, limit: int, asked: int, now: int)
      returns (state: LimitState)
      ensures var window := if d.Rpd? || d.Tpd? then 86_400 else 60;
              var k := Key(d, identity, endpoint, now / window);
              var alive := k in counters && (counters[k].expires.Some? ==> now < counters[k].expires.value);
              var used := if alive then counters[k].value else 0;
              && (state.allowed <==> used + asked <= limit)
              && state.limit == limit && state.remaining == (if used <= limit then limit - used else 0)
              && state.resetAt == now - now % window + window
    {
      var used := Used(counters, Key(d, identity, endpoint, BucketAt(d, now)), now);
      state := LimitState(used + asked <= limit, limit, Max(0, limit - used), ResetAt(d, now));
    }

    /** Three counters in one call: the total, and each direction. */
    method IncrementTpm(identity: Identity, endpoint: Endpoint, prompt: int, completion: int, now: int)
      modifies this
      ensures forall k ::
                Used(counters, k, now) == Used(old(counters), k, now) +
                  (if k.identity == identity && k.endpoint == endpoint && k.bucket == now / 60 then
                     match k.dim
                     case Tpm => prompt + completion
                     case TpmIn => prompt
                     case TpmOut => completion
                     case _ => 0
                   else 0)
      ensures Lasting(old(counters)) ==> Lasting(counters)
    {
      var b := BucketAt(Tpm, now);
      AddedLasts(counters, Key(Tpm, identity, endpoint, b), prompt + completion, now);
      var _ := Increment(Key(Tpm, identity, endpoint, b), prompt + completion, now);
      AddedLasts(counters, Key(TpmIn, identity, endpoint, b), prompt, now);
      var _ := Increment(Key(TpmIn, identity, endpoint, b), prompt, now);
      AddedLasts(counters, Key(TpmOut, identity, endpoint, b), completion, now);
      var _ := Increment(Key(TpmOut, identity, endpoint, b), completion, now);
    }

    method IncrementTpd(identity: Identity, endpoint: Endpoint, tokens: int, now: int)
      modifies this
      ensures counters == Added(old(counters), Key(Tpd, identity, endpoint, BucketAt(Tpd, now)), tokens, now)
      ensures CountedOn(old(counters), counters, Key(Tpd, identity, endpoint, now / 86_400), tokens, now, 93_600)
    {
      AddedIsCountedOn(counters, Key(Tpd, identity, endpoint, BucketAt(Tpd, now)), tokens, now);
      var _ := Increment(Key(Tpd, identity, endpoint, BucketAt(Tpd, now)), tokens, now);
    }

    method IncrementIpm(identity: Identity, endpoint: Endpoint, images: int, now: int)
      modifies this
      ensures counters == Added(old(counters), Key(Ipm, identity, endpoint, BucketAt(Ipm, now)), images, now)
      ensures CountedOn(old(counters), counters, Key(Ipm, identity, endpoint, now / 60), images, now, 90)
    {
      AddedIsCountedOn(counters, Key(Ipm, identity, endpoint, BucketAt(Ipm, now)), images, now);
      var _ := Increment(Key(Ipm, identity, endpoint, BucketAt(Ipm, now)), images, now);
    }
  }

  /** A counter of the present window is kept past the window's end. */
  lemma AddedLasts(counters: map<Key, Counter>, k: Key, amount: int, now: int)
    requires k.bucket == BucketAt(k.dim, now)
    ensures Lasting(counters) ==> Lasting(Added(counters, k, amount, now))
    ensures forall k' :: Used(Added(counters, k, amount, now), k', now) == Used(counters, k', now) + (if k' == k then amount else 0)
  {
    assert now < (k.bucket + 1) * Window(k.dim);
    assert now + Ttl(k.dim) > (k.bucket + 1) * Window(k.dim);
  }

  /** So nothing read from it before then is forgotten. */
  lemma LastingIsExact(counters: map<Key, Counter>, k: Key, now: int)
    requires Lasting(counters) && k in counters && now < (k.bucket + 1) * Window(k.dim)
    ensures Used(counters, k, now) == counters[k].value
  {
  }
}
