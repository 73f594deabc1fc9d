/** The limits of rate_limits.py and the order rate_limit_middleware.py applies them in: which
    counters a request is checked against, which it is charged to, and which the live view shows. */
module RateLimits {
  import opened Common
  import opened RateLimiter

  // ---------- Settings ----------

  datatype Pair = Pair(rpm: Option<int>, tpm: Option<int>)

  datatype Settings = Settings(
    rpm: int, tpm: int,
    platform: Pair, client: Pair,
    tpmInput: Option<int>, tpmOutput: Option<int>,
    rpd: Option<int>, tpd: Option<int>, ipm: Option<int>,
    chat: Pair, predict: Pair, admin: Pair)

  /** What a client's tier says; nothing at all, for a client without one. */
  datatype Tier = Tier(
    rpm: Option<int>, tpm: Option<int>, tpmInput: Option<int>, tpmOutput: Option<int>,
    rpd: Option<int>, tpd: Option<int>, ipm: Option<int>)

  /** Either may be empty; a machine's user is its client. */
  datatype Claims = Claims(client: string, user: string)

  const ENDPOINT_COUNT := 6

  function Or(chosen: Option<int>, otherwise: int): int {
    if chosen.Some? then chosen.value else otherwise
  }

  function Overrides(st: Settings, slug: Endpoint): Pair {
    match slug
    case ChatCompletions => st.chat
    case Predict => st.predict
    case Admin => st.admin
    case _ => Pair(None, None)
  }

  function EndpointRpm(st: Settings, slug: Endpoint): int {
    Or(Overrides(st, slug).rpm, st.rpm)
  }

  function EndpointTpm(st: Settings, slug: Endpoint): int {
    Or(Overrides(st, slug).tpm, st.tpm)
  }

  /** The tier's word, else the dedicated setting, else the sum of the endpoints' allowances. */
  function ClientRpm(st: Settings, tier: Tier): int {
    Or(tier.rpm, Or(st.client.rpm, st.rpm * ENDPOINT_COUNT))
  }

  function ClientTpm(st: Settings, tier: Tier): int {
    Or(tier.tpm, Or(st.client.tpm, st.tpm * ENDPOINT_COUNT))
  }

  // ---------- Routes ----------

  const ADMIN_PREFIX := "/admin/api/"
  const PREDICT_PREFIX := "/v1/models/"
  const PREDICT_SUFFIX := "/predict"
  const CHAT_PATH := "/v1/chat/completions"
  const EMBEDDINGS_PATH := "/v1/embeddings"
  const RERANK_PATH := "/v1/rerank"
  const IMAGES_PATH := "/v1/images/generations"

  predicate StartsWith(s: string, prefix: string) {
    |prefix| <= |s| && s[..|prefix|] == prefix
  }

  predicate EndsWith(s: string, suffix: string) {
    |suffix| <= |s| && s[|s| - |suffix|..] == suffix
  }

  function EndpointSlug(path: string): Endpoint {
    if StartsWith(path, ADMIN_PREFIX) then Admin
    else if StartsWith(path, PREDICT_PREFIX) && EndsWith(path, PREDICT_SUFFIX) then Predict
    else if path == CHAT_PATH then ChatCompletions
    else if path == EMBEDDINGS_PATH then Embeddings
    else if path == RERANK_PATH then Rerank
    else if path == IMAGES_PATH then Images
    else Default
  }

  /** Two paths share a budget only when they are one path, both unmapped, both an administrator's,
      or both a model's pass-through. */
  lemma BudgetsAreShared(p: string, q: string)
    requires EndpointSlug(p) == EndpointSlug(q)
    ensures p == q || EndpointSlug(p) in {Default, Admin, Predict}
    ensures EndpointSlug(p) != AllEndpoints
  {
  }

  /** The text begins, or ends, so. */
  ghost predicate Begins(path: string, start: string) {
    exists rest :: path == start + rest
  }

  ghost predicate Ends(path: string, end: string) {
    exists rest :: path == rest + end
  }

  lemma BeginsIff(path: string, start: string)
    ensures StartsWith(path, start) <==> Begins(path, start)
  {
    if StartsWith(path, start) {
      assert path == start + path[|start|..];
    }
  }

  lemma EndsIff(path: string, end: string)
    ensures EndsWith(path, end) <==> Ends(path, end)
  {
    if EndsWith(path, end) {
      assert path == path[..|path| - |end|] + end;
    }
  }

  /** Whose budget a path draws on: its own, for the four inference routes. */
  lemma BudgetOf(path: string)
    ensures EndpointSlug(path) == Admin <==> Begins(path, "/admin/api/")
    ensures EndpointSlug(path) == Predict <==> Begins(path, "/v1/models/") && Ends(path, "/predict")
    ensures EndpointSlug(path) == ChatCompletions <==> path == "/v1/chat/completions"
    ensures EndpointSlug(path) == Embeddings <==> path == "/v1/embeddings"
    ensures EndpointSlug(path) == Rerank <==> path == "/v1/rerank"
    ensures EndpointSlug(path) == Images <==> path == "/v1/images/generations"
  {
    BeginsIff(path, "/admin/api/");
    BeginsIff(path, "/v1/models/");
    EndsIff(path, "/predict");
    PrefixesPart(path);
  }

  /** The characters the prefixes and the four routes differ in. */
  lemma PrefixesPart(path: string)
    ensures StartsWith(path, "/admin/api/") ==> |path| > 4 && path[1] == 'a'
    ensures StartsWith(path, "/v1/models/") ==> |path| > 4 && path[1] == 'v' && path[4] == 'm'
    ensures path in {"/v1/chat/completions", "/v1/embeddings", "/v1/rerank", "/v1/images/generations"} ==>
              path[1] == 'v' && path[4] != 'm'
  {
    var admin, models := "/admin/api/", "/v1/models/";
    if StartsWith(path, admin) {
      assert path[1] == path[..|admin|][1] == admin[1];
    }
    if StartsWith(path, models) {
      assert path[1] == path[..|models|][1] == models[1];
      assert path[4] == path[..|models|][4] == models[4];
    }
  }

  // ---------- The checks of a request, in order ----------

  /** One counter compared with one limit; a check that is not enforced never refuses. */
  datatype Check = Check(dim: Dimension, who: Identity, where: Endpoint, ask: nat, limit: int, enforced: bool)

  /** Requests are counted as they are checked; tokens and images only read. */
  predicate Counting(d: Dimension) {
    d.Rpm? || d.Rpd?
  }

  function CheckIf(chosen: Option<int>, d: Dimension, who: Identity, where: Endpoint): seq<Check> {
    if chosen.Some? then [Check(d, who, where, 0, chosen.value, true)] else []
  }

  predicate Distinct(cl: Claims) {
    cl.user != "" && cl.user != cl.client
  }

  /** filter(None, ids) */
  function Present(ids: seq<string>): seq<Identity> {
    if ids == [] then []
    else (if ids[0] != "" then [Caller(ids[0])] else []) + Present(ids[1..])
  }

  function Both(cl: Claims): seq<Identity> {
    Present([cl.client, cl.user])
  }

  /** Each name once. */
  function Once(cl: Claims): seq<Identity> {
    if cl.client == cl.user then Present([cl.client]) else Both(cl)
  }

  /** The requests are counted whether or not there is a ceiling. */
  function PlatformLayer(st: Settings): seq<Check> {
    [Check(Rpm, Platform, AllEndpoints, 0, Or(st.platform.rpm, 0), st.platform.rpm.Some?)]
    + CheckIf(st.platform.tpm, Tpm, Platform, AllEndpoints)
  }

  function EndpointLayer(st: Settings, tier: Tier, cl: Claims, slug: Endpoint): seq<Check> {
    [Check(Rpm, Caller(cl.client), slug, 0, EndpointRpm(st, slug), true)]
    + (if Distinct(cl) then [Check(Rpm, Caller(cl.user), slug, 0, EndpointRpm(st, slug), true)] else [])
    + [Check(Tpm, Caller(cl.client), slug, 0, EndpointTpm(st, slug), tier.tpm.None?)]
  }

  function ClientChecks(st: Settings, tier: Tier, who: Identity): seq<Check> {
    [Check(Rpm, who, AllEndpoints, 0, ClientRpm(st, tier), true),
     Check(Tpm, who, AllEndpoints, 0, ClientTpm(st, tier), true)]
    + CheckIf(tier.rpd, Rpd, who, AllEndpoints)
    + CheckIf(tier.tpd, Tpd, who, AllEndpoints)
    + CheckIf(tier.tpmInput, TpmIn, who, AllEndpoints)
    + CheckIf(tier.tpmOutput, TpmOut, who, AllEndpoints)
  }

  function ClientLayer(st: Settings, tier: Tier, ids: seq<Identity>): seq<Check> {
    if ids == [] then [] else ClientChecks(st, tier, ids[0]) + ClientLayer(st, tier, ids[1..])
  }

  function DailyChecks(st: Settings, who: Identity, slug: Endpoint): seq<Check> {
    CheckIf(st.rpd, Rpd, who, slug) + CheckIf(st.tpd, Tpd, who, slug)
  }

  function DailyLayer(st: Settings, ids: seq<Identity>, slug: Endpoint): seq<Check> {
    if ids == [] then [] else DailyChecks(st, ids[0], slug) + DailyLayer(st, ids[1..], slug)
  }

  function DirectionLayer(chosen: Option<int>, d: Dimension, ids: seq<Identity>, slug: Endpoint): seq<Check> {
    if ids == [] then [] else CheckIf(chosen, d, ids[0], slug) + DirectionLayer(chosen, d, ids[1..], slug)
  }

  /** What the settings bound of a name on a route beside the minute's requests and tokens. */
  function OwnLimits(st: Settings, cl: Claims, slug: Endpoint): seq<Check> {
    DailyLayer(st, Both(cl), slug)
    + (DirectionLayer(st.tpmInput, TpmIn, Both(cl), slug) + DirectionLayer(st.tpmOutput, TpmOut, Both(cl), slug))
  }

  function Plan(st: Settings, tier: Tier, cl: Claims, slug: Endpoint): seq<Check> {
    PlatformLayer(st)
    + (EndpointLayer(st, tier, cl, slug) + (ClientLayer(st, tier, Once(cl)) + OwnLimits(st, cl, slug)))
  }

  /** The image route's own gate, once the middleware has let the request through: a tier's
      ceiling bounds the client everywhere, the platform's the route. */
  function ImageGate(st: Settings, tier: Tier, ids: seq<Identity>, images: nat): seq<Check> {
    var limit := if tier.ipm.Some? then tier.ipm else st.ipm;
    if ids == [] || limit.None? then []
    else [Check(Ipm, ids[0], if tier.ipm.Some? then AllEndpoints else Images, images, limit.value, true)]
         + ImageGate(st, tier, ids[1..], images)
  }

  // ---------- Performing them ----------

  function KeyOf(c: Check, now: int): Key {
    Key(c.dim, c.who, c.where, BucketAt(c.dim, now))
  }

  function Effect(counters: map<Key, Counter>, c: Check, now: int): map<Key, Counter> {
    if Counting(c.dim) then Added(counters, KeyOf(c, now), 1, now) else counters
  }

  predicate Refuses(counters: map<Key, Counter>, c: Check, now: int) {
    c.enforced && Used(Effect(counters, c, now), KeyOf(c, now), now) + c.ask > c.limit
  }

  /** The first refusal ends it; what was counted by then stays counted. */
  datatype Performed = Performed(counters: map<Key, Counter>, refusal: Option<Check>)

  /** What each check reads of the clock: the i-th of the request at clock(i). */
  type Clock = nat -> int

  function Perform(counters: map<Key, Counter>, checks: seq<Check>, clock: Clock, i: nat): Performed
    decreases checks
  {
    if checks == [] then Performed(counters, None)
    else
      var after := Effect(counters, checks[0], clock(i));
      if Refuses(counters, checks[0], clock(i)) then Performed(after, Some(checks[0]))
      else Perform(after, checks[1..], clock, i + 1)
  }

  lemma {:induction false} PerformSplits(counters: map<Key, Counter>, a: seq<Check>, b: seq<Check>, clock: Clock, i: nat)
    ensures var first := Perform(counters, a, clock, i);
            Perform(counters, a + b, clock, i) ==
            if first.refusal.Some? then first else Perform(first.counters, b, clock, i + |a|)
    decreases a
  {
    if a == [] {
      assert a + b == b;
    } else {
      assert (a + b)[1..] == a[1..] + b;
      PerformSplits(Effect(counters, a[0], clock(i)), a[1..], b, clock, i + 1);
    }
  }

  // ---------- The middleware ----------

  method PerformCheck(limiter: RateLimiter, c: Check, now: int) returns (refused: bool)
    modifies limiter
    ensures limiter.counters == Effect(old(limiter.counters), c, now)
    ensures refused == Refuses(old(limiter.counters), c, now)
  {
    var state: LimitState;
    match c.dim {
      case Rpm =>
        state := limiter.CheckAndIncrementRpm(c.who, c.where, c.limit - c.ask, now);
      case Rpd =>
        state := limiter.CheckAndIncrementRpd(c.who, c.where, c.limit - c.ask, now);
      case _ =>
        state := limiter.CheckBudget(c.dim, c.who, c.where, c.limit, c.ask, now);
    }
    refused := c.enforced && !state.allowed;
  }

  method PerformChecks(limiter: RateLimiter, checks: seq<Check>, clock: Clock, i: nat)
    returns (refusal: Option<Check>, next: nat)
    modifies limiter
    ensures Performed(limiter.counters, refusal) == Perform(old(limiter.counters), checks, clock, i)
    ensures next == i + |checks|
  {
    next := i + |checks|;
    for n := 0 to |checks|
      invariant Perform(old(limiter.counters), checks, clock, i) == Perform(limiter.counters, checks[n..], clock, i + n)
    {
      assert checks[n..][1..] == checks[n + 1..];
      var refused := PerformCheck(limiter, checks[n], clock(i + n));
      if refused {
        return Some(checks[n]), next;
      }
    }
    refusal := None;
  }

  /** One layer; `rest` is what would follow it. */
  method PerformLayer(limiter: RateLimiter, layer: seq<Check>, clock: Clock, i: nat, ghost rest: seq<Check>)
    returns (refusal: Option<Check>, next: nat)
    modifies limiter
    ensures Follows(old(limiter.counters), layer, rest, limiter.counters, refusal, clock, i, next)
  {
    PerformSplits(limiter.counters, layer, rest, clock, i);
    refusal, next := PerformChecks(limiter, layer, clock, i);
  }

  /** _check_limits: layer by layer, until one refuses. */
  method CheckLimits(limiter: RateLimiter, st: Settings, tier: Tier, cl: Claims, slug: Endpoint, clock: Clock)
    returns (refusal: Option<Check>)
    modifies limiter
    ensures Performed(limiter.counters, refusal) == Perform(old(limiter.counters), Plan(st, tier, cl, slug), clock, 0)
  {
    ghost var own := ClientLayer(st, tier, Once(cl)) + OwnLimits(st, cl, slug);
    var i: nat;
    refusal, i := PerformLayer(limiter, PlatformLayer(st), clock, 0, EndpointLayer(st, tier, cl, slug) + own);
    if refusal.Some? {
      return;
    }
    refusal, i := PerformLayer(limiter, EndpointLayer(st, tier, cl, slug), clock, i, own);
    if refusal.Some? {
      return;
    }
    refusal, i := CheckClient(limiter, st, tier, Once(cl), clock, i, OwnLimits(st, cl, slug));
    if refusal.Some? {
      return;
    }
    refusal := CheckOwnLimits(limiter, st, cl, slug, clock, i);
  }

  method CheckOwnLimits(limiter: RateLimiter, st: Settings, cl: Claims, slug: Endpoint, clock: Clock, i: nat)
    returns (refusal: Option<Check>)
    modifies limiter
    ensures Performed(limiter.counters, refusal) == Perform(old(limiter.counters), OwnLimits(st, cl, slug), clock, i)
  {
    ghost var into, out :=
      DirectionLayer(st.tpmInput, TpmIn, Both(cl), slug), DirectionLayer(st.tpmOutput, TpmOut, Both(cl), slug);
    var j: nat;
    refusal, j := CheckDaily(limiter, st, Both(cl), slug, clock, i, into + out);
    if refusal.Some? {
      return;
    }
    refusal, j := PerformLayer(limiter, DirectionLayer(st.tpmInput, TpmIn, Both(cl), slug), clock, j, out);
    if refusal.Some? {
      return;
    }
    refusal, j := PerformChecks(limiter, DirectionLayer(st.tpmOutput, TpmOut, Both(cl), slug), clock, j);
  }

  /** The client across every endpoint; `rest` is what would follow. */
  method CheckClient(limiter: RateLimiter, st: Settings, tier: Tier, ids: seq<Identity>, clock: Clock, i: nat,
                     ghost rest: seq<Check>)
    returns (refusal: Option<Check>, next: nat)
    modifies limiter
    ensures Follows(old(limiter.counters), ClientLayer(st, tier, ids), rest, limiter.counters, refusal, clock, i, next)
  {
    next := i;
    for n := 0 to |ids|
      invariant Perform(old(limiter.counters), ClientLayer(st, tier, ids) + rest, clock, i) ==
                Perform(limiter.counters, ClientLayer(st, tier, ids[n..]) + rest, clock, next)
    {
      ClientLayerFirst(st, tier, ids, n, rest);
      refusal, next :=
        PerformLayer(limiter, ClientChecks(st, tier, ids[n]), clock, next, ClientLayer(st, tier, ids[n + 1..]) + rest);
      if refusal.Some? {
        return;
      }
    }
    assert ClientLayer(st, tier, ids[|ids|..]) + rest == rest;
    refusal := None;
  }

  lemma ClientLayerFirst(st: Settings, tier: Tier, ids: seq<Identity>, n: nat, rest: seq<Check>)
    requires n < |ids|
    ensures ClientLayer(st, tier, ids[n..]) + rest ==
            ClientChecks(st, tier, ids[n]) + (ClientLayer(st, tier, ids[n + 1..]) + rest)
  {
    assert ids[n..][1..] == ids[n + 1..];
  }

  /** The day's ceilings, of each of the names: twice, where the two are one. */
  method CheckDaily(limiter: RateLimiter, st: Settings, ids: seq<Identity>, slug: Endpoint, clock: Clock, i: nat,
                    ghost rest: seq<Check>)
    returns (refusal: Option<Check>, next: nat)
    modifies limiter
    ensures Follows(old(limiter.counters), DailyLayer(st, ids, slug), rest, limiter.counters, refusal, clock, i, next)
  {
    next := i;
    for n := 0 to |ids|
      invariant Perform(old(limiter.counters), DailyLayer(st, ids, slug) + rest, clock, i) ==
                Perform(limiter.counters, DailyLayer(st, ids[n..], slug) + rest, clock, next)
    {
      DailyLayerFirst(st, ids, n, slug, rest);
      refusal, next :=
        PerformLayer(limiter, DailyChecks(st, ids[n], slug), clock, next, DailyLayer(st, ids[n + 1..], slug) + rest);
      if refusal.Some? {
        return;
      }
    }
    assert DailyLayer(st, ids[|ids|..], slug) + rest == rest;
    refusal := None;
  }

  lemma DailyLayerFirst(st: Settings, ids: seq<Identity>, n: nat, slug: Endpoint, rest: seq<Check>)
    requires n < |ids|
    ensures DailyLayer(st, ids[n..], slug) + rest ==
            DailyChecks(st, ids[n], slug) + (DailyLayer(st, ids[n + 1..], slug) + rest)
  {
    assert ids[n..][1..] == ids[n + 1..];
  }

  /** A layer refused, and that is the outcome; or it passed, and what follows decides. */
  ghost predicate Follows(before: map<Key, Counter>, layer: seq<Check>, rest: seq<Check>,
                          after: map<Key, Counter>, refusal: Option<Check>, clock: Clock, i: nat, next: nat) {
    Perform(before, layer + rest, clock, i) ==
    if refusal.Some? then Performed(after, refusal) else Perform(after, rest, clock, next)
  }
}
