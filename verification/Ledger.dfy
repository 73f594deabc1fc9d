/** The usage ledger: priced events beside a rollup per day, client and model (db.py and pricing.py),
    and the script that prices what was recorded unpriced. */
module Ledger {
  import opened Common

  // ---------- Nullable money ----------

  /** SQL's sum with NULL for "no price": NULL only when both sides are. */
  function NullPlus(a: Option<real>, b: Option<real>): Option<real> {
    if a.None? then b else if b.None? then a else Some(a.value + b.value)
  }

  /** NULL's worth in a sum. */
  function Worth(cost: Option<real>): real {
    if cost.Some? then cost.value else 0.0
  }

  /** What a row of counters holds. */
  datatype Totals = Totals(
    prompt: int,
    completion: int,
    requests: int,
    cost: Option<real>,
    promptCost: Option<real>,
    completionCost: Option<real>,
    imageCost: Option<real>)

  const ZERO := Totals(0, 0, 0, None, None, None, None)

  function Plus(a: Totals, b: Totals): Totals {
    Totals(a.prompt + b.prompt, a.completion + b.completion, a.requests + b.requests,
           NullPlus(a.cost, b.cost), NullPlus(a.promptCost, b.promptCost),
           NullPlus(a.completionCost, b.completionCost), NullPlus(a.imageCost, b.imageCost))
  }

  /** The cost is its components'. */
  predicate Balanced(t: Totals) {
    t.cost == NullPlus(NullPlus(t.promptCost, t.completionCost), t.imageCost)
  }

  // ---------- Prices ----------

  datatype ModelPrice = ModelPrice(prompt: Option<real>, completion: Option<real>, image: Option<real>)

  function GetPrice(prices: map<string, ModelPrice>, name: string): Option<ModelPrice> {
    if name in prices then Some(prices[name]) else None
  }

  /** The first price among the names a model answers to; an absent or empty name answers to none. */
  function Lookup(prices: map<string, ModelPrice>, model: string, slug: Option<string>): Option<ModelPrice> {
    if model != "" && model in prices then Some(prices[model])
    else if slug.Some? && slug.value != "" && slug.value in prices then Some(prices[slug.value])
    else None
  }

  function AtRate(tokens: int, per1M: real): real {
    tokens as real * per1M / 1000000.0
  }

  function ForImages(each: real, images: int): real {
    each * images as real
  }

  /** Half a price is no price. */
  function TokenCost(prompt: int, completion: int, p: ModelPrice): (cost: Option<real>)
    ensures cost.Some? <==> p.prompt.Some? && p.completion.Some?
    ensures cost.Some? ==> cost.value == AtRate(prompt, p.prompt.value) + AtRate(completion, p.completion.value)
    ensures cost.Some? ==> cost.value * 1000000.0 == prompt as real * p.prompt.value + completion as real * p.completion.value
  {
    if p.prompt.None? || p.completion.None? then None
    else Some((prompt as real * p.prompt.value + completion as real * p.completion.value) / 1000000.0)
  }

  function EstimateCost(prices: map<string, ModelPrice>, model: string, slug: Option<string>, prompt: int, completion: int)
    : Option<real>
  {
    var p := Lookup(prices, model, slug);
    if p.None? then None else TokenCost(prompt, completion, p.value)
  }

  function EstimateImageCost(prices: map<string, ModelPrice>, model: string, slug: Option<string>, images: int): Option<real> {
    var p := Lookup(prices, model, slug);
    if p.None? || p.value.image.None? then None else Some(ForImages(p.value.image.value, images))
  }

  /** The live table: administrators' prices over those of the file. */
  class PricingTable {
    const filePrices: map<string, ModelPrice>
    var prices: map<string, ModelPrice>

    constructor (filePrices: map<string, ModelPrice>)
      ensures this.filePrices == filePrices && prices == filePrices
    {
      this.filePrices := filePrices;
      prices := filePrices;
    }

    method SetPrice(model: string, p: ModelPrice)
      modifies this
      ensures prices == old(prices)[model := p]
    {
      prices := prices[model := p];
    }

    /** Gives the file's own price back, or none; every other model keeps what it has. */
    method RemovePrice(model: string)
      modifies this
      ensures GetPrice(prices, model) == GetPrice(filePrices, model)
      ensures forall m :: m != model ==> GetPrice(prices, m) == GetPrice(old(prices), m)
    {
      if model in filePrices {
        prices := prices[model := filePrices[model]];
      } else {
        prices := prices - {model};
      }
    }
  }

  // ---------- Events and rollup rows ----------

  datatype Key = Key(day: int, client: string, model: string)

  datatype Kind = Chat | Embedding | Rerank | Image | Unlisted

  datatype Event = Event(
    key: Key,
    slug: Option<string>,
    kind: Kind,
    prompt: int,
    completion: int,
    images: int,
    price: ModelPrice,           // the prices written on the event
    cost: Option<real>,
    recordedAt: int)

  datatype Daily = Daily(slug: Option<string>, totals: Totals)

  /** What an event adds to its day, by its own columns. */
  function Share(e: Event): Totals {
    var priced := !e.kind.Image? && e.price.prompt.Some? && e.price.completion.Some?;
    Totals(e.prompt, e.completion, 1, e.cost,
           if priced then Some(AtRate(e.prompt, e.price.prompt.value)) else None,
           if priced then Some(AtRate(e.completion, e.price.completion.value)) else None,
           if e.kind.Image? && e.price.image.Some? then Some(ForImages(e.price.image.value, e.images)) else None)
  }

  datatype Request = Request(
    client: string, model: string, slug: Option<string>, kind: Kind,
    prompt: int, completion: int, images: int, day: int, at: int)

  /** `get_price(model) or get_price(slug)`. */
  function ResolvedPrice(prices: map<string, ModelPrice>, r: Request): Option<ModelPrice> {
    if r.model in prices then Some(prices[r.model])
    else if r.slug.Some? && r.slug.value != "" then GetPrice(prices, r.slug.value)
    else None
  }

  function EventOf(prices: map<string, ModelPrice>, r: Request): Event {
    var p := ResolvedPrice(prices, r);
    var written :=
      if p.None? then ModelPrice(None, None, None)
      else if r.kind.Image? then ModelPrice(None, None, p.value.image)
      else ModelPrice(p.value.prompt, p.value.completion, None);
    var cost :=
      if r.kind.Image? then (if written.image.Some? then Some(ForImages(written.image.value, r.images)) else None)
      else EstimateCost(prices, r.model, r.slug, r.prompt, r.completion);
    Event(Key(r.day, r.client, r.model), Some(if r.slug.Some? && r.slug.value != "" then r.slug.value else r.model),
          r.kind, r.prompt, r.completion, r.images, written, cost, r.at)
  }

  function Upsert(daily: map<Key, Daily>, e: Event): map<Key, Daily> {
    daily[e.key := Daily(e.slug, if e.key in daily then Plus(daily[e.key].totals, Share(e)) else Share(e))]
  }

  /** The two look-ups part only where a table prices the empty name. */
  predicate PricedAlike(prices: map<string, ModelPrice>, r: Request) {
    || r.kind.Image? || r.model != "" || "" !in prices
    || TokenCost(r.prompt, r.completion, prices[""]) == EstimateCost(prices, "", r.slug, r.prompt, r.completion)
  }

  /** The cost written on an event is the sum of its components exactly if the look-up for the cost and
      the one for the components find the same, as they do for every request that names its model. */
  lemma EventBalancesIff(prices: map<string, ModelPrice>, r: Request)
    ensures Balanced(Share(EventOf(prices, r))) <==> PricedAlike(prices, r)
  {
  }

  /** What is estimated before the work, at the same counts and prices, is what is recorded after it. */
  lemma EstimateIsRecorded(prices: map<string, ModelPrice>, r: Request)
    requires r.model != ""
    ensures EventOf(prices, r).cost ==
            if r.kind.Image? then EstimateImageCost(prices, r.model, r.slug, r.images)
            else EstimateCost(prices, r.model, r.slug, r.prompt, r.completion)
    ensures ResolvedPrice(prices, r) == Lookup(prices, r.model, r.slug)
  {
  }

  predicate CountsMore(after: Totals, before: Totals, prompt: int, completion: int) {
    && after.prompt == before.prompt + prompt
    && after.completion == before.completion + completion
    && after.requests == before.requests + 1
  }

  /** NULL only while nothing was priced; a price adds to what there was. */
  predicate AccruesMore(after: Option<real>, before: Option<real>, more: Option<real>) {
    && (after.None? <==> before.None? && more.None?)
    && (after.Some? ==>
          after.value == (if before.Some? then before.value else 0.0) + (if more.Some? then more.value else 0.0))
  }

  lemma RowMore(before: map<Key, Daily>, e: Event)
    ensures var k, after := e.key, Upsert(before, e);
            && k in after && after - {k} == before - {k}
            && CountsMore(after[k].totals, if k in before then before[k].totals else ZERO, e.prompt, e.completion)
            && AccruesMore(after[k].totals.cost, if k in before then before[k].totals.cost else None, e.cost)
  {
  }

  /** What a request is priced at: by its model's name, or else its slug's. */
  predicate PricedBy(p: Option<ModelPrice>, prices: map<string, ModelPrice>, r: Request) {
    if r.model in prices then p == Some(prices[r.model])
    else if r.slug.Some? && r.slug.value != "" && r.slug.value in prices then p == Some(prices[r.slug.value])
    else p.None?
  }

  /** What is written of a request, column by column: its own counts, and the prices of its kind. */
  lemma RecordedColumns(prices: map<string, ModelPrice>, r: Request, p: Option<ModelPrice>)
    requires PricedBy(p, prices, r)
    ensures var e := EventOf(prices, r);
            && e.key == Key(r.day, r.client, r.model) && e.kind == r.kind && e.recordedAt == r.at
            && e.slug == Some(if r.slug.Some? && r.slug.value != "" then r.slug.value else r.model)
            && e.prompt == r.prompt && e.completion == r.completion && e.images == r.images
            && e.price.prompt == (if p.Some? && !r.kind.Image? then p.value.prompt else None)
            && e.price.completion == (if p.Some? && !r.kind.Image? then p.value.completion else None)
            && e.price.image == (if p.Some? && r.kind.Image? then p.value.image else None)
            && (r.kind.Image? ==> (e.cost.Some? <==> e.price.image.Some?))
            && (r.kind.Image? && e.cost.Some? ==> e.cost.value == e.price.image.value * r.images as real)
            && (r.model != "" && !r.kind.Image? ==> (e.cost.Some? <==> e.price.prompt.Some? && e.price.completion.Some?))
            && (r.model != "" && !r.kind.Image? && e.cost.Some? ==>
                  e.cost.value * 1000000.0 ==
                  r.prompt as real * e.price.prompt.value + r.completion as real * e.price.completion.value)
  {
  }

  /** And the three parts of an event's cost go where they belong in its row, at the prices written on it. */
  lemma RecordedParts(daily: map<Key, Daily>, e: Event)
    ensures e.key in Upsert(daily, e)
    ensures var row, held := Upsert(daily, e)[e.key], if e.key in daily then daily[e.key].totals else ZERO;
            var tokens := !e.kind.Image? && e.price.prompt.Some? && e.price.completion.Some?;
            && row.slug == e.slug
            && AccruesMore(row.totals.promptCost, held.promptCost,
                           if tokens then Some(e.prompt as real * e.price.prompt.value / 1000000.0) else None)
            && AccruesMore(row.totals.completionCost, held.completionCost,
                           if tokens then Some(e.completion as real * e.price.completion.value / 1000000.0) else None)
            && AccruesMore(row.totals.imageCost, held.imageCost,
                           if e.kind.Image? && e.price.image.Some? then Some(e.images as real * e.price.image.value) else None)
  {
  }

  class UsageDb {
    var events: seq<Event>
    var daily: map<Key, Daily>

    constructor (daily: map<Key, Daily>)
      ensures events == [] && this.daily == daily
    {
      events := [];
      this.daily := daily;
    }

    /** One transaction: the event, and its rollup inserted or accumulated in place. */
    method RecordUsage(prices: map<string, ModelPrice>, r: Request) returns (cost: Option<real>)
      modifies this
      ensures events == old(events) + [EventOf(prices, r)]
      ensures daily == Upsert(old(daily), EventOf(prices, r))
      ensures cost == EventOf(prices, r).cost
      // The request's counts, on top of what its row held or of nothing, and no other row.
      ensures var k := Key(r.day, r.client, r.model);
              && k in daily && daily - {k} == old(daily) - {k}
              && CountsMore(daily[k].totals, if k in old(daily) then old(daily)[k].totals else ZERO, r.prompt, r.completion)
              && AccruesMore(daily[k].totals.cost, if k in old(daily) then old(daily)[k].totals.cost else None, cost)
    {
      var price := GetPrice(prices, r.model);
      if price.None? && r.slug.Some? && r.slug.value != "" {
        price := GetPrice(prices, r.slug.value);
      }
      var promptPrice, completionPrice, imagePrice: Option<real> := None, None, None;
      var promptCost, completionCost, imageCost: Option<real> := None, None, None;
      if r.kind.Image? {
        imagePrice := if price.Some? then price.value.image else None;
        imageCost := if imagePrice.Some? then Some(ForImages(imagePrice.value, r.images)) else None;
        cost := imageCost;
      } else {
        promptPrice := if price.Some? then price.value.prompt else None;
        completionPrice := if price.Some? then price.value.completion else None;
        if promptPrice.Some? && completionPrice.Some? {
          promptCost := Some(AtRate(r.prompt, promptPrice.value));
          completionCost := Some(AtRate(r.completion, completionPrice.value));
        }
        cost := EstimateCost(prices, r.model, r.slug, r.prompt, r.completion);
      }
      var key := Key(r.day, r.client, r.model);
      var slug := Some(if r.slug.Some? && r.slug.value != "" then r.slug.value else r.model);
      var mine := Totals(r.prompt, r.completion, 1, cost, promptCost, completionCost, imageCost);
      events := events + [Event(key, slug, r.kind, r.prompt, r.completion, r.images,
                                ModelPrice(promptPrice, completionPrice, imagePrice), cost, r.at)];
      RowMore(daily, EventOf(prices, r));
      daily := daily[key := Daily(slug, if key in daily then Plus(daily[key].totals, mine) else mine)];
    }

    /** apply_changes: price the events, gather each day's corrections, add them to the rollup. */
    method ApplyChanges(repairs: seq<Repair>) returns (changed: nat, touched: nat)
      requires Within(events, repairs)
      modifies this
      ensures events == Repaired(old(events), repairs)
      ensures daily.Keys == old(daily).Keys
      ensures forall k :: k in daily ==>
                daily[k] == Daily(old(daily)[k].slug, Plus(old(daily)[k].totals, Correction(Fixes(repairs), k)))
      ensures changed == |repairs|
    {
      var deltas := PriceEvents(repairs);
      touched := AddToRollup(deltas);
      changed := |repairs|;
    }

    method PriceEvents(repairs: seq<Repair>) returns (deltas: map<Key, Totals>)
      requires Within(events, repairs)
      modifies this`events
      ensures events == Repaired(old(events), repairs)
      ensures GatheredAll(deltas, Fixes(repairs))
    {
      ghost var before := events;
      deltas := map[];
      PricedNone(before, repairs);
      for i := 0 to |repairs|
        invariant PricedTo(before, repairs, i, events, deltas)
      {
        PricedNext(before, repairs, i, events, deltas);
        var e := events[repairs[i].event];
        var fix := FixOf(repairs[i]);
        events := events[repairs[i].event := Priced(e, repairs[i])];
        deltas := Gather(deltas, fix);
      }
      PricedAll(before, repairs, events, deltas);
    }

    /** Added to the rows there are, never recomputed. */
    method AddToRollup(deltas: map<Key, Totals>) returns (touched: nat)
      modifies this`daily
      ensures daily.Keys == old(daily).Keys
      ensures forall k :: k in daily ==>
                daily[k] == Daily(old(daily)[k].slug, Plus(old(daily)[k].totals, Gathered(deltas, k)))
    {
      var left := deltas.Keys;
      touched := 0;
      while left != {}
        invariant left <= deltas.Keys
        invariant daily.Keys == old(daily).Keys
        invariant forall k :: k in daily ==>
                    daily[k] == if k in left then old(daily)[k]
                                else Daily(old(daily)[k].slug, Plus(old(daily)[k].totals, Gathered(deltas, k)))
        decreases left
      {
        var k :| k in left;
        left := left - {k};
        if k in daily {
          daily := daily[k := daily[k].(totals := Plus(daily[k].totals, deltas[k]))];
          touched := touched + 1;
        }
      }
    }

    /** plan: the unpriced events, sorted into repairable, older than their price, and unpriced still. */
    method Plan(prices: map<string, PriceRow>, basePrices: map<Kind, ModelPrice>, ignoreAge: bool)
      returns (repairable: seq<Repair>, tooOld: seq<nat>, unpriced: seq<nat>)
      ensures repairable == Repairable(events, prices, basePrices, ignoreAge)
      ensures |repairable| + |tooOld| + |unpriced| == Unpriced(events)
      ensures LeftOver(events, prices, basePrices, ignoreAge, tooOld, unpriced)
    {
      repairable, tooOld, unpriced := [], [], [];
      PlannedNone(events, prices, basePrices, ignoreAge);
      for i := 0 to |events|
        invariant Planned(events, i, prices, basePrices, ignoreAge, repairable, tooOld, unpriced)
      {
        var e := events[i];
        PlannedNext(events, i, prices, basePrices, ignoreAge, repairable, tooOld, unpriced);
        if e.cost.Some? {
          continue;
        }
        var price := PriceRowFor(prices, e);
        if price.None? && ignoreAge && e.kind in basePrices {
          price := Some(PriceRow(basePrices[e.kind], e.recordedAt));
        }
        if price.None? {
          unpriced := unpriced + [i];
        } else if !ignoreAge && e.recordedAt <= price.value.updatedAt {
          tooOld := tooOld + [i];
        } else if CostAt(e, price.value.price).None? {
          unpriced := unpriced + [i];
        } else {
          repairable := repairable + [Repair(i, e, price.value.price)];
        }
      }
      PlannedAll(events, prices, basePrices, ignoreAge, repairable, tooOld, unpriced);
    }
  }

  function Gathered(deltas: map<Key, Totals>, k: Key): Totals {
    if k in deltas then deltas[k] else ZERO
  }

  // ---------- Repricing ----------

  /** A repairable event, by position, as the script read it, with the price found for it. */
  datatype Repair = Repair(event: nat, row: Event, price: ModelPrice)

  datatype PriceRow = PriceRow(price: ModelPrice, updatedAt: int)

  /** The script's _cost, kind for kind the gateway's: None where it too would record nothing. */
  function CostAt(e: Event, p: ModelPrice): Option<real> {
    if e.kind.Image? then (if p.image.Some? then Some(ForImages(p.image.value, e.images)) else None)
    else TokenCost(e.prompt, e.completion, p)
  }

  /** By either name; an absent slug is the empty name. */
  function PriceRowFor(prices: map<string, PriceRow>, e: Event): Option<PriceRow> {
    var slug := if e.slug.Some? then e.slug.value else "";
    if e.key.model in prices then Some(prices[e.key.model])
    else if slug in prices then Some(prices[slug])
    else None
  }

  /** Which of its two names a price row goes by. */
  function NameIn(prices: map<string, PriceRow>, e: Event): string {
    if e.key.model in prices then e.key.model else if e.slug.Some? then e.slug.value else ""
  }

  predicate Fits(e: Event, p: ModelPrice) {
    if e.kind.Image? then p.image.Some? else p.prompt.Some? && p.completion.Some?
  }

  /** Unpriced, and no newer than the price it could have had. */
  predicate TooOld(e: Event, prices: map<string, PriceRow>, ignoreAge: bool) {
    var name := NameIn(prices, e);
    e.cost.None? && name in prices && !ignoreAge && e.recordedAt <= prices[name].updatedAt
  }

  /** Unpriced, and to be repaired at this price: its own, if it is newer than that or its age is ignored;
      or the base price of its kind, if it has none and its age is ignored. */
  predicate WantedAt(e: Event, prices: map<string, PriceRow>, basePrices: map<Kind, ModelPrice>, ignoreAge: bool, p: ModelPrice) {
    var name := NameIn(prices, e);
    && e.cost.None? && Fits(e, p)
    && if name in prices then p == prices[name].price && (ignoreAge || e.recordedAt > prices[name].updatedAt)
       else ignoreAge && e.kind in basePrices && p == basePrices[e.kind]
  }

  /** Unpriced, not too old, and no price found that fits. */
  predicate Priceless(e: Event, prices: map<string, PriceRow>, basePrices: map<Kind, ModelPrice>, ignoreAge: bool) {
    var name := NameIn(prices, e);
    && e.cost.None? && !TooOld(e, prices, ignoreAge)
    && if name in prices then !Fits(e, prices[name].price)
       else !(ignoreAge && e.kind in basePrices && Fits(e, basePrices[e.kind]))
  }

  /** Which events a plan leaves unpriced, and why. */
  ghost predicate LeftOver(events: seq<Event>, prices: map<string, PriceRow>, basePrices: map<Kind, ModelPrice>, ignoreAge: bool,
                           tooOld: seq<nat>, unpriced: seq<nat>)
  {
    && (forall i :: i in tooOld || i in unpriced ==> i < |events|)
    && (forall i :: 0 <= i < |events| ==>
          && (i in tooOld <==> TooOld(events[i], prices, ignoreAge))
          && (i in unpriced <==> Priceless(events[i], prices, basePrices, ignoreAge)))
  }

  lemma LeftOverNext(events: seq<Event>, i: nat, prices: map<string, PriceRow>, basePrices: map<Kind, ModelPrice>,
                     ignoreAge: bool, tooOld: seq<nat>, unpriced: seq<nat>)
    requires i < |events| && LeftOver(events[..i], prices, basePrices, ignoreAge, tooOld, unpriced)
    ensures var aged, none := TooOld(events[i], prices, ignoreAge), Priceless(events[i], prices, basePrices, ignoreAge);
            && !(aged && none)
            && LeftOver(events[..i + 1], prices, basePrices, ignoreAge,
                        if aged then tooOld + [i] else tooOld, if none then unpriced + [i] else unpriced)
  {
  }

  /** How far Plan has got. */
  ghost predicate Planned(events: seq<Event>, i: nat, prices: map<string, PriceRow>, basePrices: map<Kind, ModelPrice>,
                          ignoreAge: bool, repairable: seq<Repair>, tooOld: seq<nat>, unpriced: seq<nat>)
  {
    && i <= |events|
    && repairable == Repairable(events[..i], prices, basePrices, ignoreAge)
    && |repairable| + |tooOld| + |unpriced| == Unpriced(events[..i])
    && LeftOver(events[..i], prices, basePrices, ignoreAge, tooOld, unpriced)
  }

  lemma PlannedNone(events: seq<Event>, prices: map<string, PriceRow>, basePrices: map<Kind, ModelPrice>, ignoreAge: bool)
    ensures Planned(events, 0, prices, basePrices, ignoreAge, [], [], [])
  {
    assert events[..0] == [];
  }

  lemma PlannedAll(events: seq<Event>, prices: map<string, PriceRow>, basePrices: map<Kind, ModelPrice>, ignoreAge: bool,
                   repairable: seq<Repair>, tooOld: seq<nat>, unpriced: seq<nat>)
    requires Planned(events, |events|, prices, basePrices, ignoreAge, repairable, tooOld, unpriced)
    ensures repairable == Repairable(events, prices, basePrices, ignoreAge)
    ensures |repairable| + |tooOld| + |unpriced| == Unpriced(events)
    ensures LeftOver(events, prices, basePrices, ignoreAge, tooOld, unpriced)
  {
    assert events[..|events|] == events;
  }

  lemma PlannedNext(events: seq<Event>, i: nat, prices: map<string, PriceRow>, basePrices: map<Kind, ModelPrice>,
                    ignoreAge: bool, repairable: seq<Repair>, tooOld: seq<nat>, unpriced: seq<nat>)
    requires i < |events| && Planned(events, i, prices, basePrices, ignoreAge, repairable, tooOld, unpriced)
    ensures var e := events[i];
            var own := PriceRowFor(prices, e);
            var price := if own.None? && ignoreAge && e.kind in basePrices then Some(PriceRow(basePrices[e.kind], e.recordedAt))
                         else own;
            if e.cost.Some? then Planned(events, i + 1, prices, basePrices, ignoreAge, repairable, tooOld, unpriced)
            else if price.None? then Planned(events, i + 1, prices, basePrices, ignoreAge, repairable, tooOld, unpriced + [i])
            else if !ignoreAge && e.recordedAt <= price.value.updatedAt then
              Planned(events, i + 1, prices, basePrices, ignoreAge, repairable, tooOld + [i], unpriced)
            else if CostAt(e, price.value.price).None? then
              Planned(events, i + 1, prices, basePrices, ignoreAge, repairable, tooOld, unpriced + [i])
            else
              Planned(events, i + 1, prices, basePrices, ignoreAge, repairable + [Repair(i, e, price.value.price)], tooOld, unpriced)
  {
    PlanNext(events, i, prices, basePrices, ignoreAge);
    LeftOverNext(events, i, prices, basePrices, ignoreAge, tooOld, unpriced);
  }

  lemma WantedAtIff(e: Event, prices: map<string, PriceRow>, basePrices: map<Kind, ModelPrice>, ignoreAge: bool, p: ModelPrice)
    ensures WantedAt(e, prices, basePrices, ignoreAge, p) <==>
            e.cost.None? && PriceFor(prices, basePrices, ignoreAge, e) == Some(p) && CostAt(e, p).Some?
  {
  }

  /** The price an unpriced event should have had, when it was in force: under `ignoreAge` any
      price will do, down to the base price of the event's kind. */
  function PriceFor(prices: map<string, PriceRow>, basePrices: map<Kind, ModelPrice>, ignoreAge: bool, e: Event)
    : Option<ModelPrice>
  {
    var p := PriceRowFor(prices, e);
    if p.Some? then (if ignoreAge || e.recordedAt > p.value.updatedAt then Some(p.value.price) else None)
    else if ignoreAge && e.kind in basePrices then Some(basePrices[e.kind])
    else None
  }

  function Repairable(events: seq<Event>, prices: map<string, PriceRow>, basePrices: map<Kind, ModelPrice>, ignoreAge: bool)
    : (repairs: seq<Repair>)
    ensures Sound(events, repairs)
  {
    if events == [] then []
    else
      var n := |events| - 1;
      var e := events[n];
      var p := PriceFor(prices, basePrices, ignoreAge, e);
      var earlier := Repairable(events[..n], prices, basePrices, ignoreAge);
      assert forall r :: r in earlier ==> events[..n][r.event] == events[r.event];
      if e.cost.None? && p.Some? && CostAt(e, p.value).Some? then earlier + [Repair(n, e, p.value)] else earlier
  }

  lemma PlanNext(events: seq<Event>, i: nat, prices: map<string, PriceRow>, basePrices: map<Kind, ModelPrice>, ignoreAge: bool)
    requires i < |events|
    ensures var e := events[i];
            var p := PriceFor(prices, basePrices, ignoreAge, e);
            && Unpriced(events[..i + 1]) == Unpriced(events[..i]) + (if e.cost.None? then 1 else 0)
            && Repairable(events[..i + 1], prices, basePrices, ignoreAge)
               == Repairable(events[..i], prices, basePrices, ignoreAge)
                  + (if e.cost.None? && p.Some? && CostAt(e, p.value).Some? then [Repair(i, e, p.value)] else [])
  {
    assert events[..i + 1][..i] == events[..i];
  }

  /** Each repair is of an event of its own, still as it was read, unpriced, at a price that prices it. */
  predicate Sound(events: seq<Event>, repairs: seq<Repair>) {
    && (forall r :: r in repairs ==>
          r.event < |events| && events[r.event] == r.row && r.row.cost.None? && CostAt(r.row, r.price).Some?)
    && (forall i, j :: 0 <= i < j < |repairs| ==> repairs[i].event < repairs[j].event)
  }

  function Unpriced(events: seq<Event>): nat {
    if events == [] then 0
    else Unpriced(events[..|events| - 1]) + if events[|events| - 1].cost.None? then 1 else 0
  }

  /** The price columns a repair writes: those of the event's kind. */
  function Priced(e: Event, r: Repair): Event {
    e.(price := if r.row.kind.Image? then e.price.(image := r.price.image)
                else e.price.(prompt := r.price.prompt, completion := r.price.completion),
       cost := CostAt(r.row, r.price))
  }

  predicate Within(events: seq<Event>, repairs: seq<Repair>) {
    forall i :: 0 <= i < |repairs| ==> repairs[i].event < |events|
  }

  function Repaired(events: seq<Event>, repairs: seq<Repair>): (after: seq<Event>)
    requires Within(events, repairs)
    ensures |after| == |events|
  {
    if repairs == [] then events
    else
      var r := repairs[|repairs| - 1];
      var earlier := Repaired(events, repairs[..|repairs| - 1]);
      earlier[r.event := Priced(earlier[r.event], r)]
  }

  /** What a repair adds to which row's columns. */
  datatype Fix = Fix(key: Key, delta: Totals)

  function FixOf(r: Repair): Fix {
    var e := r.row;
    var priced := !e.kind.Image? && r.price.prompt.Some? && r.price.completion.Some?;
    Fix(e.key,
        Totals(0, 0, 0, CostAt(e, r.price),
               if priced then Some(AtRate(e.prompt, r.price.prompt.value)) else None,
               if priced then Some(AtRate(e.completion, r.price.completion.value)) else None,
               if e.kind.Image? && r.price.image.Some? then Some(ForImages(r.price.image.value, e.images)) else None))
  }

  function Fixes(repairs: seq<Repair>): seq<Fix> {
    seq(|repairs|, i requires 0 <= i < |repairs| => FixOf(repairs[i]))
  }

  function Correction(fixes: seq<Fix>, k: Key): Totals {
    if fixes == [] then ZERO
    else
      var fix := fixes[|fixes| - 1];
      var earlier := Correction(fixes[..|fixes| - 1], k);
      if fix.key == k then Plus(earlier, fix.delta) else earlier
  }

  ghost predicate GatheredAll(deltas: map<Key, Totals>, fixes: seq<Fix>) {
    forall k :: Gathered(deltas, k) == Correction(fixes, k)
  }

  function Gather(deltas: map<Key, Totals>, fix: Fix): map<Key, Totals> {
    deltas[fix.key := Plus(Gathered(deltas, fix.key), fix.delta)]
  }

  lemma GatherNext(deltas: map<Key, Totals>, fixes: seq<Fix>, i: nat)
    requires i < |fixes| && GatheredAll(deltas, fixes[..i])
    ensures GatheredAll(Gather(deltas, fixes[i]), fixes[..i + 1])
  {
    assert fixes[..i + 1][..i] == fixes[..i];
    forall k
      ensures Gathered(Gather(deltas, fixes[i]), k) == Correction(fixes[..i + 1], k)
    {
      assert Gathered(deltas, k) == Correction(fixes[..i], k);
    }
  }

  /** Repairs leave an event's key, kind and counts alone. */
  lemma {:induction false} RepairedKeeps(events: seq<Event>, repairs: seq<Repair>, i: nat)
    requires i < |events| && Within(events, repairs)
    ensures var e, e' := events[i], Repaired(events, repairs)[i];
            e' == e.(price := e'.price, cost := e'.cost)
    ensures (forall r :: r in repairs ==> r.event != i) ==> Repaired(events, repairs)[i] == events[i]
  {
    if repairs != [] {
      RepairedKeeps(events, repairs[..|repairs| - 1], i);
    }
  }

  lemma RepairedNext(events: seq<Event>, repairs: seq<Repair>, i: nat)
    requires i < |repairs| && Within(events, repairs)
    ensures var now, r := Repaired(events, repairs[..i]), repairs[i];
            Repaired(events, repairs[..i + 1]) == now[r.event := Priced(now[r.event], r)]
  {
    assert repairs[..i + 1][..i] == repairs[..i];
  }

  /** How far PriceEvents has got. */
  ghost predicate PricedTo(before: seq<Event>, repairs: seq<Repair>, i: nat, now: seq<Event>, deltas: map<Key, Totals>) {
    && i <= |repairs|
    && Within(before, repairs)
    && now == Repaired(before, repairs[..i])
    && GatheredAll(deltas, Fixes(repairs)[..i])
  }

  lemma PricedNone(before: seq<Event>, repairs: seq<Repair>)
    requires Within(before, repairs)
    ensures PricedTo(before, repairs, 0, before, map[])
  {
    assert repairs[..0] == [] && Fixes(repairs)[..0] == [];
    assert forall k :: Gathered(map[], k) == ZERO;
  }

  lemma PricedNext(before: seq<Event>, repairs: seq<Repair>, i: nat, now: seq<Event>, deltas: map<Key, Totals>)
    requires i < |repairs| && PricedTo(before, repairs, i, now, deltas)
    ensures repairs[i].event < |now|
    ensures var r := repairs[i];
            PricedTo(before, repairs, i + 1, now[r.event := Priced(now[r.event], r)], Gather(deltas, FixOf(r)))
  {
    RepairedNext(before, repairs, i);
    GatherNext(deltas, Fixes(repairs), i);
  }

  lemma PricedAll(before: seq<Event>, repairs: seq<Repair>, now: seq<Event>, deltas: map<Key, Totals>)
    requires PricedTo(before, repairs, |repairs|, now, deltas)
    ensures now == Repaired(before, repairs)
    ensures GatheredAll(deltas, Fixes(repairs))
  {
    assert repairs[..|repairs|] == repairs;
    assert Fixes(repairs)[..|repairs|] == Fixes(repairs);
  }
}
