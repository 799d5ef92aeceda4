/**
 * The jelly-roll detector: for every (currency, strike, settlement) the snapshot fills one
 * bucket per expiry with the call and the put seen there (the later entry overwrites the
 * earlier one), the expiries holding both are sorted, and every pair of neighbouring
 * expiries is evaluated as "buy the near call and sell the near put, sell the far call and
 * buy the far put", which must open for a credit.
 */
module ArbDetectJelly {
  import opened Wrappers
  import opened ArbModel
  import opened ArbConfig
  import opened ArbFees
  import opened Sorting
  import opened ArbDetectCommon

  datatype RollKey = RollKey(currency: Currency, strike: real, settlement: SettlementCurrency)

  function RollKeyOf(s: InstrumentSnapshot): RollKey {
    RollKey(s.instrument.currency, s.instrument.strike, s.instrument.settlementCurrency)
  }

  /** The call and the put last seen at one expiry. */
  datatype ExpiryBucket = ExpiryBucket(call: Option<InstrumentSnapshot>, put: Option<InstrumentSnapshot>)

  type Buckets = map<RollKey, map<int, ExpiryBucket>>

  /** The bucket entry one instrument writes: its own slot of its key and expiry. */
  function Place(b: Buckets, s: InstrumentSnapshot): (r: Buckets)
    ensures r.Keys == b.Keys + {RollKeyOf(s)}
    ensures forall k :: k in b && k != RollKeyOf(s) ==> r[k] == b[k]
    ensures RollKeyOf(s) in b ==> r[RollKeyOf(s)].Keys == b[RollKeyOf(s)].Keys + {s.instrument.expiry}
    ensures RollKeyOf(s) !in b ==> r[RollKeyOf(s)].Keys == {s.instrument.expiry}
    ensures forall e :: RollKeyOf(s) in b && e in b[RollKeyOf(s)] && e != s.instrument.expiry ==>
      r[RollKeyOf(s)][e] == b[RollKeyOf(s)][e]
    ensures s.instrument.optionKind == Call ==> r[RollKeyOf(s)][s.instrument.expiry].call == Some(s)
    ensures s.instrument.optionKind == Put ==> r[RollKeyOf(s)][s.instrument.expiry].put == Some(s)
  {
    var key := RollKeyOf(s);
    var inner := if key in b then b[key] else map[];
    var bucket := if s.instrument.expiry in inner then inner[s.instrument.expiry] else ExpiryBucket(None, None);
    var next := match s.instrument.optionKind
      case Call => bucket.(call := Some(s))
      case Put => bucket.(put := Some(s));
    b[key := inner[s.instrument.expiry := next]]
  }

  /** The buckets after the grouping loop has seen `xs`. */
  function BucketsOf(xs: seq<InstrumentSnapshot>): Buckets {
    if |xs| == 0 then map[] else Place(BucketsOf(xs[..|xs| - 1]), xs[|xs| - 1])
  }

  /** The call and the put of a slot, when present, are entries of `xs` of that key, expiry and kind. */
  predicate SlotSound(slot: ExpiryBucket, xs: seq<InstrumentSnapshot>, k: RollKey, e: int) {
    && (slot.call.Some? ==> var c := slot.call.value;
          c in xs && RollKeyOf(c) == k && c.instrument.expiry == e && c.instrument.optionKind == Call)
    && (slot.put.Some? ==> var p := slot.put.value;
          p in xs && RollKeyOf(p) == k && p.instrument.expiry == e && p.instrument.optionKind == Put)
  }

  /** Every slot holds an entry of `xs` of the slot's key, expiry and kind. */
  ghost predicate BucketsSound(b: Buckets, xs: seq<InstrumentSnapshot>) {
    forall k, e :: k in b && e in b[k] ==> SlotSound(b[k][e], xs, k, e)
  }

  lemma {:induction false} BucketsOfSound(xs: seq<InstrumentSnapshot>)
    ensures BucketsSound(BucketsOf(xs), xs)
  {
    if |xs| > 0 {
      var front := xs[..|xs| - 1];
      BucketsOfSound(front);
      assert xs == front + [xs[|xs| - 1]];
      PlaceSound(BucketsOf(front), front, xs[|xs| - 1]);
    }
  }

  /** Writing an entry keeps every slot sound, the entry joining the input. */
  lemma PlaceSound(b: Buckets, xs: seq<InstrumentSnapshot>, x: InstrumentSnapshot)
    requires BucketsSound(b, xs)
    ensures BucketsSound(Place(b, x), xs + [x])
  {
    var r := Place(b, x);
    forall k, e | k in r && e in r[k]
      ensures SlotSound(r[k][e], xs + [x], k, e)
    {
      if k == RollKeyOf(x) && e == x.instrument.expiry {
        var prior := if k in b && e in b[k] then b[k][e] else ExpiryBucket(None, None);
        assert SlotSound(prior, xs, k, e);
        SlotGrows(prior, xs, x, k, e);
      } else {
        SlotGrows(b[k][e], xs, x, k, e);
      }
    }
  }

  lemma SlotGrows(slot: ExpiryBucket, xs: seq<InstrumentSnapshot>, x: InstrumentSnapshot, k: RollKey, e: int)
    requires SlotSound(slot, xs, k, e)
    ensures SlotSound(slot, xs + [x], k, e)
    ensures RollKeyOf(x) == k && x.instrument.expiry == e ==>
      SlotSound(if x.instrument.optionKind == Call then slot.(call := Some(x)) else slot.(put := Some(x)), xs + [x], k, e)
  {
    assert forall y :: y in xs ==> y in xs + [x];
    assert x in xs + [x];
  }

  /**
   * The later entry wins: once `x` is written, its slot keeps it as long as no later entry
   * has the same key, expiry and kind.
   */
  lemma {:induction false} LaterEntryWins(xs: seq<InstrumentSnapshot>, x: InstrumentSnapshot, ys: seq<InstrumentSnapshot>)
    requires forall y :: y in ys ==>
      RollKeyOf(y) != RollKeyOf(x) || y.instrument.expiry != x.instrument.expiry
      || y.instrument.optionKind != x.instrument.optionKind
    ensures var b := BucketsOf(xs + [x] + ys);
      && RollKeyOf(x) in b && x.instrument.expiry in b[RollKeyOf(x)]
      && (x.instrument.optionKind == Call ==> b[RollKeyOf(x)][x.instrument.expiry].call == Some(x))
      && (x.instrument.optionKind == Put ==> b[RollKeyOf(x)][x.instrument.expiry].put == Some(x))
    decreases |ys|
  {
    if |ys| == 0 {
      assert xs + [x] + ys == xs + [x];
      assert (xs + [x])[..|xs|] == xs;
    } else {
      var front := ys[..|ys| - 1];
      assert forall y :: y in front ==> y in ys;
      LaterEntryWins(xs, x, front);
      assert (xs + [x] + ys)[..|xs + [x] + ys| - 1] == xs + [x] + front;
    }
  }

  /** `buckets.entry(key).or_default().entry(expiry).or_default()` then the kind's slot, per entry. */
  method BuildBuckets(snapshot: seq<InstrumentSnapshot>) returns (buckets: Buckets)
    ensures buckets == BucketsOf(snapshot)
  {
    buckets := map[];
    var i := 0;
    while i < |snapshot|
      invariant 0 <= i <= |snapshot|
      invariant buckets == BucketsOf(snapshot[..i])
    {
      var inst := snapshot[i];
      var key := RollKeyOf(inst);
      var expiryMap := if key in buckets then buckets[key] else map[];
      var bucket := if inst.instrument.expiry in expiryMap then expiryMap[inst.instrument.expiry] else ExpiryBucket(None, None);
      match inst.instrument.optionKind {
        case Call => bucket := bucket.(call := Some(inst));
        case Put => bucket := bucket.(put := Some(inst));
      }
      buckets := buckets[key := expiryMap[inst.instrument.expiry := bucket]];
      assert snapshot[..i + 1][..i] == snapshot[..i];
      i := i + 1;
    }
    assert snapshot[..i] == snapshot;
  }

  /** An expiry whose bucket holds both a call and a put. */
  datatype RollExpiry = RollExpiry(expiry: int, call: InstrumentSnapshot, put: InstrumentSnapshot)

  function RollExpiryKey(e: RollExpiry): real {
    e.expiry as real
  }

  function ExpiriesOf(xs: seq<RollExpiry>): set<int> {
    set x | x in xs :: x.expiry
  }

  /**
   * `into_iter().filter_map(|(e, b)| Some((e, b.call?, b.put?)))`: every complete bucket
   * once, in the map's (unspecified) order.
   */
  method CompleteExpiries(expiryMap: map<int, ExpiryBucket>) returns (expiries: seq<RollExpiry>)
    ensures forall x :: x in expiries ==>
      x.expiry in expiryMap && expiryMap[x.expiry] == ExpiryBucket(Some(x.call), Some(x.put))
    ensures forall e :: e in expiryMap && expiryMap[e].call.Some? && expiryMap[e].put.Some? ==>
      e in ExpiriesOf(expiries)
    ensures DistinctKeys(expiries, RollExpiryKey)
  {
    expiries := [];
    var remaining := expiryMap.Items;
    while remaining != {}
      invariant remaining <= expiryMap.Items
      invariant forall x :: x in expiries ==>
        && x.expiry in expiryMap && (x.expiry, expiryMap[x.expiry]) !in remaining
        && expiryMap[x.expiry] == ExpiryBucket(Some(x.call), Some(x.put))
      invariant forall e :: e in expiryMap && (e, expiryMap[e]) !in remaining
                            && expiryMap[e].call.Some? && expiryMap[e].put.Some? ==>
        e in ExpiriesOf(expiries)
      invariant DistinctKeys(expiries, RollExpiryKey)
      decreases |remaining|
    {
      var item :| item in remaining;
      var (expiry, bucket) := item;
      assert expiry in expiryMap && expiryMap[expiry] == bucket;
      if bucket.call.Some? && bucket.put.Some? {
        var x := RollExpiry(expiry, bucket.call.value, bucket.put.value);
        assert ExpiriesOf(expiries + [x]) == ExpiriesOf(expiries) + {expiry};
        expiries := expiries + [x];
      }
      remaining := remaining - {item};
    }
  }

  // ---------------------------------------------------------------- one window

  /** Bought: the near call's ask and the far put's ask; sold: the near put's and the far call's bids. */
  datatype RollLevels = RollLevels(askCallNear: QuoteLevel, bidPutNear: QuoteLevel, bidCallFar: QuoteLevel, askPutFar: QuoteLevel)

  function RollLevelsOf(config: AppConfig, near: RollExpiry, far: RollExpiry): (r: Option<RollLevels>)
    ensures r.Some? <==> DepthLevel(near.call.quote.bestAsk, config).Some? && DepthLevel(near.put.quote.bestBid, config).Some?
                         && DepthLevel(far.call.quote.bestBid, config).Some? && DepthLevel(far.put.quote.bestAsk, config).Some?
    ensures r.Some? ==>
      && near.call.quote.bestAsk == Some(r.value.askCallNear) && near.put.quote.bestBid == Some(r.value.bidPutNear)
      && far.call.quote.bestBid == Some(r.value.bidCallFar) && far.put.quote.bestAsk == Some(r.value.askPutFar)
  {
    var askCallNear := DepthLevel(near.call.quote.bestAsk, config);
    var bidPutNear := DepthLevel(near.put.quote.bestBid, config);
    var bidCallFar := DepthLevel(far.call.quote.bestBid, config);
    var askPutFar := DepthLevel(far.put.quote.bestAsk, config);
    if askCallNear.None? || bidPutNear.None? || bidCallFar.None? || askPutFar.None? then None
    else Some(RollLevels(askCallNear.value, bidPutNear.value, bidCallFar.value, askPutFar.value))
  }

  function RollSize(config: AppConfig, near: RollExpiry, l: RollLevels): (size: real)
    ensures size <= l.askCallNear.amount && size <= l.bidPutNear.amount
    ensures size <= l.bidCallFar.amount && size <= l.askPutFar.amount
    ensures size <= MaxContractsFromTicket(config, near.call)
  {
    Min(Min(Min(Min(l.askCallNear.amount, l.bidPutNear.amount), l.bidCallFar.amount), l.askPutFar.amount),
        MaxContractsFromTicket(config, near.call))
  }

  /** Paid for the two bought legs less received for the two sold legs, in the settlement currency. */
  function RollDebit(near: RollExpiry, far: RollExpiry, l: RollLevels, size: real): real {
    l.askCallNear.price * size * near.call.instrument.contractSize
      - l.bidPutNear.price * size * near.put.instrument.contractSize
      - l.bidCallFar.price * size * far.call.instrument.contractSize
      + l.askPutFar.price * size * far.put.instrument.contractSize
  }

  function RollFeeContext(config: AppConfig, near: RollExpiry, far: RollExpiry, l: RollLevels,
                          settlement: SettlementCurrency, size: real, now: int): (ctx: FeeComputationContext)
    ensures |ctx.legs| == 4 && SameSettlement(ctx.legs, settlement)
  {
    FeeComputationContext([TakerLeg(near.call, Buy, settlement, l.askCallNear.price, size, now),
                           TakerLeg(near.put, Sell, settlement, l.bidPutNear.price, size, now),
                           TakerLeg(far.call, Sell, settlement, l.bidCallFar.price, size, now),
                           TakerLeg(far.put, Buy, settlement, l.askPutFar.price, size, now)],
                          config.holdToExpiry)
  }

  function RollFees(config: AppConfig, near: RollExpiry, far: RollExpiry, l: RollLevels,
                    settlement: SettlementCurrency, now: int): FeeBreakdown
  {
    DetectorFees(RollFeeContext(config, near, far, l, settlement, RollSize(config, near, l), now), settlement)
  }

  /** The debit in USD, at the near call's index. */
  function RollDebitUsd(config: AppConfig, near: RollExpiry, far: RollExpiry, l: RollLevels, settlement: SettlementCurrency): real {
    ToUsd(settlement, RollDebit(near, far, l, RollSize(config, near, l)), near.call.quote.indexPrice)
  }

  /** The roll's net edge: the credit (the negated USD debit) less the fees. */
  function RollNet(config: AppConfig, near: RollExpiry, far: RollExpiry, l: RollLevels,
                   settlement: SettlementCurrency, now: int): real
  {
    -RollDebitUsd(config, near, far, l, settlement) - RollFees(config, near, far, l, settlement, now).totalUsd
  }

  /** Every gate a pair of neighbouring complete expiries has to pass to become a jelly roll. */
  predicate RollAccepted(config: AppConfig, near: RollExpiry, far: RollExpiry, settlement: SettlementCurrency, now: int) {
    var levels := RollLevelsOf(config, near, far);
    && levels.Some?
    && var l := levels.value;
       var net := RollNet(config, near, far, l, settlement, now);
       && RollSize(config, near, l) > 0.0
       && RollDebitUsd(config, near, far, l, settlement) < 0.0
       && net > 0.0
       && net >= config.minEdgeUsd
       && EdgeRatio(net, RollFees(config, near, far, l, settlement, now).totalUsd) >= config.minEdgeRatio
  }

  /** The jelly roll a window (`near`, `far`) of the expiry-sorted list yields, if any. */
  function JellyAt(config: AppConfig, near: RollExpiry, far: RollExpiry, currency: Currency, strike: real,
                   settlement: SettlementCurrency, now: int): (r: Option<StrategyOpportunity>)
    ensures r.Some? <==> RollAccepted(config, near, far, settlement, now)
  {
    var levels := RollLevelsOf(config, near, far);
    if levels.Some? && RollAccepted(config, near, far, settlement, now) then
      Some(JellyOf(config, near, far, levels.value, currency, strike, settlement, now))
    else None
  }

  /** The opportunity recorded for an accepted pair of expiries. */
  function JellyOf(config: AppConfig, near: RollExpiry, far: RollExpiry, l: RollLevels, currency: Currency, strike: real,
                   settlement: SettlementCurrency, now: int): StrategyOpportunity
  {
    var size := RollSize(config, near, l);
    var debit := RollDebit(near, far, l, size);
    var refIndex := near.call.quote.indexPrice;
    var legs := [ComboLeg(near.call.instrument.instrumentName, 1, Buy), ComboLeg(near.put.instrument.instrumentName, 1, Sell),
                 ComboLeg(far.call.instrument.instrumentName, 1, Sell), ComboLeg(far.put.instrument.instrumentName, 1, Buy)];
    var touches := [LegTouch(near.call.instrument.instrumentName, Buy, l.askCallNear.price, size),
                    LegTouch(near.put.instrument.instrumentName, Sell, l.bidPutNear.price, size),
                    LegTouch(far.call.instrument.instrumentName, Sell, l.bidCallFar.price, size),
                    LegTouch(far.put.instrument.instrumentName, Buy, l.askPutFar.price, size)];
    var net := RollNet(config, near, far, l, settlement, now);
    StrategyOpportunity(
      JellyRoll, currency, settlement, [near.expiry, far.expiry], [strike],
      legs, touches, debit, 0.0, RollFees(config, near, far, l, settlement, now),
      FromUsd(settlement, net, refIndex), net, refIndex * size * near.call.instrument.contractSize,
      refIndex, ComputeEdgeBps(net, size, refIndex, settlement), size,
      Plan(config, legs, size, debit))
  }

  /**
   * An accepted pair passes the edge gates, buys the near call and the far put and sells
   * the near put and the far call, never exceeds any level's depth or the ticket, and opens
   * for a credit: its USD debit is negative and the edge is the credit less the fees.
   */
  lemma JellyAtProperties(config: AppConfig, near: RollExpiry, far: RollExpiry, currency: Currency, strike: real,
                          settlement: SettlementCurrency, now: int)
    requires JellyAt(config, near, far, currency, strike, settlement, now).Some?
    ensures var o := JellyAt(config, near, far, currency, strike, settlement, now).value;
      && Emitted(config, o) && RatioGate(config, o)
      && o.strategy == JellyRoll && o.currency == currency && o.settlement == settlement
      && o.expiry == [near.expiry, far.expiry] && o.strikes == [strike]
      && o.legs == [ComboLeg(near.call.instrument.instrumentName, 1, Buy), ComboLeg(near.put.instrument.instrumentName, 1, Sell),
                    ComboLeg(far.call.instrument.instrumentName, 1, Sell), ComboLeg(far.put.instrument.instrumentName, 1, Buy)]
      && o.referenceIndex == near.call.quote.indexPrice
      && ToUsd(settlement, o.totalCost, o.referenceIndex) < 0.0
      && o.netEdgeUsd == -ToUsd(settlement, o.totalCost, o.referenceIndex) - o.feeBreakdown.totalUsd
    ensures var o := JellyAt(config, near, far, currency, strike, settlement, now).value;
      var l := RollLevelsOf(config, near, far).value;
      && o.sizeContracts <= l.askCallNear.amount && o.sizeContracts <= l.bidPutNear.amount
      && o.sizeContracts <= l.bidCallFar.amount && o.sizeContracts <= l.askPutFar.amount
      && o.sizeContracts <= MaxContractsFromTicket(config, near.call)
      && o.totalCost == RollDebit(near, far, l, o.sizeContracts)
      && o.maxPayout == 0.0
      && o.executionPlan == Plan(config, o.legs, o.sizeContracts, o.totalCost)
  {
  }

  /** The evaluation of one neighbouring pair of expiries of a key. */
  function JellyWindow(config: AppConfig, currency: Currency, strike: real, settlement: SettlementCurrency, now: int)
    : (RollExpiry, RollExpiry) -> Option<StrategyOpportunity>
  {
    (near, far) => JellyAt(config, near, far, currency, strike, settlement, now)
  }

  function JellyWindows(config: AppConfig, sorted: seq<RollExpiry>, currency: Currency, strike: real,
                        settlement: SettlementCurrency, now: int): seq<Option<StrategyOpportunity>>
  {
    Pairs(sorted, JellyWindow(config, currency, strike, settlement, now))
  }

  // ---------------------------------------------------------------- the detector

  /** A complete expiry of key `k` built from entries of `snapshot`. */
  predicate CompleteIn(x: RollExpiry, k: RollKey, snapshot: seq<InstrumentSnapshot>) {
    && x.call in snapshot && x.put in snapshot
    && RollKeyOf(x.call) == k && RollKeyOf(x.put) == k
    && x.call.instrument.expiry == x.expiry && x.put.instrument.expiry == x.expiry
    && x.call.instrument.optionKind == Call && x.put.instrument.optionKind == Put
  }

  /** `o` is a jelly roll over a near call and put and a far call and put of one strike. */
  predicate RollLegs(o: StrategyOpportunity, nearCall: InstrumentSnapshot, nearPut: InstrumentSnapshot,
                     farCall: InstrumentSnapshot, farPut: InstrumentSnapshot)
  {
    && RollKeyOf(nearPut) == RollKeyOf(nearCall) && RollKeyOf(farCall) == RollKeyOf(nearCall)
    && RollKeyOf(farPut) == RollKeyOf(nearCall)
    && nearCall.instrument.optionKind == Call && farCall.instrument.optionKind == Call
    && nearPut.instrument.optionKind == Put && farPut.instrument.optionKind == Put
    && nearPut.instrument.expiry == nearCall.instrument.expiry && farPut.instrument.expiry == farCall.instrument.expiry
    && nearCall.instrument.expiry < farCall.instrument.expiry
    && o.currency == nearCall.instrument.currency && o.settlement == nearCall.instrument.settlementCurrency
    && o.expiry == [nearCall.instrument.expiry, farCall.instrument.expiry] && o.strikes == [nearCall.instrument.strike]
    && o.legs == [ComboLeg(nearCall.instrument.instrumentName, 1, Buy), ComboLeg(nearPut.instrument.instrumentName, 1, Sell),
                  ComboLeg(farCall.instrument.instrumentName, 1, Sell), ComboLeg(farPut.instrument.instrumentName, 1, Buy)]
  }

  /** An emitted jelly roll, opened for a credit, built from four entries of `snapshot`. */
  predicate JellyFrom(config: AppConfig, o: StrategyOpportunity, snapshot: seq<InstrumentSnapshot>) {
    && Emitted(config, o) && RatioGate(config, o) && o.strategy == JellyRoll
    && ToUsd(o.settlement, o.totalCost, o.referenceIndex) < 0.0
    && exists nearCall, nearPut, farCall, farPut ::
         nearCall in snapshot && nearPut in snapshot && farCall in snapshot && farPut in snapshot
         && RollLegs(o, nearCall, nearPut, farCall, farPut)
  }

  lemma JellyWindowFrom(config: AppConfig, snapshot: seq<InstrumentSnapshot>, k: RollKey, expiries: seq<RollExpiry>,
                        now: int, i: nat)
    requires forall x :: x in expiries ==> CompleteIn(x, k, snapshot)
    requires DistinctKeys(expiries, RollExpiryKey)
    requires i < |JellyWindows(config, SortByKey(expiries, RollExpiryKey), k.currency, k.strike, k.settlement, now)|
    requires JellyWindows(config, SortByKey(expiries, RollExpiryKey), k.currency, k.strike, k.settlement, now)[i].Some?
    ensures JellyFrom(config,
      JellyWindows(config, SortByKey(expiries, RollExpiryKey), k.currency, k.strike, k.settlement, now)[i].value, snapshot)
  {
    var sorted := SortByKey(expiries, RollExpiryKey);
    var windows := JellyWindows(config, sorted, k.currency, k.strike, k.settlement, now);
    var near, far := sorted[i], sorted[i + 1];
    assert windows[i] == JellyAt(config, near, far, k.currency, k.strike, k.settlement, now);
    SortedNeighbours(expiries, RollExpiryKey, i);
    SortedNeighboursDistinct(expiries, RollExpiryKey, i);
    assert CompleteIn(near, k, snapshot) && CompleteIn(far, k, snapshot);
    JellyAtProperties(config, near, far, k.currency, k.strike, k.settlement, now);
    assert RollLegs(windows[i].value, near.call, near.put, far.call, far.put);
  }

  lemma JellyGroupFrom(config: AppConfig, snapshot: seq<InstrumentSnapshot>, k: RollKey, expiries: seq<RollExpiry>, now: int)
    requires forall x :: x in expiries ==> CompleteIn(x, k, snapshot)
    requires DistinctKeys(expiries, RollExpiryKey)
    ensures forall o :: o in Somes(JellyWindows(config, SortByKey(expiries, RollExpiryKey), k.currency, k.strike, k.settlement, now)) ==>
      JellyFrom(config, o, snapshot)
  {
    var windows := JellyWindows(config, SortByKey(expiries, RollExpiryKey), k.currency, k.strike, k.settlement, now);
    forall o | o in Somes(windows)
      ensures JellyFrom(config, o, snapshot)
    {
      var i := SomesIndex(windows, o);
      JellyWindowFrom(config, snapshot, k, expiries, now, i);
    }
  }

  /** The complete expiries of a sound bucket hold entries of the snapshot of the bucket's key. */
  lemma CompleteExpiriesIn(snapshot: seq<InstrumentSnapshot>, k: RollKey, expiries: seq<RollExpiry>)
    requires k in BucketsOf(snapshot)
    requires forall x :: x in expiries ==>
      x.expiry in BucketsOf(snapshot)[k] && BucketsOf(snapshot)[k][x.expiry] == ExpiryBucket(Some(x.call), Some(x.put))
    ensures forall x :: x in expiries ==> CompleteIn(x, k, snapshot)
  {
    BucketsOfSound(snapshot);
  }

  /** `expiries` lists each complete expiry of a bucket once, as `CompleteExpiries` yields them. */
  predicate CompleteListOf(expiries: seq<RollExpiry>, expiryMap: map<int, ExpiryBucket>) {
    && (forall x :: x in expiries ==> x.expiry in expiryMap && expiryMap[x.expiry] == ExpiryBucket(Some(x.call), Some(x.put)))
    && (forall e :: e in expiryMap && expiryMap[e].call.Some? && expiryMap[e].put.Some? ==> e in ExpiriesOf(expiries))
    && DistinctKeys(expiries, RollExpiryKey)
  }

  /** Whatever order a bucket yields its complete expiries in, sorting them by expiry gives one list. */
  lemma CompleteListSorted(xs: seq<RollExpiry>, ys: seq<RollExpiry>, expiryMap: map<int, ExpiryBucket>)
    requires CompleteListOf(xs, expiryMap) && CompleteListOf(ys, expiryMap)
    ensures SortByKey(xs, RollExpiryKey) == SortByKey(ys, RollExpiryKey)
  {
    forall x | x in xs
      ensures x in ys
    {
      assert x.expiry in ExpiriesOf(ys);
      var y :| y in ys && y.expiry == x.expiry;
      assert y == x;
    }
    forall y | y in ys
      ensures y in xs
    {
      assert y.expiry in ExpiriesOf(xs);
      var x :| x in xs && x.expiry == y.expiry;
      assert y == x;
    }
    SortDeterminedByMembers(xs, ys, RollExpiryKey);
  }

  /** The jelly rolls found for key `k` whose complete expiries are `expiries`: its accepted neighbouring-expiry windows. */
  function JellyGroupFound(config: AppConfig, k: RollKey, expiries: seq<RollExpiry>, now: int): seq<StrategyOpportunity> {
    Somes(JellyWindows(config, SortByKey(expiries, RollExpiryKey), k.currency, k.strike, k.settlement, now))
  }

  /** The jelly rolls of each key `order` names, found from the list of complete expiries beside it. */
  function JellyParts(config: AppConfig, order: seq<RollKey>, lists: seq<seq<RollExpiry>>, now: int): (r: seq<seq<StrategyOpportunity>>)
    requires |lists| == |order|
    ensures |r| == |order| && forall i :: 0 <= i < |order| ==> r[i] == JellyGroupFound(config, order[i], lists[i], now)
  {
    seq(|order|, i requires 0 <= i < |order| => JellyGroupFound(config, order[i], lists[i], now))
  }

  /** `order` lists the keys of `visited` once each, and `lists[i]` the complete expiries of the bucket of `order[i]`. */
  ghost predicate JellyOrder(buckets: Buckets, visited: set<RollKey>, order: seq<RollKey>, lists: seq<seq<RollExpiry>>) {
    && visited <= buckets.Keys
    && Enumerates(order, visited)
    && |lists| == |order|
    && forall i :: 0 <= i < |order| ==> order[i] in buckets && CompleteListOf(lists[i], buckets[order[i]])
  }

  /** One more key appends its jelly rolls. */
  lemma JellyPartsStep(config: AppConfig, order: seq<RollKey>, lists: seq<seq<RollExpiry>>, k: RollKey,
                       expiries: seq<RollExpiry>, now: int)
    requires |lists| == |order|
    ensures Concat(JellyParts(config, order + [k], lists + [expiries], now)) ==
      Concat(JellyParts(config, order, lists, now)) + JellyGroupFound(config, k, expiries, now)
  {
    var parts := JellyParts(config, order, lists, now);
    assert JellyParts(config, order + [k], lists + [expiries], now) == parts + [JellyGroupFound(config, k, expiries, now)];
    ConcatStep(parts, JellyGroupFound(config, k, expiries, now));
  }

  lemma JellyOrderStep(buckets: Buckets, keys: set<RollKey>, order: seq<RollKey>, lists: seq<seq<RollExpiry>>,
                       k: RollKey, expiries: seq<RollExpiry>)
    requires keys <= buckets.Keys && k in keys
    requires JellyOrder(buckets, buckets.Keys - keys, order, lists)
    requires CompleteListOf(expiries, buckets[k])
    ensures JellyOrder(buckets, buckets.Keys - (keys - {k}), order + [k], lists + [expiries])
  {
    EnumeratesStep(order, buckets.Keys, keys, k);
  }

  /** In any key order, every jelly roll found is a jelly roll of the snapshot. */
  lemma JellyPartsFrom(config: AppConfig, snapshot: seq<InstrumentSnapshot>, order: seq<RollKey>,
                        lists: seq<seq<RollExpiry>>, now: int)
    requires JellyOrder(BucketsOf(snapshot), BucketsOf(snapshot).Keys, order, lists)
    ensures forall o :: o in Concat(JellyParts(config, order, lists, now)) ==> JellyFrom(config, o, snapshot)
  {
    var parts := JellyParts(config, order, lists, now);
    forall o | o in Concat(parts)
      ensures JellyFrom(config, o, snapshot)
    {
      var i := ConcatPart(parts, o);
      CompleteExpiriesIn(snapshot, order[i], lists[i]);
      JellyGroupFrom(config, snapshot, order[i], lists[i], now);
    }
  }

  /**
   * In any key order, the jelly rolls found are exactly those of the snapshot's keys, each
   * from whichever list of its complete expiries.
   */
  lemma JellyPartsAll(config: AppConfig, snapshot: seq<InstrumentSnapshot>, order: seq<RollKey>,
                       lists: seq<seq<RollExpiry>>, now: int)
    requires JellyOrder(BucketsOf(snapshot), BucketsOf(snapshot).Keys, order, lists)
    ensures forall o :: o in Concat(JellyParts(config, order, lists, now)) <==>
      exists k, xs :: k in BucketsOf(snapshot) && CompleteListOf(xs, BucketsOf(snapshot)[k]) && o in JellyGroupFound(config, k, xs, now)
  {
    var buckets := BucketsOf(snapshot);
    var parts := JellyParts(config, order, lists, now);
    forall o | o in Concat(parts)
      ensures exists k, xs :: k in buckets && CompleteListOf(xs, buckets[k]) && o in JellyGroupFound(config, k, xs, now)
    {
      var i := ConcatPart(parts, o);
      assert o in JellyGroupFound(config, order[i], lists[i], now);
    }
    forall o, k, xs | k in buckets && CompleteListOf(xs, buckets[k]) && o in JellyGroupFound(config, k, xs, now)
      ensures o in Concat(parts)
    {
      var i :| 0 <= i < |order| && order[i] == k;
      CompleteListSorted(xs, lists[i], buckets[k]);
      assert JellyGroupFound(config, k, xs, now) == JellyGroupFound(config, order[i], lists[i], now);
      ConcatHas(parts, i, o);
    }
  }

  /**
   * The body of `detect_jelly_rolls` for one key: collect the complete expiries, skip keys
   * with fewer than two, sort by expiry and evaluate every pair of neighbours.
   */
  method JellyGroupScan(config: AppConfig, k: RollKey, expiryMap: map<int, ExpiryBucket>, now: int)
    returns (found: seq<StrategyOpportunity>, ghost expiries: seq<RollExpiry>)
    ensures CompleteListOf(expiries, expiryMap)
    ensures found == JellyGroupFound(config, k, expiries, now)
  {
    var complete := CompleteExpiries(expiryMap);
    expiries := complete;
    found := [];
    if |complete| >= 2 {
      var sorted := SortByKey(complete, RollExpiryKey);
      found := CollectPairs(sorted, JellyWindow(config, k.currency, k.strike, k.settlement, now));
    }
  }

  /** `detect_jelly_rolls`: fill the buckets, then scan every key. */
  method DetectJellyRolls(config: AppConfig, snapshot: seq<InstrumentSnapshot>, now: int)
    returns (results: seq<StrategyOpportunity>)
    ensures exists order, lists ::
      JellyOrder(BucketsOf(snapshot), BucketsOf(snapshot).Keys, order, lists) && results == Concat(JellyParts(config, order, lists, now))
    ensures forall o :: o in results <==>
      exists k, xs :: k in BucketsOf(snapshot) && CompleteListOf(xs, BucketsOf(snapshot)[k]) && o in JellyGroupFound(config, k, xs, now)
    ensures forall o :: o in results ==> JellyFrom(config, o, snapshot)
  {
    var buckets := BuildBuckets(snapshot);
    results := [];
    var keys := buckets.Keys;
    ghost var order: seq<RollKey> := [];
    ghost var lists: seq<seq<RollExpiry>> := [];
    while keys != {}
      invariant keys <= buckets.Keys
      invariant JellyOrder(buckets, buckets.Keys - keys, order, lists)
      invariant results == Concat(JellyParts(config, order, lists, now))
      decreases keys
    {
      var k :| k in keys;
      var found, expiries := JellyGroupScan(config, k, buckets[k], now);
      results := results + found;
      JellyPartsStep(config, order, lists, k, expiries, now);
      JellyOrderStep(buckets, keys, order, lists, k, expiries);
      order, lists := order + [k], lists + [expiries];
      keys := keys - {k};
    }
    assert buckets.Keys - keys == buckets.Keys;
    assert JellyOrder(BucketsOf(snapshot), BucketsOf(snapshot).Keys, order, lists);
    JellyPartsAll(config, snapshot, order, lists, now);
    JellyPartsFrom(config, snapshot, order, lists, now);
  }
}
