/**
 * The two detectors that work inside one expiry group: verticals (adjacent strikes of one
 * kind) and butterflies (three adjacent strikes). Each window of the strike-sorted group is
 * evaluated by a pure function; the detectors are loops over the windows that push what the
 * window function accepts.
 */
module ArbDetectSpreads {
  import opened Wrappers
  import opened ArbModel
  import opened ArbConfig
  import opened ArbFees
  import opened Sorting
  import opened ArbDetectCommon

  function StrikeKey(s: InstrumentSnapshot): real {
    s.instrument.strike
  }

  /** The payout of `size` contracts of a spread between two strikes, in USD. */
  function SpreadPayoutUsd(low: InstrumentSnapshot, high: InstrumentSnapshot, size: real): real {
    (high.instrument.strike - low.instrument.strike) * size * low.instrument.contractSize
  }

  // ---------------------------------------------------------------- verticals

  /** The bought and the sold instrument of a vertical, with the levels it trades at. */
  datatype VerticalSides = VerticalSides(buy: InstrumentSnapshot, buyLevel: QuoteLevel,
                                         sell: InstrumentSnapshot, sellLevel: QuoteLevel)

  /**
   * Calls buy the low-strike ask and sell the high-strike bid; puts buy the high-strike ask
   * and sell the low-strike bid. Both levels must show the minimum depth, and both
   * instruments must be of the same kind.
   */
  function VerticalSidesOf(config: AppConfig, low: InstrumentSnapshot, high: InstrumentSnapshot): (r: Option<VerticalSides>)
    ensures r.Some? ==> low.instrument.optionKind == high.instrument.optionKind
    ensures r.Some? && low.instrument.optionKind == Call ==>
      && r.value.buy == low && r.value.sell == high
      && low.quote.bestAsk == Some(r.value.buyLevel) && high.quote.bestBid == Some(r.value.sellLevel)
    ensures r.Some? && low.instrument.optionKind == Put ==>
      && r.value.buy == high && r.value.sell == low
      && high.quote.bestAsk == Some(r.value.buyLevel) && low.quote.bestBid == Some(r.value.sellLevel)
    ensures r.Some? ==> r.value.buyLevel.amount >= MinDepth(config) && r.value.sellLevel.amount >= MinDepth(config)
    ensures low.instrument.optionKind == high.instrument.optionKind == Call ==>
      (r.Some? <==> DepthLevel(low.quote.bestAsk, config).Some? && DepthLevel(high.quote.bestBid, config).Some?)
    ensures low.instrument.optionKind == high.instrument.optionKind == Put ==>
      (r.Some? <==> DepthLevel(high.quote.bestAsk, config).Some? && DepthLevel(low.quote.bestBid, config).Some?)
  {
    if low.instrument.optionKind != high.instrument.optionKind then None
    else
      var askLow := DepthLevel(low.quote.bestAsk, config);
      var bidLow := DepthLevel(low.quote.bestBid, config);
      var askHigh := DepthLevel(high.quote.bestAsk, config);
      var bidHigh := DepthLevel(high.quote.bestBid, config);
      match low.instrument.optionKind
      case Call =>
        if askLow.None? || bidHigh.None? then None
        else Some(VerticalSides(low, askLow.value, high, bidHigh.value))
      case Put =>
        if askHigh.None? || bidLow.None? then None
        else Some(VerticalSides(high, askHigh.value, low, bidLow.value))
  }

  function VerticalSize(config: AppConfig, v: VerticalSides): real {
    Min(Min(v.buyLevel.amount, v.sellLevel.amount), MaxContractsFromTicket(config, v.buy))
  }

  /** Paid for the bought leg less received for the sold leg, in the settlement currency. */
  function VerticalDebit(v: VerticalSides, size: real): real {
    v.buyLevel.price * size * v.buy.instrument.contractSize - v.sellLevel.price * size * v.sell.instrument.contractSize
  }

  function VerticalFeeContext(config: AppConfig, v: VerticalSides, settlement: SettlementCurrency, size: real, now: int): (ctx: FeeComputationContext)
    ensures |ctx.legs| == 2 && SameSettlement(ctx.legs, settlement)
  {
    FeeComputationContext([TakerLeg(v.buy, Buy, settlement, v.buyLevel.price, size, now),
                           TakerLeg(v.sell, Sell, settlement, v.sellLevel.price, size, now)],
                          config.holdToExpiry)
  }

  /** The vertical's net edge: payout less the debit in USD less the fees. */
  function VerticalNet(config: AppConfig, low: InstrumentSnapshot, high: InstrumentSnapshot, v: VerticalSides,
                       settlement: SettlementCurrency, now: int): real
  {
    var size := VerticalSize(config, v);
    var debitUsd := ToUsd(settlement, VerticalDebit(v, size), v.buy.quote.indexPrice);
    SpreadPayoutUsd(low, high, size) - debitUsd
      - DetectorFees(VerticalFeeContext(config, v, settlement, size, now), settlement).totalUsd
  }

  /** Every gate a pair of adjacent strikes has to pass to become a vertical. */
  predicate VerticalAccepted(config: AppConfig, low: InstrumentSnapshot, high: InstrumentSnapshot,
                             settlement: SettlementCurrency, now: int)
  {
    var sides := VerticalSidesOf(config, low, high);
    && sides.Some?
    && var v := sides.value;
       var size := VerticalSize(config, v);
       var debit := VerticalDebit(v, size);
       var net := VerticalNet(config, low, high, v, settlement, now);
       var fees := DetectorFees(VerticalFeeContext(config, v, settlement, size, now), settlement);
       && size > 0.0
       && debit >= 0.0
       && high.instrument.strike - low.instrument.strike > 0.0
       && ToUsd(settlement, debit, v.buy.quote.indexPrice) <= SpreadPayoutUsd(low, high, size) + PAYOUT_TOLERANCE
       && net > 0.0
       && net >= config.minEdgeUsd
       && EdgeRatio(net, fees.totalUsd) >= config.minEdgeRatio
  }

  /** The vertical a window (`low`, `high`) of the strike-sorted group yields, if any. */
  function VerticalAt(config: AppConfig, low: InstrumentSnapshot, high: InstrumentSnapshot, currency: Currency,
                      settlement: SettlementCurrency, expiry: int, now: int): (r: Option<StrategyOpportunity>)
    ensures r.Some? <==> VerticalAccepted(config, low, high, settlement, now)
  {
    var sides := VerticalSidesOf(config, low, high);
    if sides.Some? && VerticalAccepted(config, low, high, settlement, now) then
      Some(VerticalOf(config, low, high, sides.value, currency, settlement, expiry, now))
    else None
  }

  /**
   * An accepted pair passes the edge gates, buys one and sells one contract ratio of the
   * sides `VerticalSidesOf` picks, never exceeds the depth of either level or the ticket, and
   * pays a non-negative debit no larger (up to 1e-6 USD) than the spread's payout; the edge
   * is that payout less the debit and the fees.
   */
  lemma VerticalAtProperties(config: AppConfig, low: InstrumentSnapshot, high: InstrumentSnapshot, currency: Currency,
                             settlement: SettlementCurrency, expiry: int, now: int)
    requires VerticalAt(config, low, high, currency, settlement, expiry, now).Some?
    ensures var o := VerticalAt(config, low, high, currency, settlement, expiry, now).value;
      && Emitted(config, o) && RatioGate(config, o)
      && o.strategy == Vertical && o.currency == currency && o.settlement == settlement
      && o.expiry == [expiry] && o.strikes == [low.instrument.strike, high.instrument.strike]
      && low.instrument.strike < high.instrument.strike
    ensures var o := VerticalAt(config, low, high, currency, settlement, expiry, now).value;
      var v := VerticalSidesOf(config, low, high).value;
      && o.legs == [ComboLeg(v.buy.instrument.instrumentName, 1, Buy), ComboLeg(v.sell.instrument.instrumentName, 1, Sell)]
      && o.sizeContracts <= v.buyLevel.amount && o.sizeContracts <= v.sellLevel.amount
      && o.sizeContracts <= MaxContractsFromTicket(config, v.buy)
      && o.referenceIndex == v.buy.quote.indexPrice
      && o.totalCost >= 0.0
      && ToUsd(settlement, o.totalCost, o.referenceIndex) <= SpreadPayoutUsd(low, high, o.sizeContracts) + PAYOUT_TOLERANCE
      && o.netEdgeUsd == SpreadPayoutUsd(low, high, o.sizeContracts) - ToUsd(settlement, o.totalCost, o.referenceIndex)
                         - o.feeBreakdown.totalUsd
      && o.executionPlan == Plan(config, o.legs, o.sizeContracts, o.totalCost)
  {
  }

  /** The opportunity recorded for an accepted pair. */
  function VerticalOf(config: AppConfig, low: InstrumentSnapshot, high: InstrumentSnapshot, v: VerticalSides,
                      currency: Currency, settlement: SettlementCurrency, expiry: int, now: int): StrategyOpportunity
  {
    var size := VerticalSize(config, v);
    var debit := VerticalDebit(v, size);
    var refIndex := v.buy.quote.indexPrice;
    var payoutUsd := SpreadPayoutUsd(low, high, size);
    var legs := [ComboLeg(v.buy.instrument.instrumentName, 1, Buy),
                 ComboLeg(v.sell.instrument.instrumentName, 1, Sell)];
    var touches := [LegTouch(v.buy.instrument.instrumentName, Buy, v.buyLevel.price, size),
                    LegTouch(v.sell.instrument.instrumentName, Sell, v.sellLevel.price, size)];
    var fees := DetectorFees(VerticalFeeContext(config, v, settlement, size, now), settlement);
    var net := VerticalNet(config, low, high, v, settlement, now);
    StrategyOpportunity(
      Vertical, currency, settlement, [expiry], [low.instrument.strike, high.instrument.strike],
      legs, touches, debit, FromUsd(settlement, payoutUsd, refIndex), fees,
      FromUsd(settlement, net, refIndex), net, refIndex * size * v.buy.instrument.contractSize,
      refIndex, ComputeEdgeBps(net, size, refIndex, settlement), size,
      Plan(config, legs, size, debit))
  }

  /** The evaluation of one window of two adjacent strikes. */
  function VerticalWindow(config: AppConfig, currency: Currency, settlement: SettlementCurrency, expiry: int, now: int)
    : (InstrumentSnapshot, InstrumentSnapshot) -> Option<StrategyOpportunity>
  {
    (low, high) => VerticalAt(config, low, high, currency, settlement, expiry, now)
  }

  /** What each window of two adjacent strikes yields. */
  function VerticalWindows(config: AppConfig, sorted: seq<InstrumentSnapshot>, currency: Currency,
                           settlement: SettlementCurrency, expiry: int, now: int): seq<Option<StrategyOpportunity>>
  {
    Pairs(sorted, VerticalWindow(config, currency, settlement, expiry, now))
  }

  /** Emitted opportunities of one kind, for one group key. */
  predicate FromGroup(config: AppConfig, o: StrategyOpportunity, kind: StrategyKind, currency: Currency,
                      settlement: SettlementCurrency, expiry: int)
  {
    && Emitted(config, o) && RatioGate(config, o)
    && o.strategy == kind && o.currency == currency && o.settlement == settlement && o.expiry == [expiry]
  }

  /** `detect_verticals`: sort the group by strike, then evaluate every adjacent pair. */
  method DetectVerticals(config: AppConfig, instruments: seq<InstrumentSnapshot>, currency: Currency,
                         settlement: SettlementCurrency, expiry: int, now: int) returns (results: seq<StrategyOpportunity>)
    ensures results == Somes(VerticalWindows(config, SortByKey(instruments, StrikeKey), currency, settlement, expiry, now))
    ensures forall o :: o in results ==> FromGroup(config, o, Vertical, currency, settlement, expiry)
    ensures |results| < |instruments| || |instruments| == 0
  {
    var byStrike := SortByKey(instruments, StrikeKey);
    results := CollectPairs(byStrike, VerticalWindow(config, currency, settlement, expiry, now));
    VerticalWindowsFromGroup(config, byStrike, currency, settlement, expiry, now);
  }

  /** An accepted pair is an emitted vertical of the group's key. */
  lemma VerticalAtEmitted(config: AppConfig, low: InstrumentSnapshot, high: InstrumentSnapshot, currency: Currency,
                          settlement: SettlementCurrency, expiry: int, now: int)
    requires VerticalAt(config, low, high, currency, settlement, expiry, now).Some?
    ensures FromGroup(config, VerticalAt(config, low, high, currency, settlement, expiry, now).value,
                      Vertical, currency, settlement, expiry)
    ensures VerticalAt(config, low, high, currency, settlement, expiry, now).value.strikes
         == [low.instrument.strike, high.instrument.strike]
  {
  }

  /** Every window result passes the gates and carries the group's key. */
  lemma VerticalWindowsFromGroup(config: AppConfig, sorted: seq<InstrumentSnapshot>, currency: Currency,
                              settlement: SettlementCurrency, expiry: int, now: int)
    ensures forall o :: o in Somes(VerticalWindows(config, sorted, currency, settlement, expiry, now)) ==>
      FromGroup(config, o, Vertical, currency, settlement, expiry)
  {
    var f := VerticalWindow(config, currency, settlement, expiry, now);
    forall low, high | f(low, high).Some?
      ensures FromGroup(config, f(low, high).value, Vertical, currency, settlement, expiry)
    {
      VerticalAtEmitted(config, low, high, currency, settlement, expiry, now);
    }
    PairsSomesAll(sorted, f, o => FromGroup(config, o, Vertical, currency, settlement, expiry));
  }

  /**
   * Verticals pair only strike-adjacent instruments: no instrument of the group has a
   * strike strictly between the two strikes of an emitted vertical.
   */
  lemma VerticalsAdjacent(config: AppConfig, instruments: seq<InstrumentSnapshot>, currency: Currency,
                          settlement: SettlementCurrency, expiry: int, now: int, o: StrategyOpportunity, x: InstrumentSnapshot)
    requires o in Somes(VerticalWindows(config, SortByKey(instruments, StrikeKey), currency, settlement, expiry, now))
    requires x in instruments
    ensures |o.strikes| == 2
    ensures !(o.strikes[0] < x.instrument.strike < o.strikes[1])
  {
    var sorted := SortByKey(instruments, StrikeKey);
    var windows := VerticalWindows(config, sorted, currency, settlement, expiry, now);
    var i := SomesIndex(windows, o);
    assert windows[i] == VerticalAt(config, sorted[i], sorted[i + 1], currency, settlement, expiry, now);
    VerticalAtEmitted(config, sorted[i], sorted[i + 1], currency, settlement, expiry, now);
    NoKeyBetweenNeighbours(instruments, StrikeKey, i, x);
  }

  // ---------------------------------------------------------------- butterflies

  /** The three levels a butterfly trades: the low and high asks and the middle bid. */
  datatype FlyLevels = FlyLevels(askLow: QuoteLevel, bidMid: QuoteLevel, askHigh: QuoteLevel)

  function FlyLevelsOf(config: AppConfig, low: InstrumentSnapshot, mid: InstrumentSnapshot, high: InstrumentSnapshot): (r: Option<FlyLevels>)
    ensures r.Some? <==> DepthLevel(low.quote.bestAsk, config).Some? && DepthLevel(mid.quote.bestBid, config).Some?
                         && DepthLevel(high.quote.bestAsk, config).Some?
    ensures r.Some? ==> low.quote.bestAsk == Some(r.value.askLow) && mid.quote.bestBid == Some(r.value.bidMid)
                        && high.quote.bestAsk == Some(r.value.askHigh)
  {
    var askLow := DepthLevel(low.quote.bestAsk, config);
    var bidMid := DepthLevel(mid.quote.bestBid, config);
    var askHigh := DepthLevel(high.quote.bestAsk, config);
    if askLow.None? || bidMid.None? || askHigh.None? then None
    else Some(FlyLevels(askLow.value, bidMid.value, askHigh.value))
  }

  /** The middle strike is sold twice, so only half its bid amount is available. */
  function FlySize(config: AppConfig, low: InstrumentSnapshot, f: FlyLevels): (size: real)
    ensures size <= f.askLow.amount && size <= f.askHigh.amount && 2.0 * size <= f.bidMid.amount
    ensures size <= MaxContractsFromTicket(config, low)
  {
    Min(Min(Min(f.askLow.amount, f.askHigh.amount), f.bidMid.amount / 2.0), MaxContractsFromTicket(config, low))
  }

  /** Buy one low, sell two middle, buy one high, per contract. */
  function FlyCost(f: FlyLevels): real {
    f.askLow.price + f.askHigh.price - f.bidMid.price * 2.0
  }

  /** The debit of `size` butterflies, in the settlement currency. */
  function FlyDebit(low: InstrumentSnapshot, f: FlyLevels, size: real): real {
    FlyCost(f) * size * low.instrument.contractSize
  }

  function FlyFeeContext(config: AppConfig, low: InstrumentSnapshot, mid: InstrumentSnapshot, high: InstrumentSnapshot,
                         f: FlyLevels, settlement: SettlementCurrency, size: real, now: int): (ctx: FeeComputationContext)
    ensures |ctx.legs| == 3 && SameSettlement(ctx.legs, settlement)
  {
    FeeComputationContext([TakerLeg(low, Buy, settlement, f.askLow.price, size, now),
                           TakerLeg(mid, Sell, settlement, f.bidMid.price, size * 2.0, now),
                           TakerLeg(high, Buy, settlement, f.askHigh.price, size, now)],
                          config.holdToExpiry)
  }

  /** The butterfly's net edge: the credit received in USD less the fees. */
  function FlyNet(config: AppConfig, low: InstrumentSnapshot, mid: InstrumentSnapshot, high: InstrumentSnapshot,
                  f: FlyLevels, settlement: SettlementCurrency, now: int): real
  {
    var size := FlySize(config, low, f);
    var debitUsd := ToUsd(settlement, FlyDebit(low, f, size), low.quote.indexPrice);
    -(debitUsd + DetectorFees(FlyFeeContext(config, low, mid, high, f, settlement, size, now), settlement).totalUsd)
  }

  /** Every gate a window of three strikes has to pass to become a butterfly. */
  predicate FlyAccepted(config: AppConfig, low: InstrumentSnapshot, mid: InstrumentSnapshot, high: InstrumentSnapshot,
                        settlement: SettlementCurrency, now: int)
  {
    var levels := FlyLevelsOf(config, low, mid, high);
    && levels.Some?
    && var f := levels.value;
       var size := FlySize(config, low, f);
       var fees := DetectorFees(FlyFeeContext(config, low, mid, high, f, settlement, size, now), settlement);
       var net := FlyNet(config, low, mid, high, f, settlement, now);
       && size > 0.0
       && net > 0.0
       && net >= config.minEdgeUsd
       && EdgeRatio(net, fees.totalUsd) >= config.minEdgeRatio
  }

  /** The butterfly a window (`low`, `mid`, `high`) of the strike-sorted group yields, if any. */
  function ButterflyAt(config: AppConfig, low: InstrumentSnapshot, mid: InstrumentSnapshot, high: InstrumentSnapshot,
                       currency: Currency, settlement: SettlementCurrency, expiry: int, now: int): (r: Option<StrategyOpportunity>)
    ensures r.Some? <==> FlyAccepted(config, low, mid, high, settlement, now)
  {
    var levels := FlyLevelsOf(config, low, mid, high);
    if levels.Some? && FlyAccepted(config, low, mid, high, settlement, now) then
      Some(ButterflyOf(config, low, mid, high, levels.value, currency, settlement, expiry, now))
    else None
  }

  /**
   * An accepted window passes the edge gates, buys the outer strikes once and sells the
   * middle strike twice, never sells more of the middle than half its bid depth allows, and
   * is bought for a credit larger than its fees; the edge is that credit less the fees.
   */
  lemma ButterflyAtProperties(config: AppConfig, low: InstrumentSnapshot, mid: InstrumentSnapshot, high: InstrumentSnapshot,
                              currency: Currency, settlement: SettlementCurrency, expiry: int, now: int)
    requires ButterflyAt(config, low, mid, high, currency, settlement, expiry, now).Some?
    ensures var o := ButterflyAt(config, low, mid, high, currency, settlement, expiry, now).value;
      && Emitted(config, o) && RatioGate(config, o)
      && o.strategy == Butterfly && o.currency == currency && o.settlement == settlement
      && o.expiry == [expiry]
      && o.strikes == [low.instrument.strike, mid.instrument.strike, high.instrument.strike]
    ensures var o := ButterflyAt(config, low, mid, high, currency, settlement, expiry, now).value;
      var f := FlyLevelsOf(config, low, mid, high).value;
      && o.legs == [ComboLeg(low.instrument.instrumentName, 1, Buy), ComboLeg(mid.instrument.instrumentName, 2, Sell),
                    ComboLeg(high.instrument.instrumentName, 1, Buy)]
      && |o.touches| == 3 && o.touches[1].sizeContracts == 2.0 * o.sizeContracts
      && 2.0 * o.sizeContracts <= f.bidMid.amount
      && o.sizeContracts <= MaxContractsFromTicket(config, low)
      && o.referenceIndex == low.quote.indexPrice
      && o.totalCost == FlyDebit(low, f, o.sizeContracts)
      && ToUsd(settlement, o.totalCost, o.referenceIndex) + o.feeBreakdown.totalUsd < 0.0
      && o.netEdgeUsd == -(ToUsd(settlement, o.totalCost, o.referenceIndex) + o.feeBreakdown.totalUsd)
      && o.maxPayout == SpreadPayoutUsd(low, high, o.sizeContracts)
      && o.executionPlan == Plan(config, o.legs, o.sizeContracts, o.totalCost)
  {
  }

  /** An accepted window is an emitted butterfly of the group's key. */
  lemma ButterflyAtEmitted(config: AppConfig, low: InstrumentSnapshot, mid: InstrumentSnapshot, high: InstrumentSnapshot,
                              currency: Currency, settlement: SettlementCurrency, expiry: int, now: int)
    requires ButterflyAt(config, low, mid, high, currency, settlement, expiry, now).Some?
    ensures var o := ButterflyAt(config, low, mid, high, currency, settlement, expiry, now).value;
      && Emitted(config, o) && RatioGate(config, o)
      && o.strategy == Butterfly && o.currency == currency && o.settlement == settlement
      && o.expiry == [expiry]
      && o.strikes == [low.instrument.strike, mid.instrument.strike, high.instrument.strike]
  {
  }

  /** The opportunity recorded for an accepted window. */
  function ButterflyOf(config: AppConfig, low: InstrumentSnapshot, mid: InstrumentSnapshot, high: InstrumentSnapshot,
                       f: FlyLevels, currency: Currency, settlement: SettlementCurrency, expiry: int, now: int): (o: StrategyOpportunity)
    ensures o.netEdgeUsd == -(ToUsd(settlement, o.totalCost, o.referenceIndex) + o.feeBreakdown.totalUsd)
    ensures o.totalCost == FlyDebit(low, f, o.sizeContracts)
  {
    var size := FlySize(config, low, f);
    var debit := FlyDebit(low, f, size);
    var refIndex := low.quote.indexPrice;
    var legs := [ComboLeg(low.instrument.instrumentName, 1, Buy), ComboLeg(mid.instrument.instrumentName, 2, Sell),
                 ComboLeg(high.instrument.instrumentName, 1, Buy)];
    var touches := [LegTouch(low.instrument.instrumentName, Buy, f.askLow.price, size),
                    LegTouch(mid.instrument.instrumentName, Sell, f.bidMid.price, size * 2.0),
                    LegTouch(high.instrument.instrumentName, Buy, f.askHigh.price, size)];
    var fees := DetectorFees(FlyFeeContext(config, low, mid, high, f, settlement, size, now), settlement);
    var net := FlyNet(config, low, mid, high, f, settlement, now);
    StrategyOpportunity(
      Butterfly, currency, settlement, [expiry],
      [low.instrument.strike, mid.instrument.strike, high.instrument.strike],
      legs, touches, debit, SpreadPayoutUsd(low, high, size), fees,
      FromUsd(settlement, net, refIndex), net, refIndex * size * low.instrument.contractSize,
      refIndex, ComputeEdgeBps(net, size, refIndex, settlement), size,
      Plan(config, legs, size, debit))
  }

  /** The evaluation of one window of three adjacent strikes. */
  function ButterflyWindow(config: AppConfig, currency: Currency, settlement: SettlementCurrency, expiry: int, now: int)
    : (InstrumentSnapshot, InstrumentSnapshot, InstrumentSnapshot) -> Option<StrategyOpportunity>
  {
    (low, mid, high) => ButterflyAt(config, low, mid, high, currency, settlement, expiry, now)
  }

  function ButterflyWindows(config: AppConfig, sorted: seq<InstrumentSnapshot>, currency: Currency,
                            settlement: SettlementCurrency, expiry: int, now: int): seq<Option<StrategyOpportunity>>
  {
    Triples(sorted, ButterflyWindow(config, currency, settlement, expiry, now))
  }

  /** `detect_butterflies`: sort the group by strike, then evaluate every three adjacent strikes. */
  method DetectButterflies(config: AppConfig, instruments: seq<InstrumentSnapshot>, currency: Currency,
                           settlement: SettlementCurrency, expiry: int, now: int) returns (results: seq<StrategyOpportunity>)
    ensures results == Somes(ButterflyWindows(config, SortByKey(instruments, StrikeKey), currency, settlement, expiry, now))
    ensures forall o :: o in results ==> FromGroup(config, o, Butterfly, currency, settlement, expiry)
    ensures |results| + 1 < |instruments| || |results| == 0
  {
    var byStrike := SortByKey(instruments, StrikeKey);
    results := CollectTriples(byStrike, ButterflyWindow(config, currency, settlement, expiry, now));
    ButterflyWindowsFromGroup(config, byStrike, currency, settlement, expiry, now);
  }

  /** Every window result passes the gates and carries the group's key. */
  lemma ButterflyWindowsFromGroup(config: AppConfig, sorted: seq<InstrumentSnapshot>, currency: Currency,
                              settlement: SettlementCurrency, expiry: int, now: int)
    ensures forall o :: o in Somes(ButterflyWindows(config, sorted, currency, settlement, expiry, now)) ==>
      FromGroup(config, o, Butterfly, currency, settlement, expiry)
  {
    var f := ButterflyWindow(config, currency, settlement, expiry, now);
    forall low, mid, high | f(low, mid, high).Some?
      ensures FromGroup(config, f(low, mid, high).value, Butterfly, currency, settlement, expiry)
    {
      ButterflyAtEmitted(config, low, mid, high, currency, settlement, expiry, now);
    }
    TriplesSomesAll(sorted, f, o => FromGroup(config, o, Butterfly, currency, settlement, expiry));
  }
}
