/**
 * The calendar detector: instruments of one currency, strike, settlement and kind are
 * sorted by expiry, and every pair of neighbouring expiries is evaluated as "sell the near
 * expiry at its bid, buy the far expiry at its ask". Groups are visited in the unspecified
 * order of the map that holds them.
 */
module ArbDetectCalendars {
  import opened Wrappers
  import opened ArbModel
  import opened ArbConfig
  import opened ArbFees
  import opened Sorting
  import opened ArbDetectCommon

  /** The grouping key: currency, strike, settlement currency and option kind. */
  datatype CalendarKey = CalendarKey(currency: Currency, strike: real, settlement: SettlementCurrency, kind: OptionKind)

  function CalendarKeyOf(s: InstrumentSnapshot): CalendarKey {
    CalendarKey(s.instrument.currency, s.instrument.strike, s.instrument.settlementCurrency, s.instrument.optionKind)
  }

  function ExpiryKey(s: InstrumentSnapshot): real {
    s.instrument.expiry as real
  }

  /** The near bid sold and the far ask bought. */
  datatype CalendarLevels = CalendarLevels(nearBid: QuoteLevel, farAsk: QuoteLevel)

  function CalendarLevelsOf(config: AppConfig, near: InstrumentSnapshot, far: InstrumentSnapshot): (r: Option<CalendarLevels>)
    ensures r.Some? <==> DepthLevel(near.quote.bestBid, config).Some? && DepthLevel(far.quote.bestAsk, config).Some?
    ensures r.Some? ==> near.quote.bestBid == Some(r.value.nearBid) && far.quote.bestAsk == Some(r.value.farAsk)
  {
    var nearBid := DepthLevel(near.quote.bestBid, config);
    var farAsk := DepthLevel(far.quote.bestAsk, config);
    if nearBid.None? || farAsk.None? then None else Some(CalendarLevels(nearBid.value, farAsk.value))
  }

  function CalendarSize(config: AppConfig, near: InstrumentSnapshot, c: CalendarLevels): (size: real)
    ensures size <= c.nearBid.amount && size <= c.farAsk.amount && size <= MaxContractsFromTicket(config, near)
  {
    Min(Min(c.nearBid.amount, c.farAsk.amount), MaxContractsFromTicket(config, near))
  }

  /** Received for the near leg less paid for the far leg, in the settlement currency. */
  function CalendarCredit(near: InstrumentSnapshot, far: InstrumentSnapshot, c: CalendarLevels, size: real): real {
    c.nearBid.price * size * near.instrument.contractSize - c.farAsk.price * size * far.instrument.contractSize
  }

  function CalendarFeeContext(config: AppConfig, near: InstrumentSnapshot, far: InstrumentSnapshot, c: CalendarLevels,
                              settlement: SettlementCurrency, size: real, now: int): (ctx: FeeComputationContext)
    ensures |ctx.legs| == 2 && SameSettlement(ctx.legs, settlement)
  {
    FeeComputationContext([TakerLeg(near, Sell, settlement, c.nearBid.price, size, now),
                           TakerLeg(far, Buy, settlement, c.farAsk.price, size, now)],
                          config.holdToExpiry)
  }

  function CalendarFees(config: AppConfig, near: InstrumentSnapshot, far: InstrumentSnapshot, c: CalendarLevels,
                        settlement: SettlementCurrency, now: int): FeeBreakdown
  {
    DetectorFees(CalendarFeeContext(config, near, far, c, settlement, CalendarSize(config, near, c), now), settlement)
  }

  /** The calendar's net edge: the credit in USD (at the near index) less the fees. */
  function CalendarNet(config: AppConfig, near: InstrumentSnapshot, far: InstrumentSnapshot, c: CalendarLevels,
                       settlement: SettlementCurrency, now: int): real
  {
    var size := CalendarSize(config, near, c);
    ToUsd(settlement, CalendarCredit(near, far, c, size), near.quote.indexPrice)
      - CalendarFees(config, near, far, c, settlement, now).totalUsd
  }

  /** Every gate a pair of neighbouring expiries has to pass to become a calendar. */
  predicate CalendarAccepted(config: AppConfig, near: InstrumentSnapshot, far: InstrumentSnapshot,
                             settlement: SettlementCurrency, now: int)
  {
    var levels := CalendarLevelsOf(config, near, far);
    && near.instrument.expiry != far.instrument.expiry
    && levels.Some?
    && var c := levels.value;
       var size := CalendarSize(config, near, c);
       var net := CalendarNet(config, near, far, c, settlement, now);
       && size > 0.0
       && ToUsd(settlement, CalendarCredit(near, far, c, size), near.quote.indexPrice) > 0.0
       && net > 0.0
       && net >= config.minEdgeUsd
       && EdgeRatio(net, CalendarFees(config, near, far, c, settlement, now).totalUsd) >= config.minEdgeRatio
  }

  /** The calendar a window (`near`, `far`) of the expiry-sorted group yields, if any. */
  function CalendarAt(config: AppConfig, near: InstrumentSnapshot, far: InstrumentSnapshot, currency: Currency,
                      settlement: SettlementCurrency, now: int): (r: Option<StrategyOpportunity>)
    ensures r.Some? <==> CalendarAccepted(config, near, far, settlement, now)
  {
    var levels := CalendarLevelsOf(config, near, far);
    if levels.Some? && CalendarAccepted(config, near, far, settlement, now) then
      Some(CalendarOf(config, near, far, levels.value, currency, settlement, now))
    else None
  }

  /** The opportunity recorded for an accepted pair. */
  function CalendarOf(config: AppConfig, near: InstrumentSnapshot, far: InstrumentSnapshot, c: CalendarLevels,
                      currency: Currency, settlement: SettlementCurrency, now: int): StrategyOpportunity
  {
    var size := CalendarSize(config, near, c);
    var credit := CalendarCredit(near, far, c, size);
    var refIndex := near.quote.indexPrice;
    var legs := [ComboLeg(near.instrument.instrumentName, 1, Sell), ComboLeg(far.instrument.instrumentName, 1, Buy)];
    var touches := [LegTouch(near.instrument.instrumentName, Sell, c.nearBid.price, size),
                    LegTouch(far.instrument.instrumentName, Buy, c.farAsk.price, size)];
    var net := CalendarNet(config, near, far, c, settlement, now);
    StrategyOpportunity(
      Calendar, currency, settlement, [near.instrument.expiry, far.instrument.expiry], [near.instrument.strike],
      legs, touches, credit, 0.0, CalendarFees(config, near, far, c, settlement, now),
      FromUsd(settlement, net, refIndex), net, refIndex * size * near.instrument.contractSize,
      refIndex, ComputeEdgeBps(net, size, refIndex, settlement), size,
      Plan(config, legs, size, credit))
  }

  /**
   * An accepted pair passes the edge gates, sells the near expiry and buys the far one,
   * never exceeds the depth of either level or the ticket, and opens for a positive credit;
   * the edge is that credit in USD less the fees, and nothing is paid out at expiry.
   */
  lemma CalendarAtProperties(config: AppConfig, near: InstrumentSnapshot, far: InstrumentSnapshot, currency: Currency,
                             settlement: SettlementCurrency, now: int)
    requires CalendarAt(config, near, far, currency, settlement, now).Some?
    ensures var o := CalendarAt(config, near, far, currency, settlement, now).value;
      && Emitted(config, o) && RatioGate(config, o)
      && o.strategy == Calendar && o.currency == currency && o.settlement == settlement
      && o.expiry == [near.instrument.expiry, far.instrument.expiry] && o.strikes == [near.instrument.strike]
      && near.instrument.expiry != far.instrument.expiry
      && o.legs == [ComboLeg(near.instrument.instrumentName, 1, Sell), ComboLeg(far.instrument.instrumentName, 1, Buy)]
    ensures var o := CalendarAt(config, near, far, currency, settlement, now).value;
      var c := CalendarLevelsOf(config, near, far).value;
      && o.sizeContracts <= c.nearBid.amount && o.sizeContracts <= c.farAsk.amount
      && o.sizeContracts <= MaxContractsFromTicket(config, near)
      && o.referenceIndex == near.quote.indexPrice
      && o.totalCost == CalendarCredit(near, far, c, o.sizeContracts)
      && ToUsd(settlement, o.totalCost, o.referenceIndex) > 0.0
      && o.netEdgeUsd == ToUsd(settlement, o.totalCost, o.referenceIndex) - o.feeBreakdown.totalUsd
      && o.maxPayout == 0.0
      && o.executionPlan == Plan(config, o.legs, o.sizeContracts, o.totalCost)
  {
  }

  function CalendarWindows(config: AppConfig, sorted: seq<InstrumentSnapshot>, currency: Currency,
                           settlement: SettlementCurrency, now: int): seq<Option<StrategyOpportunity>>
  {
    Pairs(sorted, (near, far) => CalendarAt(config, near, far, currency, settlement, now))
  }

  /** Two entries of the snapshot a calendar can pair: same key, the first expiring first. */
  predicate CalendarPair(near: InstrumentSnapshot, far: InstrumentSnapshot) {
    CalendarKeyOf(near) == CalendarKeyOf(far) && near.instrument.expiry < far.instrument.expiry
  }

  /** An opportunity that sells `near` and buys `far`, a calendar pair of the snapshot. */
  predicate CalendarLegs(o: StrategyOpportunity, near: InstrumentSnapshot, far: InstrumentSnapshot) {
    && CalendarPair(near, far)
    && o.currency == near.instrument.currency && o.settlement == near.instrument.settlementCurrency
    && o.expiry == [near.instrument.expiry, far.instrument.expiry] && o.strikes == [near.instrument.strike]
    && o.legs == [ComboLeg(near.instrument.instrumentName, 1, Sell), ComboLeg(far.instrument.instrumentName, 1, Buy)]
  }

  /** An emitted calendar built from two entries of `snapshot`. */
  predicate CalendarFrom(config: AppConfig, o: StrategyOpportunity, snapshot: seq<InstrumentSnapshot>) {
    && Emitted(config, o) && RatioGate(config, o) && o.strategy == Calendar
    && ToUsd(o.settlement, o.totalCost, o.referenceIndex) > 0.0
    && exists near, far :: near in snapshot && far in snapshot && CalendarLegs(o, near, far)
  }

  /** The calendars found in the group with key `k`: its accepted neighbouring-expiry windows. */
  function CalendarGroupFound(config: AppConfig, snapshot: seq<InstrumentSnapshot>, k: CalendarKey, now: int): seq<StrategyOpportunity> {
    Somes(CalendarWindows(config, SortByKey(Members(snapshot, CalendarKeyOf, k), ExpiryKey), k.currency, k.settlement, now))
  }

  /** The calendars of each group `order` names. */
  function CalendarParts(config: AppConfig, snapshot: seq<InstrumentSnapshot>, order: seq<CalendarKey>, now: int): (r: seq<seq<StrategyOpportunity>>)
    ensures |r| == |order| && forall i :: 0 <= i < |order| ==> r[i] == CalendarGroupFound(config, snapshot, order[i], now)
  {
    seq(|order|, i requires 0 <= i < |order| => CalendarGroupFound(config, snapshot, order[i], now))
  }

  predicate HasCalendarPair(snapshot: seq<InstrumentSnapshot>) {
    exists near, far :: near in snapshot && far in snapshot && CalendarPair(near, far)
  }

  /** A call and a put never form a calendar pair, whatever their expiries. */
  lemma CallAndPutNoCalendar(call: InstrumentSnapshot, put: InstrumentSnapshot)
    requires call.instrument.optionKind == Call && put.instrument.optionKind == Put
    ensures !HasCalendarPair([call, put])
  {
    forall near, far | near in [call, put] && far in [call, put]
      ensures !CalendarPair(near, far)
    {
    }
  }

  /** Every window of a group's expiry-sorted list is a calendar pair of the snapshot. */
  lemma CalendarWindowFrom(config: AppConfig, snapshot: seq<InstrumentSnapshot>, k: CalendarKey, now: int, i: nat)
    requires i < |CalendarWindows(config, SortByKey(Members(snapshot, CalendarKeyOf, k), ExpiryKey), k.currency, k.settlement, now)|
    requires CalendarWindows(config, SortByKey(Members(snapshot, CalendarKeyOf, k), ExpiryKey), k.currency, k.settlement, now)[i].Some?
    ensures CalendarFrom(config,
      CalendarWindows(config, SortByKey(Members(snapshot, CalendarKeyOf, k), ExpiryKey), k.currency, k.settlement, now)[i].value,
      snapshot)
  {
    var group := Members(snapshot, CalendarKeyOf, k);
    var sorted := SortByKey(group, ExpiryKey);
    var windows := CalendarWindows(config, sorted, k.currency, k.settlement, now);
    var near, far := sorted[i], sorted[i + 1];
    assert windows[i] == CalendarAt(config, near, far, k.currency, k.settlement, now);
    SortedNeighbours(group, ExpiryKey, i);
    MembersSound(snapshot, CalendarKeyOf, k);
    CalendarAtProperties(config, near, far, k.currency, k.settlement, now);
    assert CalendarLegs(windows[i].value, near, far);
  }

  lemma CalendarGroupFrom(config: AppConfig, snapshot: seq<InstrumentSnapshot>, k: CalendarKey, now: int)
    ensures forall o :: o in CalendarGroupFound(config, snapshot, k, now) ==> CalendarFrom(config, o, snapshot)
  {
    var windows := CalendarWindows(config, SortByKey(Members(snapshot, CalendarKeyOf, k), ExpiryKey),
                                   k.currency, k.settlement, now);
    forall o | o in Somes(windows)
      ensures CalendarFrom(config, o, snapshot)
    {
      var i := SomesIndex(windows, o);
      CalendarWindowFrom(config, snapshot, k, now, i);
    }
  }

  /** One more group appends its calendars. */
  lemma CalendarPartsStep(config: AppConfig, snapshot: seq<InstrumentSnapshot>, order: seq<CalendarKey>, k: CalendarKey, now: int)
    ensures Concat(CalendarParts(config, snapshot, order + [k], now)) ==
      Concat(CalendarParts(config, snapshot, order, now)) + CalendarGroupFound(config, snapshot, k, now)
  {
    var parts := CalendarParts(config, snapshot, order, now);
    var longer := CalendarParts(config, snapshot, order + [k], now);
    var found := CalendarGroupFound(config, snapshot, k, now);
    assert forall i :: 0 <= i < |order| ==> longer[i] == parts[i] by {
      assert forall i :: 0 <= i < |order| ==> (order + [k])[i] == order[i];
    }
    assert longer == parts + [found];
    ConcatStep(parts, found);
  }

  /** A calendar is among those of the groups `order` names exactly when one of those groups yields it. */
  lemma CalendarPartsMembers(config: AppConfig, snapshot: seq<InstrumentSnapshot>, order: seq<CalendarKey>, now: int)
    ensures forall o :: o in Concat(CalendarParts(config, snapshot, order, now)) <==>
      exists k :: k in order && o in CalendarGroupFound(config, snapshot, k, now)
  {
    var parts := CalendarParts(config, snapshot, order, now);
    forall o | o in Concat(parts)
      ensures exists k :: k in order && o in CalendarGroupFound(config, snapshot, k, now)
    {
      var i := ConcatPart(parts, o);
      assert order[i] in order && o in CalendarGroupFound(config, snapshot, order[i], now);
    }
    forall o, k | k in order && o in CalendarGroupFound(config, snapshot, k, now)
      ensures o in Concat(parts)
    {
      var i :| 0 <= i < |order| && order[i] == k;
      ConcatHas(parts, i, o);
    }
  }

  /**
   * The groups' calendars in any key order are exactly the calendars of the snapshot's groups,
   * each one a calendar of the snapshot.
   */
  lemma CalendarPartsAll(config: AppConfig, snapshot: seq<InstrumentSnapshot>, order: seq<CalendarKey>, now: int)
    requires Enumerates(order, KeySet(snapshot, CalendarKeyOf))
    ensures forall o :: o in Concat(CalendarParts(config, snapshot, order, now)) <==>
      exists k :: k in KeySet(snapshot, CalendarKeyOf) && o in CalendarGroupFound(config, snapshot, k, now)
    ensures forall o :: o in Concat(CalendarParts(config, snapshot, order, now)) ==> CalendarFrom(config, o, snapshot)
    ensures |Concat(CalendarParts(config, snapshot, order, now))| > 0 ==> HasCalendarPair(snapshot)
  {
    CalendarPartsMembers(config, snapshot, order, now);
    forall o | o in Concat(CalendarParts(config, snapshot, order, now))
      ensures CalendarFrom(config, o, snapshot)
    {
      var k :| k in order && o in CalendarGroupFound(config, snapshot, k, now);
      CalendarGroupFrom(config, snapshot, k, now);
    }
    var r := Concat(CalendarParts(config, snapshot, order, now));
    if |r| > 0 {
      assert CalendarFrom(config, r[0], snapshot);
    }
  }

  /**
   * The body of `detect_calendars` for one group: skip groups of fewer than two, and when
   * calendars are allowed evaluate every pair of neighbouring expiries.
   */
  method CalendarGroup(config: AppConfig, snapshot: seq<InstrumentSnapshot>, k: CalendarKey, instruments: seq<InstrumentSnapshot>, now: int)
    returns (found: seq<StrategyOpportunity>)
    requires instruments == Members(snapshot, CalendarKeyOf, k)
    ensures found == if Allows(config.strategyFilter, Calendar) then CalendarGroupFound(config, snapshot, k, now) else []
  {
    found := [];
    if |instruments| >= 2 && Allows(config.strategyFilter, Calendar) {
      var byExpiry := SortByKey(instruments, ExpiryKey);
      found := CollectPairs(byExpiry, (near, far) => CalendarAt(config, near, far, k.currency, k.settlement, now));
    }
  }

  /** `detect_calendars`: group by (currency, strike, settlement, kind) and scan every group. */
  method DetectCalendars(config: AppConfig, snapshot: seq<InstrumentSnapshot>, now: int)
    returns (results: seq<StrategyOpportunity>)
    ensures !Allows(config.strategyFilter, Calendar) ==> results == []
    ensures Allows(config.strategyFilter, Calendar) ==>
      exists order :: Enumerates(order, KeySet(snapshot, CalendarKeyOf)) && results == Concat(CalendarParts(config, snapshot, order, now))
    ensures forall o :: o in results <==>
      Allows(config.strategyFilter, Calendar) && exists k :: k in KeySet(snapshot, CalendarKeyOf) && o in CalendarGroupFound(config, snapshot, k, now)
    ensures forall o :: o in results ==> CalendarFrom(config, o, snapshot)
    ensures |results| > 0 ==> HasCalendarPair(snapshot)
  {
    var grouped := GroupBy(snapshot, CalendarKeyOf);
    results := [];
    var keys := grouped.Keys;
    ghost var order: seq<CalendarKey> := [];
    while keys != {}
      invariant keys <= grouped.Keys
      invariant Enumerates(order, grouped.Keys - keys)
      invariant results == if Allows(config.strategyFilter, Calendar) then Concat(CalendarParts(config, snapshot, order, now)) else []
      decreases keys
    {
      var k :| k in keys;
      var found := CalendarGroup(config, snapshot, k, grouped[k], now);
      results := results + found;
      CalendarPartsStep(config, snapshot, order, k, now);
      EnumeratesStep(order, grouped.Keys, keys, k);
      order := order + [k];
      keys := keys - {k};
    }
    assert grouped.Keys - keys == grouped.Keys;
    assert Enumerates(order, KeySet(snapshot, CalendarKeyOf));
    CalendarPartsAll(config, snapshot, order, now);
  }
}
