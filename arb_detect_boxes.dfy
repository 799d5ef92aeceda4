/**
 * The box detector: USDC-settled instruments of one expiry and currency are split into
 * strike-sorted calls and puts; every pair of neighbouring call strikes, with the first put
 * at each of the two strikes, is evaluated as a long call spread plus a long put spread,
 * whose payout at expiry is the strike distance.
 */
module ArbDetectBoxes {
  import opened Wrappers
  import opened ArbModel
  import opened ArbConfig
  import opened ArbFees
  import opened Sorting
  import opened ArbDetectCommon
  import opened ArbDetectSpreads

  /** The grouping key: expiry, settlement currency and currency. */
  datatype BoxKey = BoxKey(expiry: int, settlement: SettlementCurrency, currency: Currency)

  function BoxKeyOf(s: InstrumentSnapshot): BoxKey {
    BoxKey(s.instrument.expiry, s.instrument.settlementCurrency, s.instrument.currency)
  }

  /** The entries the box grouping loop does not skip: the USDC-settled ones, in order. */
  function UsdcOnly(xs: seq<InstrumentSnapshot>): (r: seq<InstrumentSnapshot>)
    ensures forall x :: x in r <==> x in xs && x.instrument.settlementCurrency == Usdc
  {
    if |xs| == 0 then []
    else
      var front := UsdcOnly(xs[..|xs| - 1]);
      assert xs == xs[..|xs| - 1] + [xs[|xs| - 1]];
      front + (if xs[|xs| - 1].instrument.settlementCurrency == Usdc then [xs[|xs| - 1]] else [])
  }

  /** The calls (or the puts) of a group, in order. */
  function OfKind(xs: seq<InstrumentSnapshot>, kind: OptionKind): (r: seq<InstrumentSnapshot>)
    ensures forall x :: x in r <==> x in xs && x.instrument.optionKind == kind
  {
    if |xs| == 0 then []
    else
      var front := OfKind(xs[..|xs| - 1], kind);
      assert xs == xs[..|xs| - 1] + [xs[|xs| - 1]];
      front + (if xs[|xs| - 1].instrument.optionKind == kind then [xs[|xs| - 1]] else [])
  }

  /** `iter().find(|p| p.strike == strike)`: the first entry at `strike`. */
  function FindByStrike(xs: seq<InstrumentSnapshot>, strike: real): (r: Option<InstrumentSnapshot>)
    ensures r.None? <==> forall x :: x in xs ==> x.instrument.strike != strike
    ensures r.Some? ==> r.value in xs && r.value.instrument.strike == strike
    ensures r.Some? ==> exists i :: 0 <= i < |xs| && xs[i] == r.value
                                    && forall j :: 0 <= j < i ==> xs[j].instrument.strike != strike
  {
    if |xs| == 0 then None
    else if xs[0].instrument.strike == strike then Some(xs[0])
    else
      var r := FindByStrike(xs[1..], strike);
      assert forall x :: x in xs[1..] ==> x in xs;
      assert forall x :: x in xs ==> x == xs[0] || x in xs[1..];
      if r.Some? then
        var i :| 0 <= i < |xs[1..]| && xs[1..][i] == r.value
                 && forall j :: 0 <= j < i ==> xs[1..][j].instrument.strike != strike;
        assert xs[i + 1] == r.value;
        assert forall j :: 0 <= j < i + 1 ==> xs[j].instrument.strike != strike by {
          forall j | 0 <= j < i + 1
            ensures xs[j].instrument.strike != strike
          {
            if j > 0 {
              assert xs[j] == xs[1..][j - 1];
            }
          }
        }
        r
      else r
  }

  /** The four instruments of a box: calls and puts at a low and a high strike. */
  datatype BoxQuad = BoxQuad(cLow: InstrumentSnapshot, cHigh: InstrumentSnapshot,
                             pLow: InstrumentSnapshot, pHigh: InstrumentSnapshot)

  function BoxQuadOf(cLow: InstrumentSnapshot, cHigh: InstrumentSnapshot, puts: seq<InstrumentSnapshot>): (r: Option<BoxQuad>)
    ensures r.Some? <==> FindByStrike(puts, cLow.instrument.strike).Some? && FindByStrike(puts, cHigh.instrument.strike).Some?
    ensures r.Some? ==>
      && r.value.cLow == cLow && r.value.cHigh == cHigh
      && Some(r.value.pLow) == FindByStrike(puts, cLow.instrument.strike)
      && Some(r.value.pHigh) == FindByStrike(puts, cHigh.instrument.strike)
  {
    var pLow := FindByStrike(puts, cLow.instrument.strike);
    var pHigh := FindByStrike(puts, cHigh.instrument.strike);
    if pLow.None? || pHigh.None? then None else Some(BoxQuad(cLow, cHigh, pLow.value, pHigh.value))
  }

  /** Bought: the low call's ask and the high put's ask; sold: the high call's and the low put's bids. */
  datatype BoxLevels = BoxLevels(askCallLow: QuoteLevel, bidCallHigh: QuoteLevel, askPutHigh: QuoteLevel, bidPutLow: QuoteLevel)

  function BoxLevelsOf(config: AppConfig, q: BoxQuad): (r: Option<BoxLevels>)
    ensures r.Some? <==> DepthLevel(q.cLow.quote.bestAsk, config).Some? && DepthLevel(q.cHigh.quote.bestBid, config).Some?
                         && DepthLevel(q.pHigh.quote.bestAsk, config).Some? && DepthLevel(q.pLow.quote.bestBid, config).Some?
    ensures r.Some? ==> q.cLow.quote.bestAsk == Some(r.value.askCallLow) && q.cHigh.quote.bestBid == Some(r.value.bidCallHigh)
                        && q.pHigh.quote.bestAsk == Some(r.value.askPutHigh) && q.pLow.quote.bestBid == Some(r.value.bidPutLow)
  {
    var askCallLow := DepthLevel(q.cLow.quote.bestAsk, config);
    var bidCallHigh := DepthLevel(q.cHigh.quote.bestBid, config);
    var askPutHigh := DepthLevel(q.pHigh.quote.bestAsk, config);
    var bidPutLow := DepthLevel(q.pLow.quote.bestBid, config);
    if askCallLow.None? || bidCallHigh.None? || askPutHigh.None? || bidPutLow.None? then None
    else Some(BoxLevels(askCallLow.value, bidCallHigh.value, askPutHigh.value, bidPutLow.value))
  }

  function BoxSize(config: AppConfig, q: BoxQuad, l: BoxLevels): (size: real)
    ensures size <= l.askCallLow.amount && size <= l.bidCallHigh.amount
    ensures size <= l.askPutHigh.amount && size <= l.bidPutLow.amount
    ensures size <= MaxContractsFromTicket(config, q.cLow)
  {
    Min(Min(Min(Min(l.askCallLow.amount, l.bidCallHigh.amount), l.askPutHigh.amount), l.bidPutLow.amount),
        MaxContractsFromTicket(config, q.cLow))
  }

  /** The per-contract price of the four legs. */
  function BoxComboPrice(l: BoxLevels): real {
    l.askCallLow.price - l.bidCallHigh.price - l.bidPutLow.price + l.askPutHigh.price
  }

  /** What `size` boxes pay at expiry: the strike distance per contract. */
  function BoxFair(q: BoxQuad, size: real): real {
    (q.cHigh.instrument.strike - q.cLow.instrument.strike) * size * q.cLow.instrument.contractSize
  }

  function BoxFeeContext(config: AppConfig, q: BoxQuad, l: BoxLevels, settlement: SettlementCurrency,
                         size: real, now: int): (ctx: FeeComputationContext)
    ensures |ctx.legs| == 4 && SameSettlement(ctx.legs, settlement)
  {
    FeeComputationContext([TakerLeg(q.cLow, Buy, settlement, l.askCallLow.price, size, now),
                           TakerLeg(q.cHigh, Sell, settlement, l.bidCallHigh.price, size, now),
                           TakerLeg(q.pLow, Sell, settlement, l.bidPutLow.price, size, now),
                           TakerLeg(q.pHigh, Buy, settlement, l.askPutHigh.price, size, now)],
                          config.holdToExpiry)
  }

  function BoxFees(config: AppConfig, q: BoxQuad, l: BoxLevels, settlement: SettlementCurrency, now: int): FeeBreakdown {
    DetectorFees(BoxFeeContext(config, q, l, settlement, BoxSize(config, q, l), now), settlement)
  }

  /** The box's net edge: the payout less the combo price (taken as USD) less the fees. */
  function BoxNet(config: AppConfig, q: BoxQuad, l: BoxLevels, settlement: SettlementCurrency, now: int): real {
    var size := BoxSize(config, q, l);
    BoxFair(q, size) - BoxComboPrice(l) * size * q.cLow.instrument.contractSize
      - BoxFees(config, q, l, settlement, now).totalUsd
  }

  /** Every gate a pair of neighbouring call strikes has to pass to become a box (no ratio gate). */
  predicate BoxAccepted(config: AppConfig, cLow: InstrumentSnapshot, cHigh: InstrumentSnapshot,
                        puts: seq<InstrumentSnapshot>, settlement: SettlementCurrency, now: int)
  {
    var quad := BoxQuadOf(cLow, cHigh, puts);
    && quad.Some?
    && var levels := BoxLevelsOf(config, quad.value);
       && levels.Some?
       && var net := BoxNet(config, quad.value, levels.value, settlement, now);
          && BoxSize(config, quad.value, levels.value) > 0.0
          && net > 0.0
          && net >= config.minEdgeUsd
  }

  /** The box a window (`cLow`, `cHigh`) of the strike-sorted calls yields, if any. */
  function BoxAt(config: AppConfig, cLow: InstrumentSnapshot, cHigh: InstrumentSnapshot, puts: seq<InstrumentSnapshot>,
                 currency: Currency, settlement: SettlementCurrency, now: int): (r: Option<StrategyOpportunity>)
    ensures r.Some? <==> BoxAccepted(config, cLow, cHigh, puts, settlement, now)
  {
    var quad := BoxQuadOf(cLow, cHigh, puts);
    if quad.Some? && BoxLevelsOf(config, quad.value).Some? && BoxAccepted(config, cLow, cHigh, puts, settlement, now) then
      Some(BoxOf(config, quad.value, BoxLevelsOf(config, quad.value).value, currency, settlement, now))
    else None
  }

  /** The opportunity recorded for an accepted box. */
  function BoxOf(config: AppConfig, q: BoxQuad, l: BoxLevels, currency: Currency,
                 settlement: SettlementCurrency, now: int): StrategyOpportunity
  {
    var size := BoxSize(config, q, l);
    var cost := BoxComboPrice(l) * size;
    var refIndex := q.cLow.quote.indexPrice;
    var legs := [ComboLeg(q.cLow.instrument.instrumentName, 1, Buy), ComboLeg(q.cHigh.instrument.instrumentName, 1, Sell),
                 ComboLeg(q.pLow.instrument.instrumentName, 1, Sell), ComboLeg(q.pHigh.instrument.instrumentName, 1, Buy)];
    var touches := [LegTouch(q.cLow.instrument.instrumentName, Buy, l.askCallLow.price, size),
                    LegTouch(q.cHigh.instrument.instrumentName, Sell, l.bidCallHigh.price, size),
                    LegTouch(q.pLow.instrument.instrumentName, Sell, l.bidPutLow.price, size),
                    LegTouch(q.pHigh.instrument.instrumentName, Buy, l.askPutHigh.price, size)];
    var net := BoxNet(config, q, l, settlement, now);
    StrategyOpportunity(
      Box, currency, settlement, [q.cLow.instrument.expiry], [q.cLow.instrument.strike, q.cHigh.instrument.strike],
      legs, touches, cost, BoxFair(q, size), BoxFees(config, q, l, settlement, now),
      net, net, refIndex * size * q.cLow.instrument.contractSize,
      refIndex, ComputeEdgeBps(net, size, refIndex, settlement), size,
      Plan(config, legs, size, cost))
  }

  /** An accepted window is the box built from its four instruments and their levels. */
  lemma BoxAtIsBoxOf(config: AppConfig, cLow: InstrumentSnapshot, cHigh: InstrumentSnapshot, puts: seq<InstrumentSnapshot>,
                     currency: Currency, settlement: SettlementCurrency, now: int)
    requires BoxAt(config, cLow, cHigh, puts, currency, settlement, now).Some?
    ensures BoxQuadOf(cLow, cHigh, puts).Some?
    ensures BoxLevelsOf(config, BoxQuadOf(cLow, cHigh, puts).value).Some?
    ensures BoxAccepted(config, cLow, cHigh, puts, settlement, now)
    ensures BoxAt(config, cLow, cHigh, puts, currency, settlement, now).value
         == BoxOf(config, BoxQuadOf(cLow, cHigh, puts).value, BoxLevelsOf(config, BoxQuadOf(cLow, cHigh, puts).value).value,
                  currency, settlement, now)
  {
  }

  /** The structure of the box recorded for four instruments and their levels. */
  lemma BoxOfShape(config: AppConfig, q: BoxQuad, l: BoxLevels, currency: Currency, settlement: SettlementCurrency, now: int)
    ensures var o := BoxOf(config, q, l, currency, settlement, now);
      && o.strategy == Box && o.currency == currency && o.settlement == settlement
      && o.expiry == [q.cLow.instrument.expiry] && o.strikes == [q.cLow.instrument.strike, q.cHigh.instrument.strike]
      && o.legs == [ComboLeg(q.cLow.instrument.instrumentName, 1, Buy), ComboLeg(q.cHigh.instrument.instrumentName, 1, Sell),
                    ComboLeg(q.pLow.instrument.instrumentName, 1, Sell), ComboLeg(q.pHigh.instrument.instrumentName, 1, Buy)]
  {
  }

  /** The size and the payout of the box recorded for four instruments and their levels. */
  lemma BoxOfPayout(config: AppConfig, q: BoxQuad, l: BoxLevels, currency: Currency, settlement: SettlementCurrency, now: int)
    ensures var o := BoxOf(config, q, l, currency, settlement, now);
      && o.sizeContracts == BoxSize(config, q, l)
      && o.maxPayout == BoxFair(q, o.sizeContracts)
  {
  }

  /** The edge of the box recorded for four instruments and their levels. */
  lemma BoxOfEdge(config: AppConfig, q: BoxQuad, l: BoxLevels, currency: Currency, settlement: SettlementCurrency, now: int)
    ensures BoxOf(config, q, l, currency, settlement, now).netEdgeUsd == BoxNet(config, q, l, settlement, now)
  {
  }

  /**
   * An accepted box passes the edge gates (but not the ratio gate), buys the low call and
   * the high put and sells the high call and the low put, with each put at its call's
   * strike; it pays out the strike distance, and the edge is that payout less the combo
   * price and the fees.
   */
  lemma BoxAtProperties(config: AppConfig, cLow: InstrumentSnapshot, cHigh: InstrumentSnapshot, puts: seq<InstrumentSnapshot>,
                        currency: Currency, settlement: SettlementCurrency, now: int)
    requires BoxAt(config, cLow, cHigh, puts, currency, settlement, now).Some?
    ensures var o := BoxAt(config, cLow, cHigh, puts, currency, settlement, now).value;
      var q := BoxQuadOf(cLow, cHigh, puts).value;
      && Emitted(config, o)
      && o.strategy == Box && o.currency == currency && o.settlement == settlement
      && o.expiry == [cLow.instrument.expiry] && o.strikes == [cLow.instrument.strike, cHigh.instrument.strike]
      && q.pLow in puts && q.pHigh in puts
      && q.pLow.instrument.strike == cLow.instrument.strike && q.pHigh.instrument.strike == cHigh.instrument.strike
      && o.legs == [ComboLeg(cLow.instrument.instrumentName, 1, Buy), ComboLeg(cHigh.instrument.instrumentName, 1, Sell),
                    ComboLeg(q.pLow.instrument.instrumentName, 1, Sell), ComboLeg(q.pHigh.instrument.instrumentName, 1, Buy)]
      && o.maxPayout == BoxFair(q, o.sizeContracts)
      && o.netEdgeUsd == BoxNet(config, q, BoxLevelsOf(config, q).value, settlement, now)
  {
    BoxAtIsBoxOf(config, cLow, cHigh, puts, currency, settlement, now);
    var q := BoxQuadOf(cLow, cHigh, puts).value;
    var l := BoxLevelsOf(config, q).value;
    BoxOfShape(config, q, l, currency, settlement, now);
    BoxOfPayout(config, q, l, currency, settlement, now);
    BoxOfEdge(config, q, l, currency, settlement, now);
    assert q.cLow == cLow && q.cHigh == cHigh;
  }

  /**
   * An accepted box is no larger than any of its four touched levels or the ticket limit,
   * reports its edge in USD also as its native edge, and is executed as one IOC combo
   * limited at its cost.
   */
  lemma BoxAtSizing(config: AppConfig, cLow: InstrumentSnapshot, cHigh: InstrumentSnapshot, puts: seq<InstrumentSnapshot>,
                    currency: Currency, settlement: SettlementCurrency, now: int)
    requires BoxAt(config, cLow, cHigh, puts, currency, settlement, now).Some?
    ensures var o := BoxAt(config, cLow, cHigh, puts, currency, settlement, now).value;
      var q := BoxQuadOf(cLow, cHigh, puts).value;
      var l := BoxLevelsOf(config, q).value;
      && o.sizeContracts <= l.askCallLow.amount && o.sizeContracts <= l.bidCallHigh.amount
      && o.sizeContracts <= l.askPutHigh.amount && o.sizeContracts <= l.bidPutLow.amount
      && o.sizeContracts <= MaxContractsFromTicket(config, cLow)
      && o.netEdgeNative == o.netEdgeUsd
      && o.referenceIndex == cLow.quote.indexPrice
      && o.executionPlan == Plan(config, o.legs, o.sizeContracts, o.totalCost)
  {
    BoxAtIsBoxOf(config, cLow, cHigh, puts, currency, settlement, now);
    var q := BoxQuadOf(cLow, cHigh, puts).value;
    var l := BoxLevelsOf(config, q).value;
    assert BoxOf(config, q, l, currency, settlement, now).sizeContracts == BoxSize(config, q, l);
  }

  function BoxWindows(config: AppConfig, calls: seq<InstrumentSnapshot>, puts: seq<InstrumentSnapshot>, currency: Currency,
                      settlement: SettlementCurrency, now: int): seq<Option<StrategyOpportunity>>
  {
    Pairs(calls, (cLow, cHigh) => BoxAt(config, cLow, cHigh, puts, currency, settlement, now))
  }

  /** `o` is a box over these four USDC-settled instruments of one expiry and currency. */
  predicate BoxLegs(o: StrategyOpportunity, cLow: InstrumentSnapshot, cHigh: InstrumentSnapshot,
                    pLow: InstrumentSnapshot, pHigh: InstrumentSnapshot)
  {
    && cLow.instrument.settlementCurrency == Usdc
    && BoxKeyOf(cHigh) == BoxKeyOf(cLow) && BoxKeyOf(pLow) == BoxKeyOf(cLow) && BoxKeyOf(pHigh) == BoxKeyOf(cLow)
    && cLow.instrument.optionKind == Call && cHigh.instrument.optionKind == Call
    && pLow.instrument.optionKind == Put && pHigh.instrument.optionKind == Put
    && cLow.instrument.strike <= cHigh.instrument.strike
    && pLow.instrument.strike == cLow.instrument.strike && pHigh.instrument.strike == cHigh.instrument.strike
    && o.currency == cLow.instrument.currency && o.settlement == Usdc
    && o.expiry == [cLow.instrument.expiry] && o.strikes == [cLow.instrument.strike, cHigh.instrument.strike]
    && o.legs == [ComboLeg(cLow.instrument.instrumentName, 1, Buy), ComboLeg(cHigh.instrument.instrumentName, 1, Sell),
                  ComboLeg(pLow.instrument.instrumentName, 1, Sell), ComboLeg(pHigh.instrument.instrumentName, 1, Buy)]
    && o.maxPayout == BoxFair(BoxQuad(cLow, cHigh, pLow, pHigh), o.sizeContracts)
  }

  /** An emitted box built from four entries of `snapshot`. */
  predicate BoxFrom(config: AppConfig, o: StrategyOpportunity, snapshot: seq<InstrumentSnapshot>) {
    && Emitted(config, o) && o.strategy == Box
    && exists cLow, cHigh, pLow, pHigh ::
         cLow in snapshot && cHigh in snapshot && pLow in snapshot && pHigh in snapshot
         && BoxLegs(o, cLow, cHigh, pLow, pHigh)
  }

  /** The strike-sorted calls and puts of one group. */
  function SortedCalls(group: seq<InstrumentSnapshot>): seq<InstrumentSnapshot> {
    SortByKey(OfKind(group, Call), StrikeKey)
  }

  function SortedPuts(group: seq<InstrumentSnapshot>): seq<InstrumentSnapshot> {
    SortByKey(OfKind(group, Put), StrikeKey)
  }

  function BoxGroup(snapshot: seq<InstrumentSnapshot>, k: BoxKey): seq<InstrumentSnapshot> {
    Members(UsdcOnly(snapshot), BoxKeyOf, k)
  }

  /** Every entry of a group is a USDC-settled entry of the snapshot with the group's key. */
  lemma BoxGroupSound(snapshot: seq<InstrumentSnapshot>, k: BoxKey, x: InstrumentSnapshot)
    requires x in BoxGroup(snapshot, k)
    ensures x in snapshot && x.instrument.settlementCurrency == Usdc && BoxKeyOf(x) == k
  {
    MembersSound(UsdcOnly(snapshot), BoxKeyOf, k);
  }

  /**
   * A box over two calls and a list of puts of one USDC group, the low call's strike not
   * above the high call's, uses four instruments of that group in the shape of a box.
   */
  lemma BoxAtLegs(config: AppConfig, cLow: InstrumentSnapshot, cHigh: InstrumentSnapshot, puts: seq<InstrumentSnapshot>,
                  now: int)
    requires BoxAt(config, cLow, cHigh, puts, cLow.instrument.currency, Usdc, now).Some?
    requires cLow.instrument.strike <= cHigh.instrument.strike
    requires cLow.instrument.settlementCurrency == Usdc
    requires cLow.instrument.optionKind == Call && cHigh.instrument.optionKind == Call
    requires BoxKeyOf(cHigh) == BoxKeyOf(cLow)
    requires forall p :: p in puts ==> p.instrument.optionKind == Put && BoxKeyOf(p) == BoxKeyOf(cLow)
    ensures var o := BoxAt(config, cLow, cHigh, puts, cLow.instrument.currency, Usdc, now).value;
      var q := BoxQuadOf(cLow, cHigh, puts).value;
      && Emitted(config, o) && o.strategy == Box
      && q.pLow in puts && q.pHigh in puts
      && BoxLegs(o, cLow, cHigh, q.pLow, q.pHigh)
  {
    BoxAtIsBoxOf(config, cLow, cHigh, puts, cLow.instrument.currency, Usdc, now);
    var q := BoxQuadOf(cLow, cHigh, puts).value;
    var l := BoxLevelsOf(config, q).value;
    BoxOfShape(config, q, l, cLow.instrument.currency, Usdc, now);
    BoxOfPayout(config, q, l, cLow.instrument.currency, Usdc, now);
    assert q.cLow == cLow && q.cHigh == cHigh;
  }

  /** Such a box, over calls and puts taken from `snapshot`, is a box of the snapshot. */
  lemma BoxAtFrom(config: AppConfig, cLow: InstrumentSnapshot, cHigh: InstrumentSnapshot, puts: seq<InstrumentSnapshot>,
                  now: int, snapshot: seq<InstrumentSnapshot>)
    requires BoxAt(config, cLow, cHigh, puts, cLow.instrument.currency, Usdc, now).Some?
    requires cLow.instrument.strike <= cHigh.instrument.strike
    requires cLow.instrument.settlementCurrency == Usdc
    requires cLow.instrument.optionKind == Call && cHigh.instrument.optionKind == Call
    requires BoxKeyOf(cHigh) == BoxKeyOf(cLow)
    requires forall p :: p in puts ==> p.instrument.optionKind == Put && BoxKeyOf(p) == BoxKeyOf(cLow)
    requires cLow in snapshot && cHigh in snapshot && forall p :: p in puts ==> p in snapshot
    ensures BoxFrom(config, BoxAt(config, cLow, cHigh, puts, cLow.instrument.currency, Usdc, now).value, snapshot)
  {
    BoxAtLegs(config, cLow, cHigh, puts, now);
    var q := BoxQuadOf(cLow, cHigh, puts).value;
    assert q.pLow in snapshot && q.pHigh in snapshot;
  }

  lemma BoxWindowFrom(config: AppConfig, snapshot: seq<InstrumentSnapshot>, k: BoxKey, now: int, i: nat)
    requires i < |BoxWindows(config, SortedCalls(BoxGroup(snapshot, k)), SortedPuts(BoxGroup(snapshot, k)), k.currency, k.settlement, now)|
    requires BoxWindows(config, SortedCalls(BoxGroup(snapshot, k)), SortedPuts(BoxGroup(snapshot, k)), k.currency, k.settlement, now)[i].Some?
    ensures BoxFrom(config,
      BoxWindows(config, SortedCalls(BoxGroup(snapshot, k)), SortedPuts(BoxGroup(snapshot, k)), k.currency, k.settlement, now)[i].value,
      snapshot)
  {
    var group := BoxGroup(snapshot, k);
    var calls := SortedCalls(group);
    var puts := SortedPuts(group);
    var windows := BoxWindows(config, calls, puts, k.currency, k.settlement, now);
    var cLow, cHigh := calls[i], calls[i + 1];
    SortedCallsNeighbours(snapshot, k, i);
    SortedPutsSound(snapshot, k);
    assert windows[i] == BoxAt(config, cLow, cHigh, puts, cLow.instrument.currency, Usdc, now);
    BoxAtFrom(config, cLow, cHigh, puts, now, snapshot);
  }

  /** Neighbouring strike-sorted calls of a group: two calls of the snapshot with the group's key, in strike order. */
  lemma SortedCallsNeighbours(snapshot: seq<InstrumentSnapshot>, k: BoxKey, i: nat)
    requires i + 1 < |SortedCalls(BoxGroup(snapshot, k))|
    ensures var calls := SortedCalls(BoxGroup(snapshot, k));
      && calls[i] in snapshot && calls[i + 1] in snapshot
      && calls[i].instrument.strike <= calls[i + 1].instrument.strike
      && calls[i].instrument.optionKind == Call && calls[i + 1].instrument.optionKind == Call
      && calls[i].instrument.settlementCurrency == Usdc
      && BoxKeyOf(calls[i]) == k && BoxKeyOf(calls[i + 1]) == k
      && k == BoxKey(calls[i].instrument.expiry, Usdc, calls[i].instrument.currency)
  {
    var group := BoxGroup(snapshot, k);
    var calls := SortedCalls(group);
    SortedNeighbours(OfKind(group, Call), StrikeKey, i);
    BoxGroupSound(snapshot, k, calls[i]);
    BoxGroupSound(snapshot, k, calls[i + 1]);
  }

  /** The strike-sorted puts of a group are puts of the snapshot with the group's key. */
  lemma SortedPutsSound(snapshot: seq<InstrumentSnapshot>, k: BoxKey)
    ensures forall p :: p in SortedPuts(BoxGroup(snapshot, k)) ==>
      p in snapshot && p.instrument.optionKind == Put && BoxKeyOf(p) == k
  {
    var group := BoxGroup(snapshot, k);
    SortedMembers(OfKind(group, Put), StrikeKey);
    forall p | p in SortedPuts(group)
      ensures p in snapshot && p.instrument.optionKind == Put && BoxKeyOf(p) == k
    {
      BoxGroupSound(snapshot, k, p);
    }
  }

  lemma BoxGroupFrom(config: AppConfig, snapshot: seq<InstrumentSnapshot>, k: BoxKey, now: int)
    ensures forall o :: o in Somes(BoxWindows(config, SortedCalls(BoxGroup(snapshot, k)), SortedPuts(BoxGroup(snapshot, k)),
                                              k.currency, k.settlement, now)) ==>
      BoxFrom(config, o, snapshot)
  {
    var windows := BoxWindows(config, SortedCalls(BoxGroup(snapshot, k)), SortedPuts(BoxGroup(snapshot, k)),
                              k.currency, k.settlement, now);
    forall o | o in Somes(windows)
      ensures BoxFrom(config, o, snapshot)
    {
      var i := SomesIndex(windows, o);
      BoxWindowFrom(config, snapshot, k, now, i);
    }
  }

  /** The boxes found in the group with key `k`: its accepted neighbouring-call windows. */
  function BoxGroupFound(config: AppConfig, snapshot: seq<InstrumentSnapshot>, k: BoxKey, now: int): seq<StrategyOpportunity> {
    Somes(BoxWindows(config, SortedCalls(BoxGroup(snapshot, k)), SortedPuts(BoxGroup(snapshot, k)), k.currency, k.settlement, now))
  }

  /** The boxes of each group `order` names. */
  function BoxParts(config: AppConfig, snapshot: seq<InstrumentSnapshot>, order: seq<BoxKey>, now: int): (r: seq<seq<StrategyOpportunity>>)
    ensures |r| == |order| && forall i :: 0 <= i < |order| ==> r[i] == BoxGroupFound(config, snapshot, order[i], now)
  {
    seq(|order|, i requires 0 <= i < |order| => BoxGroupFound(config, snapshot, order[i], now))
  }

  /** One more group appends its boxes. */
  lemma BoxPartsStep(config: AppConfig, snapshot: seq<InstrumentSnapshot>, order: seq<BoxKey>, k: BoxKey, now: int)
    ensures Concat(BoxParts(config, snapshot, order + [k], now)) ==
      Concat(BoxParts(config, snapshot, order, now)) + BoxGroupFound(config, snapshot, k, now)
  {
    var parts := BoxParts(config, snapshot, order, now);
    var longer := BoxParts(config, snapshot, order + [k], now);
    var found := BoxGroupFound(config, snapshot, k, now);
    assert forall i :: 0 <= i < |order| ==> longer[i] == parts[i] by {
      assert forall i :: 0 <= i < |order| ==> (order + [k])[i] == order[i];
    }
    assert longer == parts + [found];
    ConcatStep(parts, found);
  }

  /** A box is among those of the groups `order` names exactly when one of those groups yields it. */
  lemma BoxPartsMembers(config: AppConfig, snapshot: seq<InstrumentSnapshot>, order: seq<BoxKey>, now: int)
    ensures forall o :: o in Concat(BoxParts(config, snapshot, order, now)) <==>
      exists k :: k in order && o in BoxGroupFound(config, snapshot, k, now)
  {
    var parts := BoxParts(config, snapshot, order, now);
    forall o | o in Concat(parts)
      ensures exists k :: k in order && o in BoxGroupFound(config, snapshot, k, now)
    {
      var i := ConcatPart(parts, o);
      assert order[i] in order && o in BoxGroupFound(config, snapshot, order[i], now);
    }
    forall o, k | k in order && o in BoxGroupFound(config, snapshot, k, now)
      ensures o in Concat(parts)
    {
      var i :| 0 <= i < |order| && order[i] == k;
      ConcatHas(parts, i, o);
    }
  }

  /**
   * The groups' boxes in any key order are exactly the boxes of the snapshot's groups,
   * each one a box of the snapshot.
   */
  lemma BoxPartsAll(config: AppConfig, snapshot: seq<InstrumentSnapshot>, order: seq<BoxKey>, now: int)
    requires Enumerates(order, KeySet(UsdcOnly(snapshot), BoxKeyOf))
    ensures forall o :: o in Concat(BoxParts(config, snapshot, order, now)) <==>
      exists k :: k in KeySet(UsdcOnly(snapshot), BoxKeyOf) && o in BoxGroupFound(config, snapshot, k, now)
    ensures forall o :: o in Concat(BoxParts(config, snapshot, order, now)) ==> BoxFrom(config, o, snapshot)
  {
    BoxPartsMembers(config, snapshot, order, now);
    forall o | o in Concat(BoxParts(config, snapshot, order, now))
      ensures BoxFrom(config, o, snapshot)
    {
      var k :| k in order && o in BoxGroupFound(config, snapshot, k, now);
      BoxGroupFrom(config, snapshot, k, now);
    }
  }

  /** The body of `detect_boxes` for one group: sort its calls and puts by strike, then evaluate every pair of neighbouring calls. */
  method BoxGroupScan(config: AppConfig, snapshot: seq<InstrumentSnapshot>, k: BoxKey, instruments: seq<InstrumentSnapshot>, now: int)
    returns (found: seq<StrategyOpportunity>)
    requires instruments == BoxGroup(snapshot, k)
    ensures found == BoxGroupFound(config, snapshot, k, now)
  {
    var calls := SortByKey(OfKind(instruments, Call), StrikeKey);
    var puts := SortByKey(OfKind(instruments, Put), StrikeKey);
    found := CollectPairs(calls, (cLow, cHigh) => BoxAt(config, cLow, cHigh, puts, k.currency, k.settlement, now));
  }

  /** `detect_boxes`: group the USDC-settled entries by (expiry, settlement, currency) and scan every group. */
  method DetectBoxes(config: AppConfig, snapshot: seq<InstrumentSnapshot>, now: int)
    returns (results: seq<StrategyOpportunity>)
    ensures exists order :: Enumerates(order, KeySet(UsdcOnly(snapshot), BoxKeyOf)) && results == Concat(BoxParts(config, snapshot, order, now))
    ensures forall o :: o in results <==>
      exists k :: k in KeySet(UsdcOnly(snapshot), BoxKeyOf) && o in BoxGroupFound(config, snapshot, k, now)
    ensures forall o :: o in results ==> BoxFrom(config, o, snapshot)
  {
    var byExpiry := GroupBy(UsdcOnly(snapshot), BoxKeyOf);
    results := [];
    var keys := byExpiry.Keys;
    ghost var order: seq<BoxKey> := [];
    while keys != {}
      invariant keys <= byExpiry.Keys
      invariant Enumerates(order, byExpiry.Keys - keys)
      invariant results == Concat(BoxParts(config, snapshot, order, now))
      decreases keys
    {
      var k :| k in keys;
      var found := BoxGroupScan(config, snapshot, k, byExpiry[k], now);
      results := results + found;
      BoxPartsStep(config, snapshot, order, k, now);
      EnumeratesStep(order, byExpiry.Keys, keys, k);
      order := order + [k];
      keys := keys - {k};
    }
    assert byExpiry.Keys - keys == byExpiry.Keys;
    assert Enumerates(order, KeySet(UsdcOnly(snapshot), BoxKeyOf));
    BoxPartsAll(config, snapshot, order, now);
  }
}
