/**
 * Shared pieces of the detector suite: the depth filter on top-of-book levels, the ticket
 * sizing `max_contracts_from_ticket`, the daily-option test, the fee context of taker legs,
 * the edge ratio and edge in basis points, the emission gates every detector applies, and
 * the grouping of a snapshot into keyed buckets.
 *
 * The f64 conversions of the edge ratio and of the basis points are modelled as exact
 * ratios, and the clock read of `is_daily_option` is the parameter `now` (milliseconds).
 */
module ArbDetectCommon {
  import opened Wrappers
  import opened ArbModel
  import opened ArbConfig
  import opened ArbFees

  const DAY_MS: int := 86_400_000
  /** Verticals whose USD debit exceeds the payout by more than this are skipped. */
  const PAYOUT_TOLERANCE: real := 0.000001
  /** The fee total is floored at one cent before dividing the edge by it. */
  const FEE_FLOOR: real := 0.01

  function MinDepth(config: AppConfig): real {
    config.minDepthContracts as real
  }

  /** A top-of-book level, kept only if it shows at least the minimum depth. */
  function DepthLevel(level: Option<QuoteLevel>, config: AppConfig): (r: Option<QuoteLevel>)
    ensures r.Some? <==> level.Some? && level.value.amount >= MinDepth(config)
    ensures r.Some? ==> r == level
  {
    if level.Some? && level.value.amount >= MinDepth(config) then level else None
  }

  function MaxReal(a: real, b: real): (r: real)
    ensures r >= a && r >= b && (r == a || r == b)
  {
    if a >= b then a else b
  }

  /** `Option::max` on amounts: `None` is below every `Some`. */
  function MaxAmount(a: Option<QuoteLevel>, b: Option<QuoteLevel>): (r: Option<real>)
    ensures r.None? <==> a.None? && b.None?
    ensures a.Some? ==> r.Some? && r.value >= a.value.amount
    ensures b.Some? ==> r.Some? && r.value >= b.value.amount
    ensures r.Some? ==> (a.Some? && r.value == a.value.amount) || (b.Some? && r.value == b.value.amount)
  {
    match (a, b)
    case (None, None) => None
    case (Some(x), None) => Some(x.amount)
    case (None, Some(y)) => Some(y.amount)
    case (Some(x), Some(y)) => Some(MaxReal(x.amount, y.amount))
  }

  /** The USD value of one contract of `inst` at its index price. */
  function NotionalPerContract(inst: InstrumentSnapshot): real {
    inst.quote.indexPrice * inst.instrument.contractSize
  }

  /** The ticket over the notional, capped by what is available and floored at zero. */
  function TicketCap(maxTicketUsd: real, notional: real, available: real): real
    requires notional != 0.0
  {
    MaxReal(Min(maxTicketUsd / notional, available), 0.0)
  }

  /** Contracts one ticket can buy of `inst`, capped by the larger displayed amount. */
  function MaxContractsFromTicket(config: AppConfig, inst: InstrumentSnapshot): (r: real)
    ensures r >= 0.0
  {
    var indexPrice := inst.quote.indexPrice;
    if indexPrice == 0.0 then MinDepth(config)
    else
      var notionalPerContract := NotionalPerContract(inst);
      if notionalPerContract == 0.0 then MinDepth(config)
      else
        var available := MaxAmount(inst.quote.bestAsk, inst.quote.bestBid).GetOr(MinDepth(config));
        TicketCap(config.maxTicketUsd, notionalPerContract, available)
  }

  /**
   * Without an index price or a per-contract notional the size is the minimum depth;
   * otherwise it is the ticket over the notional, capped by the larger displayed amount
   * (the minimum depth when neither side shows one) and floored at zero.
   */
  lemma TicketSizeWithoutNotional(config: AppConfig, inst: InstrumentSnapshot)
    requires NotionalPerContract(inst) == 0.0
    ensures MaxContractsFromTicket(config, inst) == MinDepth(config)
  {
  }

  lemma TicketSizeWithNotional(config: AppConfig, inst: InstrumentSnapshot)
    requires NotionalPerContract(inst) != 0.0
    ensures var available := MaxAmount(inst.quote.bestAsk, inst.quote.bestBid).GetOr(MinDepth(config));
      MaxContractsFromTicket(config, inst) == TicketCap(config.maxTicketUsd, NotionalPerContract(inst), available)
  {
    NonZeroFactor(inst.quote.indexPrice, inst.instrument.contractSize);
  }

  lemma NonZeroFactor(a: real, b: real)
    requires a * b != 0.0
    ensures a != 0.0
  {
  }

  /**
   * With a positive per-contract notional and a non-negative ticket, the size never costs
   * more than the ticket and never exceeds the larger displayed amount (if any).
   */
  lemma TicketSizeWithinCap(config: AppConfig, inst: InstrumentSnapshot)
    requires inst.quote.indexPrice * inst.instrument.contractSize > 0.0 && config.maxTicketUsd >= 0.0
    ensures var r := MaxContractsFromTicket(config, inst);
      r * (inst.quote.indexPrice * inst.instrument.contractSize) <= config.maxTicketUsd
    ensures inst.quote.bestAsk.Some? && inst.quote.bestAsk.value.amount >= 0.0 ==>
      MaxContractsFromTicket(config, inst) <= MaxAmount(inst.quote.bestAsk, inst.quote.bestBid).value
  {
    var n := inst.quote.indexPrice * inst.instrument.contractSize;
    var cap := config.maxTicketUsd / n;
    assert cap * n == config.maxTicketUsd;
    assert cap >= 0.0;
    var r := MaxContractsFromTicket(config, inst);
    assert r <= cap;
    assert r * n <= cap * n;
  }

  /** `name.contains("-D")`. */
  predicate HasDailyMarker(name: string) {
    exists i :: 0 <= i < |name| - 1 && name[i] == '-' && name[i + 1] == 'D'
  }

  /** `is_daily_option`: a "-D" in the name, or at most one day left at `now`. */
  function IsDailyOption(name: string, expiry: int, now: int): (r: bool)
    ensures HasDailyMarker(name) ==> r
    ensures r <==> HasDailyMarker(name) || expiry - now <= DAY_MS
  {
    HasDailyMarker(name) || expiry - now <= DAY_MS
  }

  /** The fee input of a taker leg on `inst`. */
  function TakerLeg(inst: InstrumentSnapshot, side: ComboSide, settlement: SettlementCurrency,
                    price: real, contracts: real, now: int): LegFeeInput
  {
    LegFeeInput(inst.instrument.instrumentName, side, settlement, Taker, price, inst.quote.indexPrice,
                contracts, inst.instrument.contractSize, inst.instrument.expiry,
                IsDailyOption(inst.instrument.instrumentName, inst.instrument.expiry, now))
  }

  predicate SameSettlement(legs: seq<LegFeeInput>, settlement: SettlementCurrency) {
    forall i :: 0 <= i < |legs| ==> legs[i].settlement == settlement
  }

  /**
   * The detectors build every fee context from legs of one settlement, so the engine's
   * error results cannot occur and their `?` never aborts a detector.
   */
  lemma DetectorFeesDefined(ctx: FeeComputationContext, settlement: SettlementCurrency)
    requires |ctx.legs| > 0 && SameSettlement(ctx.legs, settlement)
    ensures FeeSpec(ctx).Ok?
  {
    assert !MixedSettlements(ctx.legs);
  }

  /** The breakdown `fee_engine.compute(ctx)?` yields for a detector's context. */
  function DetectorFees(ctx: FeeComputationContext, settlement: SettlementCurrency): (f: FeeBreakdown)
    requires |ctx.legs| > 0 && SameSettlement(ctx.legs, settlement)
    ensures FeeSpec(ctx) == Ok(f)
    ensures |f.legs| == |ctx.legs|
  {
    DetectorFeesDefined(ctx, settlement);
    FeeSpec(ctx).value
  }

  /** Native amount in USD: unchanged for USDC, times the index for coin settlement. */
  function ToUsd(settlement: SettlementCurrency, native: real, index: real): real {
    match settlement
    case Usdc => native
    case Coin => native * index
  }

  /** USD amount in the settlement currency, zero when a coin index is missing. */
  function FromUsd(settlement: SettlementCurrency, usd: real, index: real): (r: real)
    ensures settlement == Usdc ==> r == usd
  {
    match settlement
    case Usdc => usd
    case Coin => if index == 0.0 then 0.0 else usd / index
  }

  /** With a coin index, converting back to USD recovers the amount. */
  lemma FromUsdRoundTrip(settlement: SettlementCurrency, usd: real, index: real)
    requires settlement == Coin ==> index != 0.0
    ensures ToUsd(settlement, FromUsd(settlement, usd, index), index) == usd
  {
  }

  /** The edge over the fees, the fees floored at one cent. */
  function EdgeRatio(netEdgeUsd: real, feesUsd: real): (r: real)
    ensures netEdgeUsd > 0.0 ==> r > 0.0
  {
    netEdgeUsd / MaxReal(feesUsd, FEE_FLOOR)
  }

  /** Fees of at least the floor are taken as they are: the ratio times the fees is the edge. */
  lemma EdgeRatioOverFees(netEdgeUsd: real, feesUsd: real)
    requires feesUsd >= FEE_FLOOR
    ensures EdgeRatio(netEdgeUsd, feesUsd) * feesUsd == netEdgeUsd
  {
    assert MaxReal(feesUsd, FEE_FLOOR) == feesUsd;
  }

  /** `compute_edge_bps`: the edge per unit of index notional, in basis points. */
  function ComputeEdgeBps(netEdgeUsd: real, contracts: real, indexPrice: real, settlement: SettlementCurrency): (r: real)
    ensures contracts == 0.0 || indexPrice == 0.0 ==> r == 0.0
  {
    if contracts == 0.0 || indexPrice == 0.0 then 0.0
    else
      var base := match settlement
        case Usdc => indexPrice * contracts
        case Coin => indexPrice * contracts;
      (netEdgeUsd / base) * 10_000.0
  }

  /** On a nonzero notional, the basis points times the notional are the edge times 10 000. */
  lemma EdgeBpsScale(netEdgeUsd: real, contracts: real, indexPrice: real, settlement: SettlementCurrency)
    requires contracts != 0.0 && indexPrice != 0.0
    ensures ComputeEdgeBps(netEdgeUsd, contracts, indexPrice, settlement) * (indexPrice * contracts) == netEdgeUsd * 10_000.0
  {
    var n := indexPrice * contracts;
    assert n != 0.0;
    assert ComputeEdgeBps(netEdgeUsd, contracts, indexPrice, settlement) == (netEdgeUsd / n) * 10_000.0;
  }

  /** A positive edge on a positive notional is a positive number of basis points. */
  lemma EdgeBpsSign(netEdgeUsd: real, contracts: real, indexPrice: real, settlement: SettlementCurrency)
    requires netEdgeUsd > 0.0 && contracts > 0.0 && indexPrice > 0.0
    ensures ComputeEdgeBps(netEdgeUsd, contracts, indexPrice, settlement) > 0.0
  {
    var n := indexPrice * contracts;
    assert n > 0.0;
    assert ComputeEdgeBps(netEdgeUsd, contracts, indexPrice, settlement) == (netEdgeUsd / n) * 10_000.0;
  }

  /** The gates every emitted opportunity has passed: a positive size and a sufficient edge. */
  predicate Emitted(config: AppConfig, opp: StrategyOpportunity) {
    && opp.sizeContracts > 0.0
    && opp.netEdgeUsd > 0.0
    && opp.netEdgeUsd >= config.minEdgeUsd
  }

  /** The extra gate of all detectors but the box one. */
  predicate RatioGate(config: AppConfig, opp: StrategyOpportunity) {
    EdgeRatio(opp.netEdgeUsd, opp.feeBreakdown.totalUsd) >= config.minEdgeRatio
  }

  /** The execution plan every detector attaches: IOC, the config's dry-run flag. */
  function Plan(config: AppConfig, legs: seq<ComboLeg>, size: real, priceLimit: real): ComboExecutionPlan {
    ComboExecutionPlan(ComboPayload(legs, size), IOC, priceLimit, config.dryRun)
  }

  // ---------------------------------------------------------------- collecting window results

  /** The values of the `Some` entries, in order (a loop that pushes only accepted windows). */
  function Somes<T>(xs: seq<Option<T>>): (r: seq<T>)
    ensures |r| <= |xs|
    ensures forall y :: y in r ==> Some(y) in xs
  {
    if |xs| == 0 then []
    else
      var front := Somes(xs[..|xs| - 1]);
      assert forall y :: y in front ==> Some(y) in xs by {
        assert forall o :: o in xs[..|xs| - 1] ==> o in xs;
      }
      front + (if xs[|xs| - 1].Some? then [xs[|xs| - 1].value] else [])
  }

  lemma SomesAppend<T>(xs: seq<Option<T>>, x: Option<T>)
    ensures Somes(xs + [x]) == Somes(xs) + (if x.Some? then [x.value] else [])
  {
    assert (xs + [x])[..|xs|] == xs;
  }

  /** One more window of a loop that pushes the accepted results. */
  lemma SomesStep<T>(xs: seq<Option<T>>, i: nat)
    requires i < |xs|
    ensures Somes(xs[..i + 1]) == Somes(xs[..i]) + (if xs[i].Some? then [xs[i].value] else [])
  {
    assert xs[..i + 1] == xs[..i] + [xs[i]];
    SomesAppend(xs[..i], xs[i]);
  }

  /** One window of a collecting loop: its result, if any, is pushed. */
  lemma CollectStep<T>(windows: seq<Option<T>>, i: nat, results: seq<T>, found: Option<T>)
    requires i < |windows| && found == windows[i] && results == Somes(windows[..i])
    ensures (if found.Some? then results + [found.value] else results) == Somes(windows[..i + 1])
  {
    SomesStep(windows, i);
  }

  /** Number of windows of width `w` over `n` elements (`slice::windows`). */
  function WindowCount(n: nat, w: nat): (c: nat)
    requires w > 0
    ensures c + w - 1 == n || (c == 0 && n < w)
  {
    if n < w then 0 else n - w + 1
  }

  /** `f` applied to every window of two adjacent elements. */
  function Pairs<T, R>(xs: seq<T>, f: (T, T) -> R): (r: seq<R>)
    ensures |r| == WindowCount(|xs|, 2)
    ensures forall i :: 0 <= i < |r| ==> r[i] == f(xs[i], xs[i + 1])
  {
    if |xs| < 2 then [] else seq(|xs| - 1, i requires 0 <= i < |xs| - 1 => f(xs[i], xs[i + 1]))
  }

  /** `f` applied to every window of three adjacent elements. */
  function Triples<T, R>(xs: seq<T>, f: (T, T, T) -> R): (r: seq<R>)
    ensures |r| == WindowCount(|xs|, 3)
    ensures forall i :: 0 <= i < |r| ==> r[i] == f(xs[i], xs[i + 1], xs[i + 2])
  {
    if |xs| < 3 then [] else seq(|xs| - 2, i requires 0 <= i < |xs| - 2 => f(xs[i], xs[i + 1], xs[i + 2]))
  }

  /** The window a collected result comes from. */
  lemma SomesIndex<T>(xs: seq<Option<T>>, o: T) returns (i: nat)
    requires o in Somes(xs)
    ensures i < |xs| && xs[i] == Some(o)
  {
    assert Some(o) in xs;
    i :| i < |xs| && xs[i] == Some(o);
  }

  /** A property of every result a window function accepts holds of every collected result. */
  lemma PairsSomesAll<T, R>(xs: seq<T>, f: (T, T) -> Option<R>, P: R -> bool)
    requires forall a, b :: f(a, b).Some? ==> P(f(a, b).value)
    ensures forall o :: o in Somes(Pairs(xs, f)) ==> P(o)
  {
    var windows := Pairs(xs, f);
    forall o | o in Somes(windows)
      ensures P(o)
    {
      var i := SomesIndex(windows, o);
      assert windows[i] == f(xs[i], xs[i + 1]);
    }
  }

  lemma TriplesSomesAll<T, R>(xs: seq<T>, f: (T, T, T) -> Option<R>, P: R -> bool)
    requires forall a, b, c :: f(a, b, c).Some? ==> P(f(a, b, c).value)
    ensures forall o :: o in Somes(Triples(xs, f)) ==> P(o)
  {
    var windows := Triples(xs, f);
    forall o | o in Somes(windows)
      ensures P(o)
    {
      var i := SomesIndex(windows, o);
      assert i + 2 < |xs|;
      assert windows[i] == f(xs[i], xs[i + 1], xs[i + 2]);
    }
  }

  /** `for w in xs.windows(2) { if let Some(o) = f(w[0], w[1]) { results.push(o) } }` */
  method CollectPairs<T, R>(xs: seq<T>, f: (T, T) -> Option<R>) returns (results: seq<R>)
    ensures results == Somes(Pairs(xs, f))
  {
    ghost var windows := Pairs(xs, f);
    var count := WindowCount(|xs|, 2);
    results := [];
    for i := 0 to count
      invariant results == Somes(windows[..i])
    {
      var found := f(xs[i], xs[i + 1]);
      CollectStep(windows, i, results, found);
      if found.Some? {
        results := results + [found.value];
      }
    }
    assert windows[..count] == windows;
  }

  /** `for w in xs.windows(3) { if let Some(o) = f(w[0], w[1], w[2]) { results.push(o) } }` */
  method CollectTriples<T, R>(xs: seq<T>, f: (T, T, T) -> Option<R>) returns (results: seq<R>)
    ensures results == Somes(Triples(xs, f))
  {
    ghost var windows := Triples(xs, f);
    var count := WindowCount(|xs|, 3);
    results := [];
    for i := 0 to count
      invariant results == Somes(windows[..i])
    {
      var found := f(xs[i], xs[i + 1], xs[i + 2]);
      CollectStep(windows, i, results, found);
      if found.Some? {
        results := results + [found.value];
      }
    }
    assert windows[..count] == windows;
  }

  // ---------------------------------------------------------------- grouping

  /** The entries of `xs` whose key is `k`, in their original order. */
  function Members<K(==)>(xs: seq<InstrumentSnapshot>, key: InstrumentSnapshot -> K, k: K): (r: seq<InstrumentSnapshot>)
    ensures |r| <= |xs|
  {
    if |xs| == 0 then []
    else Members(xs[..|xs| - 1], key, k) + (if key(xs[|xs| - 1]) == k then [xs[|xs| - 1]] else [])
  }

  /** A group holds only entries of the input with the group's key. */
  lemma {:induction false} MembersSound<K>(xs: seq<InstrumentSnapshot>, key: InstrumentSnapshot -> K, k: K)
    ensures forall x :: x in Members(xs, key, k) ==> x in xs && key(x) == k
  {
    if |xs| > 0 {
      MembersSound(xs[..|xs| - 1], key, k);
      assert forall x :: x in xs[..|xs| - 1] ==> x in xs;
    }
  }

  /** Every entry lands in the group of its own key. */
  lemma {:induction false} MemberOfOwnGroup<K>(xs: seq<InstrumentSnapshot>, key: InstrumentSnapshot -> K, i: nat)
    requires i < |xs|
    ensures xs[i] in Members(xs, key, key(xs[i]))
  {
    if i < |xs| - 1 {
      MemberOfOwnGroup(xs[..|xs| - 1], key, i);
    }
  }

  /**
   * `order` lists every key of `keys` exactly once: the order in which a `HashMap` yields
   * its keys, which the program leaves unspecified.
   */
  ghost predicate Enumerates<K(!new)>(order: seq<K>, keys: set<K>) {
    && (forall k :: k in order <==> k in keys)
    && (forall i, j :: 0 <= i < j < |order| ==> order[i] != order[j])
  }

  /** Visiting one more of the keys left keeps the visited keys enumerated. */
  lemma EnumeratesStep<K(!new)>(order: seq<K>, all: set<K>, left: set<K>, k: K)
    requires Enumerates(order, all - left) && left <= all && k in left
    ensures Enumerates(order + [k], all - (left - {k}))
  {
    var next := order + [k];
    forall i, j | 0 <= i < j < |next|
      ensures next[i] != next[j]
    {
      if j == |order| {
        assert next[i] == order[i];
      }
    }
  }

  /** The groups' results one after the other: `results.extend(found)` once per group. */
  function Concat<T>(parts: seq<seq<T>>): seq<T> {
    if parts == [] then [] else Concat(parts[..|parts| - 1]) + parts[|parts| - 1]
  }

  /** A value is in the concatenation exactly when one of the parts holds it. */
  lemma {:induction false} ConcatMembers<T>(parts: seq<seq<T>>)
    ensures forall o :: o in Concat(parts) <==> exists i :: 0 <= i < |parts| && o in parts[i]
  {
    if parts != [] {
      var n := |parts| - 1;
      ConcatMembers(parts[..n]);
      assert forall i :: 0 <= i < n ==> parts[..n][i] == parts[i];
    }
  }

  /** A value of one part is in the concatenation. */
  lemma ConcatHas<T>(parts: seq<seq<T>>, i: nat, o: T)
    requires i < |parts| && o in parts[i]
    ensures o in Concat(parts)
  {
    ConcatMembers(parts);
  }

  /** A value of the concatenation comes from one of the parts. */
  lemma ConcatPart<T>(parts: seq<seq<T>>, o: T) returns (i: nat)
    requires o in Concat(parts)
    ensures i < |parts| && o in parts[i]
  {
    ConcatMembers(parts);
    i :| 0 <= i < |parts| && o in parts[i];
  }

  lemma ConcatStep<T>(parts: seq<seq<T>>, part: seq<T>)
    ensures Concat(parts + [part]) == Concat(parts) + part
  {
    assert (parts + [part])[..|parts|] == parts;
  }

  /** The keys that occur in `xs`. */
  function KeySet<K(==)>(xs: seq<InstrumentSnapshot>, key: InstrumentSnapshot -> K): set<K> {
    set i | 0 <= i < |xs| :: key(xs[i])
  }

  /**
   * `entry(key).or_default().push(x)` over the input: one group per key that occurs, each
   * holding that key's entries in input order.
   */
  method GroupBy<K(==)>(xs: seq<InstrumentSnapshot>, key: InstrumentSnapshot -> K) returns (groups: map<K, seq<InstrumentSnapshot>>)
    ensures groups.Keys == KeySet(xs, key)
    ensures forall k :: k in groups ==> groups[k] == Members(xs, key, k)
  {
    groups := map[];
    var i := 0;
    while i < |xs|
      invariant 0 <= i <= |xs|
      invariant groups.Keys == KeySet(xs[..i], key)
      invariant forall k :: k in groups ==> groups[k] == Members(xs[..i], key, k)
    {
      var x := xs[i];
      var k := key(x);
      KeySetStep(xs, key, i);
      if k !in groups {
        MembersEmpty(xs[..i], key, k);
      }
      var group := if k in groups then groups[k] else [];
      MembersStep(xs, key, i, k);
      var next := groups[k := group + [x]];
      forall k' | k' in next
        ensures next[k'] == Members(xs[..i + 1], key, k')
      {
        if k' != k {
          MembersStep(xs, key, i, k');
        }
      }
      groups := next;
      i := i + 1;
    }
    assert xs[..|xs|] == xs;
  }

  /** One more entry: its key joins the key set. */
  lemma KeySetStep<K>(xs: seq<InstrumentSnapshot>, key: InstrumentSnapshot -> K, i: nat)
    requires i < |xs|
    ensures KeySet(xs[..i + 1], key) == KeySet(xs[..i], key) + {key(xs[i])}
  {
    var a := xs[..i + 1];
    assert forall j :: 0 <= j < i ==> a[j] == xs[..i][j];
  }

  /** One more entry joins its own group only. */
  lemma MembersStep<K>(xs: seq<InstrumentSnapshot>, key: InstrumentSnapshot -> K, i: nat, k: K)
    requires i < |xs|
    ensures Members(xs[..i + 1], key, k) == Members(xs[..i], key, k) + (if key(xs[i]) == k then [xs[i]] else [])
  {
    assert xs[..i + 1][..i] == xs[..i];
  }

  lemma {:induction false} MembersEmpty<K>(xs: seq<InstrumentSnapshot>, key: InstrumentSnapshot -> K, k: K)
    requires k !in KeySet(xs, key)
    ensures Members(xs, key, k) == []
  {
    if |xs| > 0 {
      assert forall j :: 0 <= j < |xs| - 1 ==> xs[..|xs| - 1][j] == xs[j];
      assert KeySet(xs[..|xs| - 1], key) <= KeySet(xs, key);
      MembersEmpty(xs[..|xs| - 1], key, k);
    }
  }
}
