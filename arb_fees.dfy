/**
 * The fee engine of deribit_arb (`FeeEngine::compute`, `compute_trade_fee`): per-leg
 * taker fees capped at 12.5% of the option price, a combo discount that waives the
 * cheaper side, an optional delivery fee, and the totals.
 *
 * `Compute` follows the engine's loops over a fee array updated in place and is proved
 * equal to the specification `FeeSpec`; the properties are lemmas about `FeeSpec`.
 */
module ArbFees {
  import opened Wrappers
  import opened ArbModel
  import opened Numbers

  datatype LegFeeInput = LegFeeInput(
    instrumentName: string,
    side: ComboSide,
    settlement: SettlementCurrency,
    role: FillRole,
    optionPrice: real,
    indexPrice: real,
    contracts: real,
    contractSize: real,
    expiry: int,
    isDaily: bool)

  datatype FeeComputationContext = FeeComputationContext(legs: seq<LegFeeInput>, holdToExpiry: bool)

  datatype FeeError = NoLegs | MixedSettlement

  const TAKER_RATE: real := 0.0003
  const PRICE_CAP: real := 0.125
  const DELIVERY_RATE: real := 0.00015

  function Min(a: real, b: real): (r: real)
    ensures r <= a && r <= b && (r == a || r == b)
  {
    if a <= b then a else b
  }

  // ---------------------------------------------------------------- one leg

  /** The uncapped per-contract fee: 0.0003 coin, or 0.0003 of the index in USDC. */
  function BaseFee(input: LegFeeInput): real {
    match input.settlement
    case Coin => TAKER_RATE
    case Usdc => input.indexPrice * TAKER_RATE
  }

  /** The per-contract fee: the base fee, capped at 12.5% of the option price. */
  function PerContractFee(input: LegFeeInput): (p: real)
    ensures p <= BaseFee(input) && p <= PRICE_CAP * input.optionPrice
    ensures p == BaseFee(input) || p == PRICE_CAP * input.optionPrice
  {
    var cap := input.optionPrice * PRICE_CAP;
    var base := BaseFee(input);
    if base < cap then base else cap
  }

  /** `compute_trade_fee`. */
  function ComputeTradeFee(input: LegFeeInput): (f: LegFee)
    ensures f.instrumentName == input.instrumentName && f.side == input.side
    ensures f.settlement == input.settlement && f.executionRole == input.role
    ensures Abs(input.contracts) == 0.0 ==> f.tradeFeeNative == 0.0 && f.tradeFeeUsd == 0.0
    ensures f.tradeFeeNative == PerContractFee(input) * Abs(input.contracts) * input.contractSize
    ensures input.settlement == Usdc ==> f.tradeFeeUsd == f.tradeFeeNative
    ensures input.settlement == Coin ==> f.tradeFeeUsd == f.tradeFeeNative * input.indexPrice
  {
    var contracts := Abs(input.contracts);
    if contracts == 0.0 then
      LegFee(input.instrumentName, input.side, input.settlement, input.role, 0.0, 0.0)
    else
      var native := PerContractFee(input) * contracts * input.contractSize;
      var usd := match input.settlement
        case Coin => native * input.indexPrice
        case Usdc => native;
      LegFee(input.instrumentName, input.side, input.settlement, input.role, native, usd)
  }

  /** Buying and selling the same quantity costs the same fee. */
  lemma TradeFeeIgnoresDirection(input: LegFeeInput)
    ensures ComputeTradeFee(input.(contracts := -input.contracts)).tradeFeeNative == ComputeTradeFee(input).tradeFeeNative
    ensures ComputeTradeFee(input.(contracts := -input.contracts)).tradeFeeUsd == ComputeTradeFee(input).tradeFeeUsd
  {
  }

  predicate NonNegativeInput(input: LegFeeInput) {
    input.optionPrice >= 0.0 && input.indexPrice >= 0.0 && input.contractSize >= 0.0
  }

  lemma TradeFeeNonNegative(input: LegFeeInput)
    requires NonNegativeInput(input)
    ensures ComputeTradeFee(input).tradeFeeNative >= 0.0
    ensures ComputeTradeFee(input).tradeFeeUsd >= 0.0
  {
    var p := PerContractFee(input);
    assert p >= 0.0;
    var n := p * Abs(input.contracts);
    assert n >= 0.0;
    assert n * input.contractSize >= 0.0;
    assert ComputeTradeFee(input).tradeFeeNative * input.indexPrice >= 0.0;
  }

  // ---------------------------------------------------------------- sums over legs

  /** The fees of `compute_trade_fee` for every leg, in order. */
  function GrossFees(legs: seq<LegFeeInput>): (fees: seq<LegFee>)
    ensures |fees| == |legs|
    ensures forall i :: 0 <= i < |legs| ==> fees[i] == ComputeTradeFee(legs[i])
  {
    seq(|legs|, i requires 0 <= i < |legs| => ComputeTradeFee(legs[i]))
  }

  function SideNative(fees: seq<LegFee>, side: ComboSide): real {
    if |fees| == 0 then 0.0
    else SideNative(fees[..|fees| - 1], side)
         + (if fees[|fees| - 1].side == side then fees[|fees| - 1].tradeFeeNative else 0.0)
  }

  function SideUsd(fees: seq<LegFee>, side: ComboSide): real {
    if |fees| == 0 then 0.0
    else SideUsd(fees[..|fees| - 1], side)
         + (if fees[|fees| - 1].side == side then fees[|fees| - 1].tradeFeeUsd else 0.0)
  }

  function TotalNative(fees: seq<LegFee>): real {
    if |fees| == 0 then 0.0 else TotalNative(fees[..|fees| - 1]) + fees[|fees| - 1].tradeFeeNative
  }

  function TotalUsd(fees: seq<LegFee>): real {
    if |fees| == 0 then 0.0 else TotalUsd(fees[..|fees| - 1]) + fees[|fees| - 1].tradeFeeUsd
  }

  /** The side whose fees are waived: Buy when its USD total is not above Sell's. */
  function WaivedSide(fees: seq<LegFee>): ComboSide {
    if SideUsd(fees, Buy) <= SideUsd(fees, Sell) then Buy else Sell
  }

  function WaiveFee(fee: LegFee, side: ComboSide): LegFee {
    if fee.side == side then fee.(tradeFeeNative := 0.0, tradeFeeUsd := 0.0) else fee
  }

  /** The fees after the combo discount: every leg of `side` zeroed. */
  function Waive(fees: seq<LegFee>, side: ComboSide): (r: seq<LegFee>)
    ensures |r| == |fees|
    ensures forall i :: 0 <= i < |fees| ==> r[i] == WaiveFee(fees[i], side)
  {
    seq(|fees|, i requires 0 <= i < |fees| => WaiveFee(fees[i], side))
  }

  // ---------------------------------------------------------------- delivery

  /** The delivery fee of one leg held to expiry, in USD. */
  function LegDeliveryUsd(leg: LegFeeInput): real {
    var contracts := Abs(leg.contracts) * leg.contractSize;
    var notional := leg.indexPrice * contracts;
    var optionValue := leg.optionPrice * contracts * (match leg.settlement case Usdc => 1.0 case Coin => leg.indexPrice);
    Min(notional * DELIVERY_RATE, optionValue * PRICE_CAP)
  }

  /** The same fee in the settlement currency (nothing for a coin leg without an index). */
  function LegDeliveryNative(leg: LegFeeInput): real {
    match leg.settlement
    case Usdc => LegDeliveryUsd(leg)
    case Coin => if leg.indexPrice == 0.0 then 0.0 else LegDeliveryUsd(leg) / leg.indexPrice
  }

  function DeliveryUsd(legs: seq<LegFeeInput>): real {
    if |legs| == 0 then 0.0
    else DeliveryUsd(legs[..|legs| - 1]) + (if legs[|legs| - 1].isDaily then 0.0 else LegDeliveryUsd(legs[|legs| - 1]))
  }

  function DeliveryNative(legs: seq<LegFeeInput>): real {
    if |legs| == 0 then 0.0
    else DeliveryNative(legs[..|legs| - 1]) + (if legs[|legs| - 1].isDaily then 0.0 else LegDeliveryNative(legs[|legs| - 1]))
  }

  // ---------------------------------------------------------------- the breakdown

  predicate MixedSettlements(legs: seq<LegFeeInput>)
    requires |legs| > 0
  {
    exists i :: 0 <= i < |legs| && legs[i].settlement != legs[0].settlement
  }

  /** What `FeeEngine::compute` returns. */
  function FeeSpec(ctx: FeeComputationContext): (r: Result<FeeBreakdown, FeeError>)
    ensures |ctx.legs| == 0 <==> r == Err(NoLegs)
    ensures r == Err(MixedSettlement) <==> |ctx.legs| > 0 && MixedSettlements(ctx.legs)
    ensures r.Ok? ==> |r.value.legs| == |ctx.legs|
  {
    if |ctx.legs| == 0 then Err(NoLegs)
    else if MixedSettlements(ctx.legs) then Err(MixedSettlement)
    else
      var gross := GrossFees(ctx.legs);
      var side := WaivedSide(gross);
      var legs := Waive(gross, side);
      var deliveryNative := if ctx.holdToExpiry then DeliveryNative(ctx.legs) else 0.0;
      var deliveryUsd := if ctx.holdToExpiry then DeliveryUsd(ctx.legs) else 0.0;
      Ok(FeeBreakdown(
        legs, SideNative(gross, side), SideUsd(gross, side), deliveryNative, deliveryUsd,
        TotalNative(legs) + deliveryNative, TotalUsd(legs) + deliveryUsd))
  }

  /** `FeeEngine::compute`: the engine's loops, with the leg fees zeroed in place. */
  method Compute(ctx: FeeComputationContext) returns (r: Result<FeeBreakdown, FeeError>)
    ensures r == FeeSpec(ctx)
  {
    if |ctx.legs| == 0 {
      return Err(NoLegs);
    }
    var settlement := ctx.legs[0].settlement;
    var i := 0;
    while i < |ctx.legs|
      invariant 0 <= i <= |ctx.legs|
      invariant forall j :: 0 <= j < i ==> ctx.legs[j].settlement == settlement
    {
      if ctx.legs[i].settlement != settlement {
        return Err(MixedSettlement);
      }
      i := i + 1;
    }

    var n := |ctx.legs|;
    var legFees := new LegFee[n](j requires 0 <= j < n => ComputeTradeFee(ctx.legs[j]));
    assert legFees[..] == GrossFees(ctx.legs);
    var buyNative, sellNative, buyUsd, sellUsd := SideTotals(legFees);
    var discountNative, discountUsd: real;
    if buyUsd <= sellUsd {
      ZeroSide(legFees, Buy);
      discountNative, discountUsd := buyNative, buyUsd;
    } else {
      ZeroSide(legFees, Sell);
      discountNative, discountUsd := sellNative, sellUsd;
    }

    var deliveryNative, deliveryUsd := 0.0, 0.0;
    if ctx.holdToExpiry {
      deliveryNative, deliveryUsd := DeliveryTotals(ctx.legs);
    }

    var legs := legFees[..];
    r := Ok(FeeBreakdown(
      legs, discountNative, discountUsd, deliveryNative, deliveryUsd,
      TotalNative(legs) + deliveryNative, TotalUsd(legs) + deliveryUsd));
  }

  /** The buy and sell totals, native and USD, accumulated leg by leg. */
  method SideTotals(legFees: array<LegFee>) returns (buyNative: real, sellNative: real, buyUsd: real, sellUsd: real)
    ensures buyNative == SideNative(legFees[..], Buy) && sellNative == SideNative(legFees[..], Sell)
    ensures buyUsd == SideUsd(legFees[..], Buy) && sellUsd == SideUsd(legFees[..], Sell)
  {
    buyNative, sellNative, buyUsd, sellUsd := 0.0, 0.0, 0.0, 0.0;
    var i := 0;
    while i < legFees.Length
      invariant 0 <= i <= legFees.Length
      invariant buyNative == SideNative(legFees[..i], Buy) && sellNative == SideNative(legFees[..i], Sell)
      invariant buyUsd == SideUsd(legFees[..i], Buy) && sellUsd == SideUsd(legFees[..i], Sell)
    {
      assert legFees[..i + 1][..i] == legFees[..i];
      var fee := legFees[i];
      match fee.side {
        case Buy =>
          buyNative := buyNative + fee.tradeFeeNative;
          buyUsd := buyUsd + fee.tradeFeeUsd;
        case Sell =>
          sellNative := sellNative + fee.tradeFeeNative;
          sellUsd := sellUsd + fee.tradeFeeUsd;
      }
      i := i + 1;
    }
    assert legFees[..legFees.Length] == legFees[..];
  }

  /** Zeroes, in place, both fees of every leg on `side`. */
  method ZeroSide(legFees: array<LegFee>, side: ComboSide)
    modifies legFees
    ensures legFees[..] == Waive(old(legFees[..]), side)
  {
    var i := 0;
    while i < legFees.Length
      invariant 0 <= i <= legFees.Length
      invariant forall j :: 0 <= j < i ==> legFees[j] == WaiveFee(old(legFees[j]), side)
      invariant forall j :: i <= j < legFees.Length ==> legFees[j] == old(legFees[j])
    {
      if legFees[i].side == side {
        legFees[i] := legFees[i].(tradeFeeNative := 0.0, tradeFeeUsd := 0.0);
      }
      i := i + 1;
    }
  }

  /** The delivery fees of the legs held to expiry, daily legs skipped. */
  method DeliveryTotals(legs: seq<LegFeeInput>) returns (deliveryNative: real, deliveryUsd: real)
    ensures deliveryNative == DeliveryNative(legs) && deliveryUsd == DeliveryUsd(legs)
  {
    deliveryNative, deliveryUsd := 0.0, 0.0;
    var i := 0;
    while i < |legs|
      invariant 0 <= i <= |legs|
      invariant deliveryNative == DeliveryNative(legs[..i])
      invariant deliveryUsd == DeliveryUsd(legs[..i])
    {
      assert legs[..i + 1][..i] == legs[..i];
      var leg := legs[i];
      if leg.isDaily {
        i := i + 1;
        continue;
      }
      var contracts := Abs(leg.contracts) * leg.contractSize;
      var notional := leg.indexPrice * contracts;
      var optionValue := leg.optionPrice * contracts * (match leg.settlement case Usdc => 1.0 case Coin => leg.indexPrice);
      var feeUsd := Min(notional * DELIVERY_RATE, optionValue * PRICE_CAP);
      var feeNative := match leg.settlement
        case Usdc => feeUsd
        case Coin => if leg.indexPrice == 0.0 then 0.0 else feeUsd / leg.indexPrice;
      assert feeUsd == LegDeliveryUsd(leg) && feeNative == LegDeliveryNative(leg);
      deliveryUsd := deliveryUsd + feeUsd;
      deliveryNative := deliveryNative + feeNative;
      i := i + 1;
    }
    assert legs[..|legs|] == legs;
  }

  // ---------------------------------------------------------------- properties

  lemma {:induction false} WaiveTotals(fees: seq<LegFee>, side: ComboSide)
    ensures TotalNative(Waive(fees, side)) == TotalNative(fees) - SideNative(fees, side)
    ensures TotalUsd(Waive(fees, side)) == TotalUsd(fees) - SideUsd(fees, side)
  {
    if |fees| > 0 {
      var front := fees[..|fees| - 1];
      WaiveTotals(front, side);
      assert Waive(fees, side)[..|fees| - 1] == Waive(front, side);
    }
  }

  /**
   * The combo discount is the cheaper side's total (Buy on a tie): every leg of that side
   * is charged nothing, every other leg keeps its own fee, and the totals are the gross
   * fees less the discount plus delivery.
   */
  lemma ComboDiscountWaivesCheaperSide(ctx: FeeComputationContext)
    requires FeeSpec(ctx).Ok?
    ensures var b := FeeSpec(ctx).value; var gross := GrossFees(ctx.legs);
      && b.comboDiscountUsd == Min(SideUsd(gross, Buy), SideUsd(gross, Sell))
      && (SideUsd(gross, Buy) <= SideUsd(gross, Sell) ==> b.comboDiscount == SideNative(gross, Buy))
      && (SideUsd(gross, Buy) > SideUsd(gross, Sell) ==> b.comboDiscount == SideNative(gross, Sell))
      && (forall i :: 0 <= i < |ctx.legs| && ctx.legs[i].side == WaivedSide(gross) ==>
            b.legs[i].tradeFeeNative == 0.0 && b.legs[i].tradeFeeUsd == 0.0)
      && (forall i :: 0 <= i < |ctx.legs| && ctx.legs[i].side != WaivedSide(gross) ==>
            b.legs[i] == ComputeTradeFee(ctx.legs[i]))
      && b.totalUsd == TotalUsd(gross) - b.comboDiscountUsd + b.deliveryFeeUsd
      && b.totalNative == TotalNative(gross) - b.comboDiscount + b.deliveryFee
  {
    var gross := GrossFees(ctx.legs);
    WaiveTotals(gross, WaivedSide(gross));
  }

  lemma {:induction false} SumsNonNegative(fees: seq<LegFee>, side: ComboSide)
    requires forall i :: 0 <= i < |fees| ==> fees[i].tradeFeeNative >= 0.0 && fees[i].tradeFeeUsd >= 0.0
    ensures SideNative(fees, side) >= 0.0 && SideUsd(fees, side) >= 0.0
    ensures TotalNative(fees) >= 0.0 && TotalUsd(fees) >= 0.0
  {
    if |fees| > 0 {
      SumsNonNegative(fees[..|fees| - 1], side);
    }
  }

  lemma LegDeliveryNonNegative(leg: LegFeeInput)
    requires NonNegativeInput(leg)
    ensures LegDeliveryUsd(leg) >= 0.0 && LegDeliveryNative(leg) >= 0.0
  {
    var contracts := Abs(leg.contracts) * leg.contractSize;
    assert contracts >= 0.0;
    assert leg.indexPrice * contracts >= 0.0;
    assert leg.optionPrice * contracts >= 0.0;
    assert leg.optionPrice * contracts * leg.indexPrice >= 0.0;
  }

  lemma {:induction false} DeliveryNonNegative(legs: seq<LegFeeInput>)
    requires forall i :: 0 <= i < |legs| ==> NonNegativeInput(legs[i])
    ensures DeliveryNative(legs) >= 0.0 && DeliveryUsd(legs) >= 0.0
  {
    if |legs| > 0 {
      DeliveryNonNegative(legs[..|legs| - 1]);
      LegDeliveryNonNegative(legs[|legs| - 1]);
    }
  }

  /** With non-negative prices, indices and contract sizes, no fee figure is negative. */
  lemma FeesNonNegative(ctx: FeeComputationContext)
    requires FeeSpec(ctx).Ok?
    requires forall i :: 0 <= i < |ctx.legs| ==> NonNegativeInput(ctx.legs[i])
    ensures var b := FeeSpec(ctx).value;
      && (forall i :: 0 <= i < |b.legs| ==> b.legs[i].tradeFeeNative >= 0.0 && b.legs[i].tradeFeeUsd >= 0.0)
      && b.comboDiscount >= 0.0 && b.comboDiscountUsd >= 0.0
      && b.deliveryFee >= 0.0 && b.deliveryFeeUsd >= 0.0
      && b.totalNative >= 0.0 && b.totalUsd >= 0.0
  {
    var gross := GrossFees(ctx.legs);
    forall i | 0 <= i < |gross|
      ensures gross[i].tradeFeeNative >= 0.0 && gross[i].tradeFeeUsd >= 0.0
    {
      TradeFeeNonNegative(ctx.legs[i]);
    }
    var legs := Waive(gross, WaivedSide(gross));
    SumsNonNegative(gross, WaivedSide(gross));
    SumsNonNegative(legs, WaivedSide(gross));
    DeliveryNonNegative(ctx.legs);
  }

  lemma {:induction false} DailyLegsPayNoDelivery(legs: seq<LegFeeInput>)
    requires forall i :: 0 <= i < |legs| ==> legs[i].isDaily
    ensures DeliveryNative(legs) == 0.0 && DeliveryUsd(legs) == 0.0
  {
    if |legs| > 0 {
      DailyLegsPayNoDelivery(legs[..|legs| - 1]);
    }
  }

  /**
   * Delivery is charged only when the combo is held to expiry, never on daily legs, and
   * each leg pays at most 0.015% of its notional and at most 12.5% of its option value;
   * a coin leg's native fee converts back to the USD fee at the index.
   */
  lemma DeliveryRules(ctx: FeeComputationContext, leg: LegFeeInput)
    requires FeeSpec(ctx).Ok?
    ensures !ctx.holdToExpiry ==> FeeSpec(ctx).value.deliveryFee == 0.0 && FeeSpec(ctx).value.deliveryFeeUsd == 0.0
    ensures (forall i :: 0 <= i < |ctx.legs| ==> ctx.legs[i].isDaily) ==>
      FeeSpec(ctx).value.deliveryFee == 0.0 && FeeSpec(ctx).value.deliveryFeeUsd == 0.0
    ensures var contracts := Abs(leg.contracts) * leg.contractSize;
      && LegDeliveryUsd(leg) <= DELIVERY_RATE * (leg.indexPrice * contracts)
      && LegDeliveryUsd(leg) <= PRICE_CAP * (leg.optionPrice * contracts * (if leg.settlement == Usdc then 1.0 else leg.indexPrice))
    ensures leg.settlement == Coin && leg.indexPrice != 0.0 ==> LegDeliveryNative(leg) * leg.indexPrice == LegDeliveryUsd(leg)
  {
    if forall i :: 0 <= i < |ctx.legs| ==> ctx.legs[i].isDaily {
      DailyLegsPayNoDelivery(ctx.legs);
    }
  }

  function TestLeg(name: string, side: ComboSide, settlement: SettlementCurrency, price: real, index: real, contracts: real): LegFeeInput {
    LegFeeInput(name, side, settlement, Taker, price, index, contracts, 1.0, 0, false)
  }

  /** A coin leg: 10 contracts at 0.015 with the index at 40000 pay 0.003 coin, 120 USD. */
  lemma CoinFeeExample(ctx: FeeComputationContext)
    requires ctx == FeeComputationContext([TestLeg("BTC-TEST", Buy, Coin, 0.015, 40000.0, 10.0)], false)
    ensures FeeSpec(ctx).Ok?
    ensures FeeSpec(ctx).value.legs[0].tradeFeeNative == 0.003
    ensures FeeSpec(ctx).value.legs[0].tradeFeeUsd == 120.0
  {
    var gross := GrossFees(ctx.legs);
    assert gross[0].tradeFeeNative == 0.003 && gross[0].tradeFeeUsd == 120.0;
    assert SideUsd(gross, Sell) == 0.0;
    assert SideUsd(gross, Buy) == 120.0 by { assert gross[..0] == []; }
    assert !MixedSettlements(ctx.legs);
  }

  /** A USDC leg: 2 contracts at 500 with the index at 40000 pay 24 in both currencies. */
  lemma UsdcFeeExample(ctx: FeeComputationContext)
    requires ctx == FeeComputationContext([TestLeg("BTC-TEST", Buy, Usdc, 500.0, 40000.0, 2.0)], false)
    ensures FeeSpec(ctx).Ok?
    ensures FeeSpec(ctx).value.legs[0].tradeFeeNative == 24.0
    ensures FeeSpec(ctx).value.legs[0].tradeFeeUsd == 24.0
  {
    var gross := GrossFees(ctx.legs);
    assert gross[0].tradeFeeNative == 24.0;
    assert SideUsd(gross, Sell) == 0.0;
    assert SideUsd(gross, Buy) == 24.0 by { assert gross[..0] == []; }
    assert !MixedSettlements(ctx.legs);
  }

  /** Buy at 100 and sell at 200 (USDC, index 40000) tie at 12 USD each: the buy leg is waived. */
  lemma ComboDiscountExample(ctx: FeeComputationContext)
    requires ctx == FeeComputationContext(
      [TestLeg("BTC-LOW", Buy, Usdc, 100.0, 40000.0, 1.0), TestLeg("BTC-HIGH", Sell, Usdc, 200.0, 40000.0, 1.0)], false)
    ensures FeeSpec(ctx).Ok?
    ensures FeeSpec(ctx).value.comboDiscountUsd == 12.0
    ensures FeeSpec(ctx).value.legs[0].tradeFeeNative == 0.0
  {
    var gross := GrossFees(ctx.legs);
    assert gross[0].tradeFeeUsd == 12.0 && gross[1].tradeFeeUsd == 12.0;
    assert gross[..1][..0] == [] && gross[..2][..1] == gross[..1] && gross[..2] == gross;
    assert SideUsd(gross[..1], Buy) == 12.0 && SideUsd(gross[..1], Sell) == 0.0;
    assert SideUsd(gross, Buy) == 12.0 && SideUsd(gross, Sell) == 12.0;
    assert !MixedSettlements(ctx.legs) by {
      assert ctx.legs[0].settlement == Usdc && ctx.legs[1].settlement == Usdc;
    }
  }

  /** Held to expiry, 3 USDC contracts at 2000 (index 50000) pay a delivery fee in (0, 750]. */
  lemma DeliveryCapExample(ctx: FeeComputationContext)
    requires ctx == FeeComputationContext([TestLeg("BTC-DEL", Buy, Usdc, 2000.0, 50000.0, 3.0)], true)
    ensures FeeSpec(ctx).Ok?
    ensures 0.0 < FeeSpec(ctx).value.deliveryFeeUsd <= 750.0
  {
    assert ctx.legs[..0] == [];
    assert LegDeliveryUsd(ctx.legs[0]) == 22.5;
    assert DeliveryUsd(ctx.legs) == 22.5;
    assert !MixedSettlements(ctx.legs);
  }
}
