/**
 * `DeribitNormalizer::to_ticks`: the trades of one fetched page become ticks, in order,
 * skipping every trade that lacks a price, an amount or a timestamp.
 *
 * The page is decoded into the typed `TradeResponse`, which needs a `result` object and
 * reads `result.trades` as an optional list. Prices and amounts are `f64` in the source
 * and exact reals here; the conversions round and saturate as Rust's `round` and `as`
 * casts do.
 */
module StoreNormalize {
  import opened Wrappers
  import opened Text
  import opened Numbers
  import opened StoreSchema
  import opened StoreTypes

  /** `DeribitNormalizer`: the instrument id stamped on every tick. */
  datatype DeribitNormalizer = DeribitNormalizer(instrumentId: U32)

  /** Why a page does not decode as a `TradeResponse`. */
  datatype DecodeError = NotJson | MissingResult

  /** The event code of a trade tick. */
  const TRADE_EVENT: U8 := 1
  const PRICE_SCALE: real := 1_000_000.0
  const SIZE_SCALE: real := 1_000.0
  const NO_PRICES: PriceLevels := [0, 0, 0, 0]
  const NO_SIZES: SizeLevels := [0, 0, 0, 0]

  /** `f64::round`: the nearest integer, halves rounded away from zero. */
  function RoundHalfAway(x: real): (r: int)
    ensures x - 0.5 <= r as real <= x + 0.5
    ensures r as real == x + 0.5 ==> x > 0.0
    ensures r as real == x - 0.5 ==> x < 0.0
  {
    if x >= 0.0 then (x + 0.5).Floor else -((-x + 0.5).Floor)
  }

  /** `as i64` from a float: saturating at the bounds of `i64`. */
  function SaturateI64(n: int): I64 {
    if n < I64_MIN then I64_MIN else if n > I64_MAX then I64_MAX else n
  }

  /** `(price * 1_000_000.0).round() as i64`. */
  function PriceFp(price: real): (p: I64)
    ensures I64_MIN as real <= price * PRICE_SCALE <= I64_MAX as real ==>
      price * PRICE_SCALE - 0.5 <= p as real <= price * PRICE_SCALE + 0.5
  {
    SaturateI64(RoundHalfAway(price * PRICE_SCALE))
  }

  /** `(amount.abs() * 1_000.0) as u32`: truncated, saturating at `u32::MAX`. */
  function SizeUnits(amount: real): (s: U32)
    ensures Abs(amount) * SIZE_SCALE < (U32_MAX + 1) as real ==>
      s as real <= Abs(amount) * SIZE_SCALE < (s + 1) as real
  {
    var scaled := (Abs(amount) * SIZE_SCALE).Floor;
    if scaled > U32_MAX then U32_MAX else scaled
  }

  /** The size depends on the amount's magnitude only: buys and sells of one amount agree. */
  lemma SizeIgnoresSign(amount: real)
    ensures SizeUnits(amount) == SizeUnits(-amount)
  {
  }

  /** A trade that carries a price, an amount and a timestamp. */
  predicate Complete(t: TradeJson) {
    t.price.Some? && t.amount.Some? && t.timestamp.Some?
  }

  /** The tick of a complete trade. */
  function TickFrom(n: DeribitNormalizer, t: TradeJson): (tick: Tick)
    requires Complete(t)
    ensures tick.instrumentId == n.instrumentId && tick.event == TRADE_EVENT && tick.flags == 0
    ensures tick.bidPxFp == NO_PRICES && tick.askPxFp == NO_PRICES
    ensures tick.bidSz == NO_SIZES && tick.askSz == NO_SIZES
    ensures t.timestamp.value <= U64_MAX / NS_PER_MS ==> tick.tsNs == t.timestamp.value * NS_PER_MS
  {
    Tick(MsToNs(t.timestamp.value), n.instrumentId, TRADE_EVENT, PriceFp(t.price.value),
         SizeUnits(t.amount.value), NO_PRICES, NO_PRICES, NO_SIZES, NO_SIZES, 0)
  }

  /** The positions of the complete trades, in increasing order. */
  function CompleteIndices(trades: seq<TradeJson>): (idx: seq<nat>)
    ensures forall j :: 0 <= j < |idx| ==> idx[j] < |trades| && Complete(trades[idx[j]])
    ensures forall j, k :: 0 <= j < k < |idx| ==> idx[j] < idx[k]
    ensures forall i :: 0 <= i < |trades| && Complete(trades[i]) ==> i in idx
  {
    if |trades| == 0 then []
    else
      var rest := CompleteIndices(trades[..|trades| - 1]);
      if Complete(trades[|trades| - 1]) then rest + [|trades| - 1] else rest
  }

  /**
   * The ticks of a list of trades: the j-th tick comes from the j-th complete trade, so
   * the input order is kept and incomplete trades leave no tick.
   */
  function TicksOf(n: DeribitNormalizer, trades: seq<TradeJson>): (ticks: seq<Tick>)
    ensures |ticks| == |CompleteIndices(trades)| <= |trades|
    ensures forall j :: 0 <= j < |ticks| ==>
      ticks[j] == TickFrom(n, trades[CompleteIndices(trades)[j]])
  {
    if |trades| == 0 then []
    else
      var rest := TicksOf(n, trades[..|trades| - 1]);
      var last := trades[|trades| - 1];
      if Complete(last) then rest + [TickFrom(n, last)] else rest
  }

  /** The trades of a page as the typed decode sees them; absent `trades` is an empty list. */
  function DecodeTrades(raw: RawChunk): (r: Result<seq<TradeJson>, DecodeError>)
    ensures r.Err? <==> raw.json.None? || raw.json.value.result.None?
    ensures r.Ok? && raw.json.value.result.value.trades.None? ==> r.value == []
  {
    match raw.json
    case None => Err(NotJson)
    case Some(page) =>
      match page.result
      case None => Err(MissingResult)
      case Some(result) => Ok(result.trades.GetOr([]))
  }

  /** `to_ticks`: decode the page, then push one tick per complete trade. */
  method ToTicks(n: DeribitNormalizer, raw: RawChunk) returns (r: Result<seq<Tick>, DecodeError>)
    ensures r.Err? <==> DecodeTrades(raw).Err?
    ensures r.Err? ==> r.error == DecodeTrades(raw).error
    ensures r.Ok? ==> r.value == TicksOf(n, DecodeTrades(raw).value)
  {
    var decoded := DecodeTrades(raw);
    if decoded.Err? {
      return Err(decoded.error);
    }
    var trades := decoded.value;
    var ticks := [];
    var i := 0;
    while i < |trades|
      invariant 0 <= i <= |trades|
      invariant ticks == TicksOf(n, trades[..i])
    {
      var trade := trades[i];
      assert trades[..i + 1][..i] == trades[..i];
      if trade.price.Some? && trade.amount.Some? && trade.timestamp.Some? {
        ticks := ticks + [TickFrom(n, trade)];
      }
      i := i + 1;
    }
    assert trades[..i] == trades;
    r := Ok(ticks);
  }
}
