/**
 * optstore's tick record and its de-duplication key. The fixed-width Rust integers are
 * subset types of `int`; the four-level book arrays are sequences of length 4.
 */
module StoreSchema {
  import opened Text
  import opened Numbers

  type U8 = n: nat | n <= 0xFF
  type U16 = n: nat | n <= 0xFFFF
  type U32 = n: nat | n <= U32_MAX

  type I64 = n: int | I64_MIN <= n <= I64_MAX

  /** `[i64; 4]` and `[u32; 4]`: one entry per book level. */
  type PriceLevels = s: seq<I64> | |s| == 4 witness [0, 0, 0, 0]
  type SizeLevels = s: seq<U32> | |s| == 4 witness [0, 0, 0, 0]

  datatype Tick = Tick(
    tsNs: U64,
    instrumentId: U32,
    event: U8,
    priceFp: I64,
    size: U32,
    bidPxFp: PriceLevels,
    askPxFp: PriceLevels,
    bidSz: SizeLevels,
    askSz: SizeLevels,
    flags: U16)

  /** The tuple `(instrument_id, ts_ns, price_fp, size, event)`, in that order. */
  datatype TickKey = TickKey(instrumentId: U32, tsNs: U64, priceFp: I64, size: U32, event: U8)

  /** `Tick::key`. */
  function Key(t: Tick): TickKey {
    TickKey(t.instrumentId, t.tsNs, t.priceFp, t.size, t.event)
  }

  /** Two ticks share a key exactly when they agree on the five key fields. */
  lemma KeysEqualIff(a: Tick, b: Tick)
    ensures Key(a) == Key(b) <==>
      a.instrumentId == b.instrumentId && a.tsNs == b.tsNs && a.priceFp == b.priceFp
      && a.size == b.size && a.event == b.event
  {
  }

  /** The book levels and the flags are not part of the key. */
  lemma KeyIgnoresBook(t: Tick, bidPx: PriceLevels, askPx: PriceLevels, bidSz: SizeLevels,
                       askSz: SizeLevels, flags: U16)
    ensures Key(t.(bidPxFp := bidPx, askPxFp := askPx, bidSz := bidSz, askSz := askSz, flags := flags)) == Key(t)
  {
  }
}
