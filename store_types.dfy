/**
 * The types `optstore::retrieve` passes between the fetcher, the normaliser and the cache:
 * the retrieve request, the options of one fetch, and a raw page of the upstream answer.
 *
 * A page body is JSON. Its bytes are kept as they are, next to the value `serde_json`
 * reads from them (`None` for bytes that are not JSON); the parser itself is left out.
 */
module StoreTypes {
  import opened Wrappers
  import opened Text
  import opened Numbers
  import opened StoreSchema

  type Byte = n: nat | n < 256

  /** `RetrieveKind`: which upstream data a retrieve asks for. */
  datatype RetrieveKind = Trades | Quotes | Both

  /** `RetrieveSpec`: symbol, day as the number YYYYMMDD, and kind. */
  datatype RetrieveSpec = RetrieveSpec(symbol: string, dayYmd: U32, kind: RetrieveKind)

  /** `RetrieveOptions`: `maxPages` is `None` for an unlimited fetch. */
  datatype RetrieveOptions = RetrieveOptions(
    resumeFrom: Option<string>,
    maxPages: Option<U32>,
    startMs: U64,
    endMs: U64)

  /** One trade of the upstream answer; a field that is absent or null is `None`. */
  datatype TradeJson = TradeJson(price: Option<real>, amount: Option<real>, timestamp: Option<U64>)

  /** The `result` object of a page; a field that is absent or null is `None`. */
  datatype PageResult = PageResult(
    trades: Option<seq<TradeJson>>,
    continuation: Option<string>,
    hasMore: Option<bool>)

  /**
   * A parsed page body: its `result` object, and the string at `error.message` that an
   * error answer carries.
   */
  datatype PageJson = PageJson(result: Option<PageResult>, errorMessage: Option<string>)

  /** `RawChunk`: one fetched page, the nanosecond span of its trades and its resume token. */
  datatype RawChunk = RawChunk(
    data: seq<Byte>,
    json: Option<PageJson>,
    startNs: U64,
    endNs: U64,
    resume: Option<string>)

  const NS_PER_MS: nat := 1_000_000

  /**
   * `ms * 1_000_000` on `u64`, wrapping around on overflow as a release build does; the
   * product is exact for every timestamp up to the year 2554.
   */
  function MsToNs(ms: U64): (ns: U64)
    ensures ms <= U64_MAX / NS_PER_MS ==> ns == ms * NS_PER_MS
  {
    (ms * NS_PER_MS) % (U64_MAX + 1)
  }
}
