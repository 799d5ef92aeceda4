/**
 * The data model of deribit_arb: currencies, option kinds, instruments, quotes, combos,
 * fee breakdowns and opportunities, with the instrument-name parser, the parsing and
 * display of the small enums, and the strategy filter.
 *
 * Decimals are `real`; instants (`DateTime<Utc>`) are milliseconds since the epoch;
 * `f64` fields are `real`.
 */
module ArbModel {
  import opened Wrappers
  import opened Text
  import opened Numbers
  import opened Civil

  type U32 = n: nat | n <= 0xFFFF_FFFF

  // ---------------------------------------------------------------- currency

  datatype Currency = BTC | ETH

  datatype ParseInstrumentError =
    | InvalidFormat(text: string)
    | UnknownCurrency(text: string)
    | UnknownOptionKind(text: string)
    | InvalidExpiry(text: string)
    | InvalidStrike(text: string)

  function CurrencyDisplay(c: Currency): (s: string)
    ensures s == AsciiUpper(s) && |s| == 3
  {
    match c
    case BTC => "BTC"
    case ETH => "ETH"
  }

  /** `Currency::from_str`: case-insensitive; the error keeps the input as given. */
  function ParseCurrency(s: string): (r: Result<Currency, ParseInstrumentError>)
    ensures r.Ok? <==> AsciiUpper(s) == "BTC" || AsciiUpper(s) == "ETH"
    ensures r.Ok? ==> CurrencyDisplay(r.value) == AsciiUpper(s)
    ensures r.Err? ==> r.error == UnknownCurrency(s)
  {
    var u := AsciiUpper(s);
    if u == "BTC" then Ok(BTC)
    else if u == "ETH" then Ok(ETH)
    else Err(UnknownCurrency(s))
  }

  /** Parsing what Display writes gives the currency back. */
  lemma CurrencyRoundTrip(c: Currency)
    ensures ParseCurrency(CurrencyDisplay(c)) == Ok(c)
  {
  }

  // ---------------------------------------------------------------- option kind

  datatype OptionKind = Call | Put

  function OptionKindDisplay(k: OptionKind): (s: string)
    ensures |s| == 1
  {
    match k
    case Call => "C"
    case Put => "P"
  }

  /** `OptionKind::from_str`: C/CALL/P/PUT in any case; the error carries the uppercased text. */
  function ParseOptionKind(s: string): (r: Result<OptionKind, ParseInstrumentError>)
    ensures r == Ok(Call) <==> AsciiUpper(s) in {"C", "CALL"}
    ensures r == Ok(Put) <==> AsciiUpper(s) in {"P", "PUT"}
    ensures r.Err? ==> r.error == UnknownOptionKind(AsciiUpper(s))
  {
    var u := AsciiUpper(s);
    if u == "C" || u == "CALL" then Ok(Call)
    else if u == "P" || u == "PUT" then Ok(Put)
    else Err(UnknownOptionKind(u))
  }

  lemma OptionKindRoundTrip(k: OptionKind)
    ensures ParseOptionKind(OptionKindDisplay(k)) == Ok(k)
  {
    UpperUnchanged(OptionKindDisplay(k));
  }

  // ---------------------------------------------------------------- the other enums

  datatype SettlementCurrency = Usdc | Coin

  function SettlementDisplay(s: SettlementCurrency): string {
    match s
    case Usdc => "USDC"
    case Coin => "COIN"
  }

  datatype ComboSide = Buy | Sell

  function ComboSideDisplay(s: ComboSide): string {
    match s
    case Buy => "BUY"
    case Sell => "SELL"
  }

  datatype FillRole = Maker | Taker

  datatype OrderTimeInForce = IOC | FOK | GTC

  datatype StrategyKind = Vertical | Butterfly | Calendar | Box | StaleQuote | JellyRoll

  function StrategyKindDisplay(k: StrategyKind): string {
    match k
    case Vertical => "vertical"
    case Butterfly => "butterfly"
    case Calendar => "calendar"
    case Box => "box"
    case StaleQuote => "stale"
    case JellyRoll => "jelly"
  }

  // ---------------------------------------------------------------- records

  datatype Instrument = Instrument(
    instrumentName: string,
    currency: Currency,
    isUsdcSettled: bool,
    isCombo: bool,
    optionKind: OptionKind,
    strike: real,
    expiry: int,
    contractSize: real,
    settlementCurrency: SettlementCurrency,
    tickSize: real,
    minTradeAmount: real)

  datatype QuoteLevel = QuoteLevel(price: real, amount: real)

  datatype Quote = Quote(
    bestBid: Option<QuoteLevel>,
    bestAsk: Option<QuoteLevel>,
    markIv: Option<real>,
    bidIv: Option<real>,
    askIv: Option<real>,
    interestRate: Option<real>,
    timestamp: int,
    indexPrice: real)

  datatype OrderBook = OrderBook(bids: seq<QuoteLevel>, asks: seq<QuoteLevel>, timestamp: int)

  datatype InstrumentSnapshot = InstrumentSnapshot(
    instrument: Instrument,
    quote: Quote,
    orderBook: Option<OrderBook>)

  datatype ComboLeg = ComboLeg(instrumentName: string, ratio: int, side: ComboSide)

  datatype ComboDefinition = ComboDefinition(
    comboId: Option<string>,
    currency: Currency,
    settlement: SettlementCurrency,
    description: string,
    legs: seq<ComboLeg>)

  datatype LegFee = LegFee(
    instrumentName: string,
    side: ComboSide,
    settlement: SettlementCurrency,
    executionRole: FillRole,
    tradeFeeNative: real,
    tradeFeeUsd: real)

  datatype FeeBreakdown = FeeBreakdown(
    legs: seq<LegFee>,
    comboDiscount: real,
    comboDiscountUsd: real,
    deliveryFee: real,
    deliveryFeeUsd: real,
    totalNative: real,
    totalUsd: real)

  datatype LegTouch = LegTouch(instrumentName: string, side: ComboSide, price: real, sizeContracts: real)

  /** The subset of `serde_json::Value` the crate builds and inspects. */
  datatype Json =
    | JNull
    | JBool(b: bool)
    | JNum(n: real)
    | JStr(s: string)
    | JArr(items: seq<Json>)
    | JObj(fields: map<string, Json>)

  /** `Value::get(key)`: a field of an object, nothing for any other value. */
  function JsonGet(j: Json, key: string): (r: Option<Json>)
    ensures r.Some? <==> j.JObj? && key in j.fields
  {
    if j.JObj? && key in j.fields then Some(j.fields[key]) else None
  }

  datatype ComboExecutionPlan = ComboExecutionPlan(
    createPayload: Json,
    tif: OrderTimeInForce,
    priceLimit: real,
    dryRun: bool)

  datatype StrategyOpportunity = StrategyOpportunity(
    strategy: StrategyKind,
    currency: Currency,
    settlement: SettlementCurrency,
    expiry: seq<int>,
    strikes: seq<real>,
    legs: seq<ComboLeg>,
    touches: seq<LegTouch>,
    totalCost: real,
    maxPayout: real,
    feeBreakdown: FeeBreakdown,
    netEdgeNative: real,
    netEdgeUsd: real,
    notionalUsd: real,
    referenceIndex: real,
    edgeBps: real,
    sizeContracts: real,
    executionPlan: ComboExecutionPlan)

  datatype ChainSnapshot = ChainSnapshot(timestamp: int, instruments: seq<InstrumentSnapshot>)

  datatype MinEdgeRequirements = MinEdgeRequirements(minEdgeUsd: real, minEdgeRatio: real)

  function DirectionText(side: ComboSide): string {
    match side
    case Buy => "buy"
    case Sell => "sell"
  }

  /** The `create_payload` every detector attaches: the legs and the amount, no combo id. */
  function ComboPayload(legs: seq<ComboLeg>, size: real): (j: Json)
    ensures JsonGet(j, "combo_id") == None
    ensures JsonGet(j, "amount") == Some(JNum(size))
  {
    var legJson := seq(|legs|, i requires 0 <= i < |legs| =>
      JObj(map[
        "instrument_name" := JStr(legs[i].instrumentName),
        "ratio" := JNum(legs[i].ratio as real),
        "direction" := JStr(DirectionText(legs[i].side))]));
    JObj(map["legs" := JArr(legJson), "amount" := JNum(size)])
  }

  // ---------------------------------------------------------------- strategy filter

  datatype StrategyFilter = StrategyFilter(includes: seq<StrategyKind>)

  /** `Vec::contains`: a front-to-back scan. */
  function Contains(xs: seq<StrategyKind>, k: StrategyKind): (r: bool)
    ensures r <==> k in xs
  {
    if |xs| == 0 then false else xs[0] == k || Contains(xs[1..], k)
  }

  /** `StrategyFilter::allows`. */
  function Allows(f: StrategyFilter, k: StrategyKind): (r: bool)
    ensures r <==> k in f.includes
  {
    Contains(f.includes, k)
  }

  // ---------------------------------------------------------------- instrument names

  datatype ParsedInstrumentName = ParsedInstrumentName(
    currency: Currency,
    day: U32,
    month: string,
    year: U32,
    strike: real,
    optionKind: OptionKind)

  /** `JAN`..`DEC` to 1..12. */
  function MonthNumber(m: string): (r: Option<int>)
    ensures r.Some? ==> 1 <= r.value <= 12
  {
    if m == "JAN" then Some(1) else if m == "FEB" then Some(2)
    else if m == "MAR" then Some(3) else if m == "APR" then Some(4)
    else if m == "MAY" then Some(5) else if m == "JUN" then Some(6)
    else if m == "JUL" then Some(7) else if m == "AUG" then Some(8)
    else if m == "SEP" then Some(9) else if m == "OCT" then Some(10)
    else if m == "NOV" then Some(11) else if m == "DEC" then Some(12)
    else None
  }

  function MonthName(m: int): (s: string)
    requires 1 <= m <= 12
    ensures MonthNumber(s) == Some(m)
  {
    ["JAN", "FEB", "MAR", "APR", "MAY", "JUN", "JUL", "AUG", "SEP", "OCT", "NOV", "DEC"][m - 1]
  }

  /** `self.year as i32`: values from 2^31 up wrap to negative years. */
  function AsI32(n: U32): int {
    if n >= 0x8000_0000 then n - 0x1_0000_0000 else n
  }

  /**
   * `ParsedInstrumentName::expiry_date`: 08:00:00 UTC on the named day, or InvalidExpiry
   * for an unknown month or a day chrono does not accept.
   */
  function ExpiryDate(p: ParsedInstrumentName): (r: Result<int, ParseInstrumentError>)
    ensures MonthNumber(p.month).None? ==> r == Err(InvalidExpiry(p.month))
    ensures r.Ok? <==> MonthNumber(p.month).Some? && ValidDate(Date(AsI32(p.year), MonthNumber(p.month).value, p.day))
    ensures r.Ok? ==> DateOfMs(r.value) == Date(AsI32(p.year), MonthNumber(p.month).value, p.day)
    ensures r.Ok? ==> r.value % MS_PER_DAY == 8 * 3600 * 1000
  {
    match MonthNumber(p.month)
    case None => Err(InvalidExpiry(p.month))
    case Some(month) =>
      var dt := Date(AsI32(p.year), month, p.day);
      if !ValidDate(dt) then
        Err(InvalidExpiry(NatToString(p.year) + "-" + NatToString(month) + "-" + NatToString(p.day)))
      else
        DateOfTimestamp(dt, 8, 0, 0);
        Ok(TimestampMs(dt, 8, 0, 0))
  }

  /**
   * `ParsedInstrumentName::from_str` on names such as `BTC-25MAR23-42000-C`: four
   * '-'-separated parts; the date part is <day><MON><yy>, the year being 2000 + yy.
   */
  function ParseInstrumentName(s: string): (r: Result<ParsedInstrumentName, ParseInstrumentError>)
    ensures |SplitOn(s, '-')| != 4 ==> r == Err(InvalidFormat(s))
    ensures |SplitOn(s, '-')| == 4 && ParseCurrency(SplitOn(s, '-')[0]).Err? ==> r == ParseCurrency(SplitOn(s, '-')[0]).PropagateFailure()
    ensures |SplitOn(s, '-')| == 4 && ParseCurrency(SplitOn(s, '-')[0]).Ok? && |SplitOn(s, '-')[1]| < 6
      ==> r == Err(InvalidExpiry(SplitOn(s, '-')[1]))
    ensures var parts := SplitOn(s, '-');
      |parts| == 4 && ParseCurrency(parts[0]).Ok? && |parts[1]| >= 6 ==>
        var d := parts[1];
        var day := ParseUnsigned(d[..|d| - 5], U32_MAX);
        var year := ParseUnsigned("20" + d[|d| - 2..], U32_MAX);
        && (day.None? ==> r == Err(InvalidExpiry(d)))
        && (day.Some? && year.None? ==> r == Err(InvalidExpiry(d)))
        && (day.Some? && year.Some? && ParseDecimal(parts[2]).None? ==> r == Err(InvalidStrike(parts[2])))
        && (day.Some? && year.Some? && ParseDecimal(parts[2]).Some? && ParseOptionKind(parts[3]).Err?
            ==> r == ParseOptionKind(parts[3]).PropagateFailure())
    ensures r.Ok? ==> |SplitOn(s, '-')| == 4
    ensures r.Ok? ==> var parts := SplitOn(s, '-'); var d := parts[1];
      && |d| >= 6
      && ParseCurrency(parts[0]) == Ok(r.value.currency)
      && ParseUnsigned(d[..|d| - 5], U32_MAX) == Some(r.value.day as nat)
      && r.value.month == AsciiUpper(d[|d| - 5..|d| - 2])
      && ParseUnsigned("20" + d[|d| - 2..], U32_MAX) == Some(r.value.year as nat)
      && 2000 <= r.value.year <= 2099
      && ParseDecimal(parts[2]) == Some(r.value.strike)
      && ParseOptionKind(parts[3]) == Ok(r.value.optionKind)
  {
    var parts := SplitOn(s, '-');
    if |parts| != 4 then Err(InvalidFormat(s))
    else
      var currency :- ParseCurrency(parts[0]);
      var datePart := parts[1];
      if |datePart| < 6 then Err(InvalidExpiry(datePart))
      else
        var yearSuffix := datePart[|datePart| - 2..];
        var month := AsciiUpper(datePart[|datePart| - 5..|datePart| - 2]);
        var dayText := datePart[..|datePart| - 5];
        match ParseUnsigned(dayText, U32_MAX)
        case None => Err(InvalidExpiry(datePart))
        case Some(day) =>
          var yearText := "20" + yearSuffix;
          match ParseUnsigned(yearText, U32_MAX)
          case None => Err(InvalidExpiry(datePart))
          case Some(year) =>
            YearTextRange(yearSuffix);
            match ParseDecimal(parts[2])
            case None => Err(InvalidStrike(parts[2]))
            case Some(strike) =>
              var kind :- ParseOptionKind(parts[3]);
              Ok(ParsedInstrumentName(currency, day, month, year, strike, kind))
  }

  /** "20" followed by two characters is, when it is a number at all, a year of this century. */
  lemma YearTextRange(suffix: string)
    requires |suffix| == 2
    ensures ParseUnsigned("20" + suffix, U32_MAX).Some? ==> 2000 <= ParseUnsigned("20" + suffix, U32_MAX).value <= 2099
  {
    var t := "20" + suffix;
    if AllDigits(t) {
      assert forall i :: 0 <= i < |suffix| ==> suffix[i] == t[i + 2];
      ParseDigitsAppend("20", suffix);
      ParseDigitsBound(suffix);
      assert "20"[..1] == "2";
      assert ParseDigits("20") == 20;
    }
  }

  /**
   * The converse of ParseInstrumentName's success clause: a name whose four parts each
   * parse is accepted, with exactly those fields.
   */
  lemma ParseAcceptsParts(s: string, p: ParsedInstrumentName)
    requires |SplitOn(s, '-')| == 4
    requires var parts := SplitOn(s, '-'); var d := parts[1];
      && |d| >= 6
      && ParseCurrency(parts[0]) == Ok(p.currency)
      && ParseUnsigned(d[..|d| - 5], U32_MAX) == Some(p.day as nat)
      && p.month == AsciiUpper(d[|d| - 5..|d| - 2])
      && ParseUnsigned("20" + d[|d| - 2..], U32_MAX) == Some(p.year as nat)
      && ParseDecimal(parts[2]) == Some(p.strike)
      && ParseOptionKind(parts[3]) == Ok(p.optionKind)
    ensures ParseInstrumentName(s) == Ok(p)
  {
  }

  lemma UpperUnchanged(s: string)
    requires forall i :: 0 <= i < |s| ==> !('a' <= s[i] <= 'z')
    ensures AsciiUpper(s) == s
  {
  }

  lemma MonthNameUpper(m: int)
    requires 1 <= m <= 12
    ensures AsciiUpper(MonthName(m)) == MonthName(m)
  {
    UpperUnchanged(MonthName(m));
  }

  /** Joining four dash-free pieces with '-' and splitting again gives the pieces. */
  lemma SplitFourParts(a: string, b: string, c: string, d: string)
    requires '-' !in a && '-' !in b && '-' !in c && '-' !in d
    ensures SplitOn(a + "-" + b + "-" + c + "-" + d, '-') == [a, b, c, d]
  {
    var cd := c + "-" + d;
    var bcd := b + "-" + cd;
    assert a + "-" + b + "-" + c + "-" + d == a + ['-'] + bcd;
    SplitAfterPiece(a, bcd, '-');
    SplitAfterPiece(b, cd, '-');
    SplitAfterPiece(c, d, '-');
    SplitNoSeparator(d, '-');
  }

  /**
   * Every well-formed name is read back field by field: currency, a day number, a
   * three-letter month, a two-digit year, a whole-number strike and C/P.
   */
  lemma ParseComposedName(c: Currency, day: nat, month: int, yy: nat, strike: nat, k: OptionKind)
    requires 1 <= month <= 12 && yy < 100 && day <= U32_MAX
    ensures ParseInstrumentName(ComposeName(c, day, month, yy, strike, k))
         == Ok(ParsedInstrumentName(c, day, MonthName(month), 2000 + yy, strike as real, k))
  {
    ComposedNameParts(c, day, month, yy, strike, k);
    ParseAcceptsParts(ComposeName(c, day, month, yy, strike, k),
                      ParsedInstrumentName(c, day, MonthName(month), 2000 + yy, strike as real, k));
  }

  /** A Deribit option name such as `BTC-25MAR23-42000-C`. */
  function ComposeName(c: Currency, day: nat, month: int, yy: nat, strike: nat, k: OptionKind): string
    requires 1 <= month <= 12 && yy < 100
  {
    CurrencyDisplay(c) + "-" + (NatToString(day) + MonthName(month) + TwoDigits(yy))
      + "-" + NatToString(strike) + "-" + OptionKindDisplay(k)
  }

  lemma ComposedNameParts(c: Currency, day: nat, month: int, yy: nat, strike: nat, k: OptionKind)
    requires 1 <= month <= 12 && yy < 100 && day <= U32_MAX
    ensures var parts := SplitOn(ComposeName(c, day, month, yy, strike, k), '-');
      |parts| == 4 && var d := parts[1];
      && |d| >= 6
      && ParseCurrency(parts[0]) == Ok(c)
      && ParseUnsigned(d[..|d| - 5], U32_MAX) == Some(day)
      && MonthName(month) == AsciiUpper(d[|d| - 5..|d| - 2])
      && ParseUnsigned("20" + d[|d| - 2..], U32_MAX) == Some(2000 + yy)
      && ParseDecimal(parts[2]) == Some(strike as real)
      && ParseOptionKind(parts[3]) == Ok(k)
  {
    var datePart := NatToString(day) + MonthName(month) + TwoDigits(yy);
    NoDashInDatePart(day, month, yy);
    NoDashInDigits(NatToString(strike));
    SplitFourParts(CurrencyDisplay(c), datePart, NatToString(strike), OptionKindDisplay(k));
    ParseDatePart(day, month, yy);
    ParseDecimalNat(strike);
    CurrencyRoundTrip(c);
    OptionKindRoundTrip(k);
  }

  lemma NoDashInDigits(s: string)
    requires AllDigits(s)
    ensures '-' !in s
  {
    assert forall i :: 0 <= i < |s| ==> s[i] != '-' && IsDigit(s[i]);
  }

  lemma NoDashInDatePart(day: nat, month: int, yy: nat)
    requires 1 <= month <= 12 && yy < 100
    ensures '-' !in NatToString(day) + MonthName(month) + TwoDigits(yy)
  {
    NoDashInDigits(NatToString(day));
    NoDashInDigits(TwoDigits(yy));
  }

  lemma ParseDatePart(day: nat, month: int, yy: nat)
    requires 1 <= month <= 12 && yy < 100 && day <= U32_MAX
    ensures var d := NatToString(day) + MonthName(month) + TwoDigits(yy);
      && |d| >= 6
      && ParseUnsigned(d[..|d| - 5], U32_MAX) == Some(day)
      && MonthName(month) == AsciiUpper(d[|d| - 5..|d| - 2])
      && ParseUnsigned("20" + d[|d| - 2..], U32_MAX) == Some(2000 + yy)
  {
    var d := NatToString(day) + MonthName(month) + TwoDigits(yy);
    assert d[..|d| - 5] == NatToString(day);
    assert d[|d| - 5..|d| - 2] == MonthName(month);
    assert d[|d| - 2..] == TwoDigits(yy);
    ParseNatToString(day);
    MonthNameUpper(month);
    CenturyYear(yy);
  }

  /** `20` followed by the two year digits parses as the year of this century. */
  lemma CenturyYear(yy: nat)
    requires yy < 100
    ensures ParseUnsigned("20" + TwoDigits(yy), U32_MAX) == Some(2000 + yy)
  {
    ParseDigitsAppend("20", TwoDigits(yy));
    assert "20"[..1] == "2";
    assert ParseDigits("20") == 20;
  }

  /** The example from the parser's own comment. */
  lemma ParseExampleName(name: string)
    requires name == "BTC-25MAR23-42000-C"
    ensures ParseInstrumentName(name) == Ok(ParsedInstrumentName(BTC, 25, "MAR", 2023, 42000.0, Call))
  {
    ExampleNameComposed(name);
    ParseComposedName(BTC, 25, 3, 23, 42000, Call);
  }

  lemma ExampleNameComposed(name: string)
    requires name == "BTC-25MAR23-42000-C"
    ensures name == ComposeName(BTC, 25, 3, 23, 42000, Call)
    ensures MonthName(3) == "MAR"
  {
    ExampleDigits();
    assert MonthName(3) == "MAR";
    var datePart := NatToString(25) + MonthName(3) + TwoDigits(23);
    assert datePart == "25MAR23";
    assert ComposeName(BTC, 25, 3, 23, 42000, Call) == "BTC" + "-" + datePart + "-" + NatToString(42000) + "-" + "C";
  }

  lemma ExampleDigits()
    ensures NatToString(25) == "25" && NatToString(42000) == "42000" && TwoDigits(23) == "23"
  {
    assert DigitChar(0) == '0' && DigitChar(2) == '2' && DigitChar(4) == '4' && DigitChar(5) == '5';
    assert NatToString(25) == NatToString(2) + [DigitChar(5)] == "25";
    assert NatToString(42) == NatToString(4) + [DigitChar(2)] == "42";
    assert NatToString(420) == NatToString(42) + [DigitChar(0)] == "420";
    assert NatToString(4200) == NatToString(420) + [DigitChar(0)] == "4200";
    assert NatToString(42000) == NatToString(4200) + [DigitChar(0)] == "42000";
    assert TwoDigits(23) == "23";
  }
}
