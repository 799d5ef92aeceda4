/**
 * Start-up configuration of the scanner: the two Deribit environments and their fixed
 * endpoints, and the validation that turns the command line into an `AppConfig`.
 * The `API_KEY`/`API_SECRET` environment variables are read by the caller and passed in.
 */
module ArbConfig {
  import opened Wrappers
  import opened Text
  import opened Numbers
  import opened ArbModel

  datatype Environment = Testnet | Production

  /** `Environment::websocket_url`. */
  function WebsocketUrl(e: Environment): (url: string)
    ensures |url| > 6 && url[..6] == "wss://"
  {
    match e
    case Testnet => "wss://test.deribit.com/ws/api/v2"
    case Production => "wss://www.deribit.com/ws/api/v2"
  }

  /** `Environment::http_base`. */
  function HttpBase(e: Environment): (url: string)
    ensures |url| > 8 && url[..8] == "https://"
  {
    match e
    case Testnet => "https://test.deribit.com/api/v2"
    case Production => "https://www.deribit.com/api/v2"
  }

  /** The host both endpoints of an environment talk to. */
  function Host(e: Environment): string {
    match e
    case Testnet => "test.deribit.com"
    case Production => "www.deribit.com"
  }

  /**
   * Each environment has its own endpoints, and the WebSocket and HTTP endpoints of one
   * environment are the JSON-RPC v2 paths of the same host.
   */
  lemma EndpointsShareHost(e: Environment)
    ensures WebsocketUrl(e) == "wss://" + Host(e) + "/ws/api/v2"
    ensures HttpBase(e) == "https://" + Host(e) + "/api/v2"
  {
    WebsocketOnHost(e);
    HttpOnHost(e);
  }

  lemma WebsocketOnHost(e: Environment)
    ensures WebsocketUrl(e) == "wss://" + Host(e) + "/ws/api/v2"
  {
    match e
    case Testnet => assert WebsocketUrl(Testnet) == "wss://" + Host(Testnet) + "/ws/api/v2";
    case Production => assert WebsocketUrl(Production) == "wss://" + Host(Production) + "/ws/api/v2";
  }

  lemma HttpOnHost(e: Environment)
    ensures HttpBase(e) == "https://" + Host(e) + "/api/v2"
  {
    match e
    case Testnet => assert HttpBase(Testnet) == "https://" + Host(Testnet) + "/api/v2";
    case Production => assert HttpBase(Production) == "https://" + Host(Production) + "/api/v2";
  }

  lemma EndpointsDiffer()
    ensures WebsocketUrl(Testnet) != WebsocketUrl(Production)
    ensures HttpBase(Testnet) != HttpBase(Production)
  {
    assert WebsocketUrl(Testnet)[6] != WebsocketUrl(Production)[6];
    assert HttpBase(Testnet)[8] != HttpBase(Production)[8];
  }

  /** The parsed command line (after clap has split the comma-separated lists). */
  datatype Cli = Cli(
    env: string,
    currencies: seq<string>,
    linears: seq<string>,
    dryRun: bool,
    maxTicket: U64,
    minEdgeUsd: U64,
    minEdgeRatio: real,
    holdToExpiry: bool,
    only: seq<string>,
    maxConcurrentCombos: U32,
    minDepthContracts: U32)

  datatype AppConfig = AppConfig(
    environment: Environment,
    apiKey: Option<string>,
    apiSecret: Option<string>,
    currencies: seq<Currency>,
    settlements: seq<SettlementCurrency>,
    dryRun: bool,
    maxTicketUsd: real,
    minEdgeUsd: real,
    minEdgeRatio: real,
    holdToExpiry: bool,
    strategyFilter: StrategyFilter,
    maxConcurrentCombos: U32,
    minDepthContracts: U32)

  datatype ConfigError =
    | UnknownEnv(env: string)
    | BadCurrency(cause: ParseInstrumentError)
    | UnknownSettlement(settlement: string)
    | EdgeRatioTooLow
    | UnknownStrategy(strategy: string)
    | NoDetectors

  /** `collect::<Result<Vec<_>, _>>()` over a mapped sequence: all values, or the first error. */
  function Collect<A, B, E>(xs: seq<A>, f: A -> Result<B, E>): (r: Result<seq<B>, E>)
    ensures r.Ok? <==> forall i :: 0 <= i < |xs| ==> f(xs[i]).Ok?
    ensures r.Ok? ==> |r.value| == |xs| && forall i :: 0 <= i < |xs| ==> r.value[i] == f(xs[i]).value
    ensures r.Err? ==> exists i :: 0 <= i < |xs| && f(xs[i]) == Err(r.error)
                                  && forall j :: 0 <= j < i ==> f(xs[j]).Ok?
  {
    if |xs| == 0 then Ok([])
    else
      match f(xs[0])
      case Err(e) => Err(e)
      case Ok(b) =>
        match Collect(xs[1..], f)
        case Err(e) =>
          ghost var i :| 0 <= i < |xs[1..]| && f(xs[1..][i]) == Err(e)
                         && forall j :: 0 <= j < i ==> f(xs[1..][j]).Ok?;
          assert f(xs[i + 1]) == Err(e);
          assert forall j :: 0 <= j < i + 1 ==> f(xs[j]).Ok? by {
            forall j | 0 <= j < i + 1 ensures f(xs[j]).Ok? {
              if j > 0 { assert xs[j] == xs[1..][j - 1]; }
            }
          }
          Err(e)
        case Ok(bs) => Ok([b] + bs)
  }

  /** The environment names, compared after ASCII lower-casing. */
  function ParseEnvironment(s: string): (r: Result<Environment, ConfigError>)
    ensures r == Ok(Testnet) <==> AsciiLower(s) == "test" || AsciiLower(s) == "testnet"
    ensures r == Ok(Production)
        <==> AsciiLower(s) == "prod" || AsciiLower(s) == "production" || AsciiLower(s) == "main"
    ensures r.Err? ==> r.error == UnknownEnv(AsciiLower(s))
  {
    var t := AsciiLower(s);
    if t == "test" || t == "testnet" then Ok(Testnet)
    else if t == "prod" || t == "production" || t == "main" then Ok(Production)
    else Err(UnknownEnv(t))
  }

  lemma LowerOfUpper(s: string)
    ensures AsciiLower(AsciiUpper(s)) == AsciiLower(s)
  {
    assert forall i :: 0 <= i < |s| ==> LowerChar(UpperChar(s[i])) == LowerChar(s[i]);
  }

  /** The environment name is case-insensitive. */
  lemma EnvironmentIgnoresCase(s: string)
    ensures ParseEnvironment(AsciiUpper(s)) == ParseEnvironment(s)
  {
    LowerOfUpper(s);
  }

  /** Settlement names are matched exactly (no case folding). */
  function ParseSettlement(s: string): (r: Result<SettlementCurrency, ConfigError>)
    ensures r == Ok(Usdc) <==> s == "usdc"
    ensures r == Ok(Coin) <==> s == "coin"
    ensures r.Err? ==> r.error == UnknownSettlement(s)
  {
    if s == "usdc" then Ok(Usdc)
    else if s == "coin" then Ok(Coin)
    else Err(UnknownSettlement(s))
  }

  /** The canonical lower-case name of a settlement currency parses back to it. */
  lemma SettlementRoundTrip(c: SettlementCurrency)
    ensures ParseSettlement(AsciiLower(SettlementDisplay(c))) == Ok(c)
  {
  }

  function StrategyKey(s: string): string {
    AsciiLower(Trim(s))
  }

  /** A strategy name, trimmed and lower-cased, with the stale-quote and jelly-roll aliases. */
  function ParseStrategyName(s: string): (r: Result<StrategyKind, ConfigError>)
    ensures r.Err? ==> r.error == UnknownStrategy(StrategyKey(s))
  {
    StrategyOfKey(StrategyKey(s))
  }

  /** The kind a trimmed, lower-cased strategy name selects. */
  function StrategyOfKey(t: string): (r: Result<StrategyKind, ConfigError>)
    ensures r.Err? ==> r.error == UnknownStrategy(t)
  {
    if t == "vertical" then Ok(Vertical)
    else if t == "butterfly" then Ok(Butterfly)
    else if t == "calendar" then Ok(Calendar)
    else if t == "box" then Ok(Box)
    else if t == "stale" || t == "stalequote" || t == "stale-quote" then Ok(StaleQuote)
    else if t == "jelly" || t == "jellyroll" || t == "jelly-roll" then Ok(JellyRoll)
    else Err(UnknownStrategy(t))
  }

  /** The three spellings of the stale-quote strategy, and only they, select it. */
  lemma StaleQuoteAliases(s: string)
    ensures ParseStrategyName(s) == Ok(StaleQuote)
        <==> StrategyKey(s) in ["stale", "stalequote", "stale-quote"]
  {
    StaleQuoteKeys(StrategyKey(s));
  }

  lemma StaleQuoteKeys(t: string)
    ensures StrategyOfKey(t) == Ok(StaleQuote) <==> t in ["stale", "stalequote", "stale-quote"]
  {
  }

  /** The three spellings of the jelly-roll strategy, and only they, select it. */
  lemma JellyRollAliases(s: string)
    ensures ParseStrategyName(s) == Ok(JellyRoll)
        <==> StrategyKey(s) in ["jelly", "jellyroll", "jelly-roll"]
  {
    JellyRollKeys(StrategyKey(s));
  }

  lemma JellyRollKeys(t: string)
    ensures StrategyOfKey(t) == Ok(JellyRoll) <==> t in ["jelly", "jellyroll", "jelly-roll"]
  {
  }

  /** The names that select a detector; every other name is an unknown strategy. */
  lemma StrategyNamesKnown(s: string)
    ensures ParseStrategyName(s).Ok? <==>
      StrategyKey(s) in ["vertical", "butterfly", "calendar", "box", "stale", "stalequote",
                         "stale-quote", "jelly", "jellyroll", "jelly-roll"]
  {
    KnownKeys(StrategyKey(s));
  }

  lemma KnownKeys(t: string)
    ensures StrategyOfKey(t).Ok? <==>
      t in ["vertical", "butterfly", "calendar", "box", "stale", "stalequote",
            "stale-quote", "jelly", "jellyroll", "jelly-roll"]
  {
  }

  /** A name already in canonical form is its own key. */
  lemma CanonicalKey(s: string)
    requires |s| > 0 && forall i :: 0 <= i < |s| ==> 'a' <= s[i] <= 'z' || s[i] == '-'
    ensures StrategyKey(s) == s
  {
  }

  lemma KeySelects(s: string, k: StrategyKind)
    requires StrategyKey(s) == StrategyKindDisplay(k)
    ensures ParseStrategyName(s) == Ok(k)
  {
  }

  /** The name a strategy kind displays as selects that kind again. */
  lemma StrategyNameRoundTrip(k: StrategyKind)
    ensures ParseStrategyName(StrategyKindDisplay(k)) == Ok(k)
  {
    var s := StrategyKindDisplay(k);
    assert forall i :: 0 <= i < |s| ==> 'a' <= s[i] <= 'z' || s[i] == '-';
    CanonicalKey(s);
    KeySelects(s, k);
  }

  /** `AppConfig::from_cli`: a configuration exactly when every field validates. */
  function FromCli(cli: Cli, apiKey: Option<string>, apiSecret: Option<string>): (r: Result<AppConfig, ConfigError>)
    ensures r.Ok? <==>
      && ParseEnvironment(cli.env).Ok?
      && (forall i :: 0 <= i < |cli.currencies| ==> ParseCurrency(cli.currencies[i]).Ok?)
      && (forall i :: 0 <= i < |cli.linears| ==> cli.linears[i] == "usdc" || cli.linears[i] == "coin")
      && cli.minEdgeRatio >= 1.0
      && (forall i :: 0 <= i < |cli.only| ==> ParseStrategyName(cli.only[i]).Ok?)
      && |cli.only| > 0
  {
    var env :- ParseEnvironment(cli.env);
    var currencies :- match Collect(cli.currencies, ParseCurrency)
      case Ok(cs) => Ok(cs)
      case Err(e) => Err(BadCurrency(e));
    var settlements :- Collect(cli.linears, ParseSettlement);
    if cli.minEdgeRatio < 1.0 then Err(EdgeRatioTooLow)
    else
      var kinds :- Collect(cli.only, ParseStrategyName);
      if |kinds| == 0 then Err(NoDetectors)
      else
        Ok(AppConfig(
          env, apiKey, apiSecret, currencies, settlements, cli.dryRun,
          cli.maxTicket as real, cli.minEdgeUsd as real, cli.minEdgeRatio, cli.holdToExpiry,
          StrategyFilter(kinds), cli.maxConcurrentCombos, cli.minDepthContracts))
  }

  /** A validated configuration carries the parsed values of the command line, in order. */
  lemma FromCliFields(cli: Cli, apiKey: Option<string>, apiSecret: Option<string>)
    requires FromCli(cli, apiKey, apiSecret).Ok?
    ensures var c := FromCli(cli, apiKey, apiSecret).value;
      && c.environment == ParseEnvironment(cli.env).value
      && c.apiKey == apiKey && c.apiSecret == apiSecret
      && |c.currencies| == |cli.currencies|
      && (forall i :: 0 <= i < |cli.currencies| ==> CurrencyDisplay(c.currencies[i]) == AsciiUpper(cli.currencies[i]))
      && |c.settlements| == |cli.linears|
      && (forall i :: 0 <= i < |cli.linears| ==> (c.settlements[i] == Usdc <==> cli.linears[i] == "usdc"))
      && c.dryRun == cli.dryRun && c.holdToExpiry == cli.holdToExpiry
      && c.maxTicketUsd == cli.maxTicket as real
      && c.minEdgeUsd == cli.minEdgeUsd as real
      && c.minEdgeRatio == cli.minEdgeRatio
      && |c.strategyFilter.includes| == |cli.only|
      && (forall i :: 0 <= i < |cli.only| ==> c.strategyFilter.includes[i] == ParseStrategyName(cli.only[i]).value)
      && c.maxConcurrentCombos == cli.maxConcurrentCombos
      && c.minDepthContracts == cli.minDepthContracts
  {
    var cs := Collect(cli.currencies, ParseCurrency);
    var ss := Collect(cli.linears, ParseSettlement);
    var ks := Collect(cli.only, ParseStrategyName);
    assert cs.Ok? && ss.Ok? && ks.Ok?;
    assert FromCli(cli, apiKey, apiSecret).value == AppConfig(
      ParseEnvironment(cli.env).value, apiKey, apiSecret, cs.value, ss.value, cli.dryRun,
      cli.maxTicket as real, cli.minEdgeUsd as real, cli.minEdgeRatio, cli.holdToExpiry,
      StrategyFilter(ks.value), cli.maxConcurrentCombos, cli.minDepthContracts);
  }

  /**
   * The checks run in source order: an unknown environment wins over everything else, a
   * bad currency over everything after it, and the later errors name their own cause.
   */
  lemma FromCliErrorOrder(cli: Cli, apiKey: Option<string>, apiSecret: Option<string>)
    ensures ParseEnvironment(cli.env).Err? ==> FromCli(cli, apiKey, apiSecret) == Err(UnknownEnv(AsciiLower(cli.env)))
    ensures ParseEnvironment(cli.env).Ok? && (exists i :: 0 <= i < |cli.currencies| && ParseCurrency(cli.currencies[i]).Err?)
        ==> FromCli(cli, apiKey, apiSecret).Err? && FromCli(cli, apiKey, apiSecret).error.BadCurrency?
    ensures FromCli(cli, apiKey, apiSecret) == Err(EdgeRatioTooLow) ==> cli.minEdgeRatio < 1.0
    ensures FromCli(cli, apiKey, apiSecret) == Err(NoDetectors) ==> |cli.only| == 0 && cli.minEdgeRatio >= 1.0
  {
    var r := FromCli(cli, apiKey, apiSecret);
    var cs := Collect(cli.currencies, ParseCurrency);
    var ss := Collect(cli.linears, ParseSettlement);
    var ks := Collect(cli.only, ParseStrategyName);
    if ParseEnvironment(cli.env).Ok? {
      if cs.Err? {
        assert r == Err(BadCurrency(cs.error));
      } else if ss.Err? {
        assert r == Err(ss.error);
      } else if cli.minEdgeRatio < 1.0 {
        assert r == Err(EdgeRatioTooLow);
      } else if ks.Err? {
        assert r == Err(ks.error);
      }
    }
  }
}
