/**
 * `oldest_eth_options`: finds the oldest expired ETH option on Deribit that has recorded
 * trades. The instrument lists of the two API hosts are merged by name, the instruments
 * are probed oldest first, each probe asks the hosts in turn for the instrument's oldest
 * trades, and the samples the probes leave behind feed an estimate of what downloading
 * every instrument would take.
 *
 * The HTTP requests are parameters: `fetchInstruments(host)` is a host's answer to the
 * instruments request and `fetchTrades(host, name)` its answer to the trades request of
 * one instrument.
 */
module OldestEth {
  import opened Wrappers
  import opened Text
  import opened Numbers
  import opened Civil
  import opened Sorting
  import StoreNormalize
  import StoreRetrieve

  /** `API_HOSTS`, in the order they are asked. */
  const API_HOSTS: seq<string> := ["https://history.deribit.com/api/v2", "https://www.deribit.com/api/v2"]

  /** `Instrument`: one expired option as a host lists it (`f64` strikes as reals). */
  datatype Instrument = Instrument(
    name: string,
    creation: U64,
    expiration: Option<U64>,
    strike: Option<real>,
    optionType: Option<string>,
    settlementPeriod: Option<string>,
    baseCurrency: Option<string>,
    quoteCurrency: Option<string>,
    underlyingIndex: Option<string>)

  type InstrumentsApi = string -> Result<seq<Instrument>, string>

  // ---------------------------------------------------------------- fetch_all_instruments

  /** The map after `entry(name).and_modify(keep the older creation).or_insert(inst)`. */
  function Upsert(m: map<string, Instrument>, inst: Instrument): map<string, Instrument> {
    if inst.name in m then
      var existing := m[inst.name];
      m[inst.name := existing.(creation := if inst.creation < existing.creation then inst.creation else existing.creation)]
    else m[inst.name := inst]
  }

  /** The map after folding in `records` one by one, in order. */
  function Merged(records: seq<Instrument>): map<string, Instrument> {
    if |records| == 0 then map[]
    else Upsert(Merged(records[..|records| - 1]), records[|records| - 1])
  }

  /** The instruments of the hosts that answered, host by host in the order of `hosts`. */
  function Answered(hosts: seq<string>, fetchInstruments: InstrumentsApi): seq<Instrument> {
    if |hosts| == 0 then []
    else
      var last := fetchInstruments(hosts[|hosts| - 1]);
      Answered(hosts[..|hosts| - 1], fetchInstruments) + (if last.Ok? then last.value else [])
  }

  /**
   * `fetch_all_instruments`: the instruments of every host (`API_HOSTS` in the source),
   * de-duplicated by name. A name
   * seen again keeps its first record with the older of the two creation times; a host
   * that fails is skipped with a warning.
   */
  method FetchAllInstruments(hosts: seq<string>, fetchInstruments: InstrumentsApi) returns (instruments: map<string, Instrument>)
    ensures instruments == Merged(Answered(hosts, fetchInstruments))
  {
    instruments := map[];
    for h := 0 to |hosts|
      invariant instruments == Merged(Answered(hosts[..h], fetchInstruments))
    {
      AnsweredStep(hosts, h, fetchInstruments);
      match fetchInstruments(hosts[h]) {
        case Ok(hostInstruments) =>
          ghost var before := Answered(hosts[..h], fetchInstruments);
          assert before + hostInstruments[..0] == before;
          for j := 0 to |hostInstruments|
            invariant instruments == Merged(before + hostInstruments[..j])
          {
            var inst := hostInstruments[j];
            MergedStep(before, hostInstruments, j);
            if inst.name in instruments {
              var existing := instruments[inst.name];
              var creation := if inst.creation < existing.creation then inst.creation else existing.creation;
              instruments := instruments[inst.name := existing.(creation := creation)];
            } else {
              instruments := instruments[inst.name := inst];
            }
          }
          assert hostInstruments[..|hostInstruments|] == hostInstruments;
        case Err(_) =>
          assert Answered(hosts[..h], fetchInstruments) + [] == Answered(hosts[..h], fetchInstruments);
      }
    }
    assert hosts[..|hosts|] == hosts;
  }

  lemma AnsweredStep(hosts: seq<string>, h: nat, fetchInstruments: InstrumentsApi)
    requires h < |hosts|
    ensures Answered(hosts[..h + 1], fetchInstruments) ==
      Answered(hosts[..h], fetchInstruments) + (if fetchInstruments(hosts[h]).Ok? then fetchInstruments(hosts[h]).value else [])
  {
    assert hosts[..h + 1][..h] == hosts[..h];
  }

  lemma MergedStep(before: seq<Instrument>, more: seq<Instrument>, j: nat)
    requires j < |more|
    ensures Merged(before + more[..j + 1]) == Upsert(Merged(before + more[..j]), more[j])
  {
    var all := before + more[..j + 1];
    assert all[..|all| - 1] == before + more[..j];
  }

  /** A name is in the merged map exactly when some record carries it. */
  lemma {:induction false} MergedNames(records: seq<Instrument>, name: string)
    ensures name in Merged(records) <==> exists i :: 0 <= i < |records| && records[i].name == name
  {
    if |records| > 0 {
      var front := records[..|records| - 1];
      MergedNames(front, name);
      if exists i :: 0 <= i < |front| && front[i].name == name {
        var i :| 0 <= i < |front| && front[i].name == name;
        assert records[i].name == name;
      }
      if exists i :: 0 <= i < |records| && records[i].name == name {
        var i :| 0 <= i < |records| && records[i].name == name;
        if i < |front| {
          assert front[i].name == name;
        }
      }
    }
  }

  /**
   * The merged entry of a name is the first record with that name, apart from its
   * creation time.
   */
  lemma {:induction false} MergedKeepsFirst(records: seq<Instrument>, i: nat)
    requires i < |records|
    requires forall j :: 0 <= j < i ==> records[j].name != records[i].name
    ensures records[i].name in Merged(records)
    ensures Merged(records)[records[i].name] == records[i].(creation := Merged(records)[records[i].name].creation)
  {
    var name := records[i].name;
    var front := records[..|records| - 1];
    if i < |front| {
      MergedKeepsFirst(front, i);
    } else {
      MergedNames(front, name);
    }
  }

  /** The merged creation time of a name is the oldest among the records with that name. */
  lemma {:induction false} MergedCreationIsOldest(records: seq<Instrument>, name: string)
    requires name in Merged(records)
    ensures forall j :: 0 <= j < |records| && records[j].name == name ==>
      Merged(records)[name].creation <= records[j].creation
    ensures exists j :: 0 <= j < |records| && records[j].name == name && Merged(records)[name].creation == records[j].creation
  {
    var front := records[..|records| - 1];
    var last := records[|records| - 1];
    if name in Merged(front) {
      MergedCreationIsOldest(front, name);
      var j :| 0 <= j < |front| && front[j].name == name && Merged(front)[name].creation == front[j].creation;
      assert records[j] == front[j];
      if last.name == name && last.creation < Merged(front)[name].creation {
        assert records[|records| - 1] == last;
      }
      forall k | 0 <= k < |records| && records[k].name == name
        ensures Merged(records)[name].creation <= records[k].creation
      {
        if k < |front| {
          assert front[k] == records[k];
        }
      }
    } else {
      MergedNames(front, name);
    }
  }

  /** Every entry of the merged map is stored under its own name. */
  lemma {:induction false} MergedUnderOwnName(records: seq<Instrument>, name: string)
    requires name in Merged(records)
    ensures Merged(records)[name].name == name
  {
    var front := records[..|records| - 1];
    if name in Merged(front) {
      MergedUnderOwnName(front, name);
    }
  }

  // ---------------------------------------------------------------- probe order

  function CreationKey(inst: Instrument): real {
    inst.creation as real
  }

  /**
   * `into_values().collect()` then `sort_by_key(|inst| inst.creation)`: the instruments
   * of the map, each once, oldest first. The map's iteration order is unspecified, so the
   * values are taken out in an arbitrary order, which instruments created in the same
   * millisecond keep.
   */
  method ProbeOrder(instruments: map<string, Instrument>) returns (list: seq<Instrument>)
    ensures SortedBy(list, CreationKey)
    ensures |list| == |instruments|
    ensures forall x :: x in list <==> x in instruments.Values
  {
    var remaining := instruments.Keys;
    var values: seq<Instrument> := [];
    while remaining != {}
      invariant remaining <= instruments.Keys
      invariant |values| + |remaining| == |instruments.Keys|
      invariant forall x :: x in values ==> x in instruments.Values
      invariant forall k :: k in instruments.Keys - remaining ==> instruments[k] in values
      decreases |remaining|
    {
      var k :| k in remaining;
      values := values + [instruments[k]];
      remaining := remaining - {k};
    }
    list := SortByKey(values, CreationKey);
    assert forall x :: x in list <==> x in multiset(values);
  }

  // ---------------------------------------------------------------- fetch_oldest_trades

  /** The time and size of one request. */
  datatype RequestStats = RequestStats(totalElapsedSecs: real, bytes: nat)

  /** A trade as the trades request returns it; every field is optional. */
  datatype Trade = Trade(
    tradeId: Option<string>,
    direction: Option<string>,
    price: Option<real>,
    amount: Option<real>,
    timestamp: Option<U64>)

  /** One host's answer to a trades request (`TradeFetch`, its host being the one asked). */
  datatype TradeFetch = TradeFetch(trades: seq<Trade>, hasMore: Option<bool>, stats: RequestStats)

  /** `TradeSample`: what one successful trades request showed. */
  datatype TradeSample = TradeSample(
    instrument: string,
    host: string,
    trades: nat,
    hasMore: Option<bool>,
    stats: RequestStats)

  /** `fetchTrades(host, instrument)`. */
  type TradesApi = (string, string) -> Result<TradeFetch, string>

  predicate HostHasTrades(fetchTrades: TradesApi, host: string, name: string) {
    fetchTrades(host, name).Ok? && |fetchTrades(host, name).value.trades| > 0
  }

  /**
   * The hosts asked in order until one returns trades: the trades found, and a sample
   * for every host that answered up to that one.
   */
  function OldestTrades(hosts: seq<string>, name: string, fetchTrades: TradesApi): (r: (Option<seq<Trade>>, seq<TradeSample>))
    ensures |r.1| <= |hosts|
    ensures r.0.Some? ==> |r.0.value| > 0 && |r.1| > 0 && r.1[|r.1| - 1].trades == |r.0.value|
  {
    if |hosts| == 0 then (None, [])
    else
      match fetchTrades(hosts[0], name)
      case Err(_) => OldestTrades(hosts[1..], name, fetchTrades)
      case Ok(fetch) =>
        var sample := TradeSample(name, hosts[0], |fetch.trades|, fetch.hasMore, fetch.stats);
        if |fetch.trades| > 0 then (Some(fetch.trades), [sample])
        else
          var rest := OldestTrades(hosts[1..], name, fetchTrades);
          (rest.0, [sample] + rest.1)
  }

  /**
   * Every sample of the search is of the instrument searched for, and when nothing is
   * found every host that answered had no trades.
   */
  lemma {:induction false} OldestTradesSamples(hosts: seq<string>, name: string, fetchTrades: TradesApi)
    ensures forall s :: s in OldestTrades(hosts, name, fetchTrades).1 ==> s.instrument == name
    ensures OldestTrades(hosts, name, fetchTrades).0.None? ==>
      forall s :: s in OldestTrades(hosts, name, fetchTrades).1 ==> s.trades == 0
  {
    if |hosts| > 0 {
      OldestTradesSamples(hosts[1..], name, fetchTrades);
    }
  }

  /** One host of the search: its answer decides, or the search goes on with the next. */
  lemma OldestTradesStep(hosts: seq<string>, h: nat, name: string, fetchTrades: TradesApi)
    requires h < |hosts|
    ensures var answer := fetchTrades(hosts[h], name);
      var rest := OldestTrades(hosts[h + 1..], name, fetchTrades);
      var sample := if answer.Ok? then [TradeSample(name, hosts[h], |answer.value.trades|, answer.value.hasMore, answer.value.stats)] else [];
      OldestTrades(hosts[h..], name, fetchTrades) ==
        if answer.Ok? && |answer.value.trades| > 0 then (Some(answer.value.trades), sample) else (rest.0, sample + rest.1)
  {
    var tail := hosts[h..];
    assert tail[0] == hosts[h];
    assert tail[1..] == hosts[h + 1..];
    var answer := fetchTrades(hosts[h], name);
    var rest := OldestTrades(hosts[h + 1..], name, fetchTrades);
    if answer.Err? {
      assert OldestTrades(tail, name, fetchTrades) == rest;
      assert [] + rest.1 == rest.1;
    } else {
      var sample := TradeSample(name, hosts[h], |answer.value.trades|, answer.value.hasMore, answer.value.stats);
      if |answer.value.trades| > 0 {
        assert OldestTrades(tail, name, fetchTrades) == (Some(answer.value.trades), [sample]);
      } else {
        assert OldestTrades(tail, name, fetchTrades) == (rest.0, [sample] + rest.1);
      }
    }
  }

  /** Trades are found exactly when some host has trades for the instrument. */
  lemma {:induction false} OldestTradesFound(hosts: seq<string>, name: string, fetchTrades: TradesApi)
    ensures OldestTrades(hosts, name, fetchTrades).0.Some? <==>
      exists i :: 0 <= i < |hosts| && HostHasTrades(fetchTrades, hosts[i], name)
  {
    if |hosts| > 0 {
      OldestTradesFound(hosts[1..], name, fetchTrades);
      if exists i :: 0 <= i < |hosts| && HostHasTrades(fetchTrades, hosts[i], name) {
        var i :| 0 <= i < |hosts| && HostHasTrades(fetchTrades, hosts[i], name);
        if i > 0 {
          assert hosts[1..][i - 1] == hosts[i];
        }
      }
      if exists i :: 0 <= i < |hosts[1..]| && HostHasTrades(fetchTrades, hosts[1..][i], name) {
        var i :| 0 <= i < |hosts[1..]| && HostHasTrades(fetchTrades, hosts[1..][i], name);
        assert hosts[i + 1] == hosts[1..][i];
      }
    }
  }

  /** The trades found are those of the first host that has any. */
  lemma {:induction false} OldestTradesFromFirstHost(hosts: seq<string>, name: string, fetchTrades: TradesApi, i: nat)
    requires i < |hosts| && HostHasTrades(fetchTrades, hosts[i], name)
    requires forall j :: 0 <= j < i ==> !HostHasTrades(fetchTrades, hosts[j], name)
    ensures OldestTrades(hosts, name, fetchTrades).0 == Some(fetchTrades(hosts[i], name).value.trades)
  {
    if i > 0 {
      forall j | 0 <= j < i - 1
        ensures !HostHasTrades(fetchTrades, hosts[1..][j], name)
      {
        assert hosts[1..][j] == hosts[j + 1];
      }
      OldestTradesFromFirstHost(hosts[1..], name, fetchTrades, i - 1);
    }
  }

  /**
   * `fetch_oldest_trades`: the hosts in turn; every answer is pushed onto `samples`, and
   * the first non-empty trade list ends the search. A host that fails is skipped with a
   * warning, so the search itself never fails.
   */
  method FetchOldestTrades(hosts: seq<string>, fetchTrades: TradesApi, name: string, samples: seq<TradeSample>)
    returns (found: Option<seq<Trade>>, samplesAfter: seq<TradeSample>)
    ensures found == OldestTrades(hosts, name, fetchTrades).0
    ensures samplesAfter == samples + OldestTrades(hosts, name, fetchTrades).1
  {
    samplesAfter := samples;
    assert hosts[0..] == hosts;
    for h := 0 to |hosts|
      invariant OldestTrades(hosts, name, fetchTrades).0 == OldestTrades(hosts[h..], name, fetchTrades).0
      invariant samples + OldestTrades(hosts, name, fetchTrades).1 == samplesAfter + OldestTrades(hosts[h..], name, fetchTrades).1
    {
      OldestTradesStep(hosts, h, name, fetchTrades);
      ghost var rest := OldestTrades(hosts[h + 1..], name, fetchTrades).1;
      match fetchTrades(hosts[h], name) {
        case Ok(fetch) =>
          var sample := TradeSample(name, hosts[h], |fetch.trades|, fetch.hasMore, fetch.stats);
          if |fetch.trades| > 0 {
            samplesAfter := samplesAfter + [sample];
            found := Some(fetch.trades);
            return;
          }
          assert samplesAfter + ([sample] + rest) == (samplesAfter + [sample]) + rest;
          samplesAfter := samplesAfter + [sample];
        case Err(_) =>
      }
    }
    assert samplesAfter + [] == samplesAfter;
    found := None;
  }


  // ---------------------------------------------------------------- the probe loop of main

  /** Some host has trades for the instrument named `name`. */
  predicate HasTrades(hosts: seq<string>, fetchTrades: TradesApi, name: string) {
    exists i :: 0 <= i < |hosts| && HostHasTrades(fetchTrades, hosts[i], name)
  }

  /**
   * The instruments of `list` probed in order up to the first one some host has trades
   * for: that instrument with its trades, and the samples of every probe.
   */
  function Probe(hosts: seq<string>, list: seq<Instrument>, fetchTrades: TradesApi): (Option<(Instrument, seq<Trade>)>, seq<TradeSample>) {
    if |list| == 0 then (None, [])
    else
      var probe := OldestTrades(hosts, list[0].name, fetchTrades);
      if probe.0.Some? then (Some((list[0], probe.0.value)), probe.1)
      else
        var rest := Probe(hosts, list[1..], fetchTrades);
        (rest.0, probe.1 + rest.1)
  }

  /**
   * The probe finds an instrument exactly when some instrument of the list has trades,
   * and then it finds the first such instrument, with trades.
   */
  lemma {:induction false} ProbeFindsFirst(hosts: seq<string>, list: seq<Instrument>, fetchTrades: TradesApi)
    ensures Probe(hosts, list, fetchTrades).0.Some? <==> exists i :: 0 <= i < |list| && HasTrades(hosts, fetchTrades, list[i].name)
    ensures Probe(hosts, list, fetchTrades).0.Some? ==>
      |Probe(hosts, list, fetchTrades).0.value.1| > 0
      && (exists i :: 0 <= i < |list| && list[i] == Probe(hosts, list, fetchTrades).0.value.0
            && HasTrades(hosts, fetchTrades, list[i].name)
            && forall j :: 0 <= j < i ==> !HasTrades(hosts, fetchTrades, list[j].name))
  {
    if |list| > 0 {
      OldestTradesFound(hosts, list[0].name, fetchTrades);
      ProbeFindsFirst(hosts, list[1..], fetchTrades);
      if !HasTrades(hosts, fetchTrades, list[0].name) {
        if exists i :: 0 <= i < |list| && HasTrades(hosts, fetchTrades, list[i].name) {
          var i :| 0 <= i < |list| && HasTrades(hosts, fetchTrades, list[i].name);
          assert list[1..][i - 1] == list[i];
        }
        if Probe(hosts, list, fetchTrades).0.Some? {
          var i :| 0 <= i < |list[1..]| && list[1..][i] == Probe(hosts, list, fetchTrades).0.value.0
            && HasTrades(hosts, fetchTrades, list[1..][i].name)
            && forall j :: 0 <= j < i ==> !HasTrades(hosts, fetchTrades, list[1..][j].name);
          assert list[i + 1] == list[1..][i];
          forall j | 0 <= j < i + 1
            ensures !HasTrades(hosts, fetchTrades, list[j].name)
          {
            if j > 0 {
              assert list[j] == list[1..][j - 1];
            }
          }
        }
      }
    }
  }

  /** The trades the probe returns are those the search over the hosts found for that instrument. */
  lemma {:induction false} ProbeTrades(hosts: seq<string>, list: seq<Instrument>, fetchTrades: TradesApi)
    ensures Probe(hosts, list, fetchTrades).0.Some? ==>
      OldestTrades(hosts, Probe(hosts, list, fetchTrades).0.value.0.name, fetchTrades).0 == Some(Probe(hosts, list, fetchTrades).0.value.1)
  {
    if |list| > 0 && OldestTrades(hosts, list[0].name, fetchTrades).0.None? {
      ProbeTrades(hosts, list[1..], fetchTrades);
    }
  }

  /** `list` holds the instruments of `merged`, each once, oldest first: the order `ProbeOrder` yields. */
  ghost predicate ProbeOrderOf(list: seq<Instrument>, merged: map<string, Instrument>) {
    SortedBy(list, CreationKey) && |list| == |merged| && forall x :: x in list <==> x in merged.Values
  }

  /** Probed oldest first, the instrument found is the oldest one with trades. */
  lemma ProbeFindsOldest(hosts: seq<string>, list: seq<Instrument>, fetchTrades: TradesApi)
    requires SortedBy(list, CreationKey)
    ensures Probe(hosts, list, fetchTrades).0.Some? ==>
      forall x :: x in list && HasTrades(hosts, fetchTrades, x.name) ==> Probe(hosts, list, fetchTrades).0.value.0.creation <= x.creation
  {
    ProbeFindsFirst(hosts, list, fetchTrades);
    if Probe(hosts, list, fetchTrades).0.Some? {
      var found := Probe(hosts, list, fetchTrades).0.value.0;
      var i :| 0 <= i < |list| && list[i] == found && HasTrades(hosts, fetchTrades, list[i].name)
        && forall j :: 0 <= j < i ==> !HasTrades(hosts, fetchTrades, list[j].name);
      forall x | x in list && HasTrades(hosts, fetchTrades, x.name)
        ensures found.creation <= x.creation
      {
        var k :| 0 <= k < |list| && list[k] == x;
        assert CreationKey(list[i]) <= CreationKey(list[k]);
      }
    }
  }

  /** The probe loop of `main`: `fetch_oldest_trades` for each instrument in order. */
  method ProbeInstruments(hosts: seq<string>, fetchTrades: TradesApi, list: seq<Instrument>)
    returns (found: Option<(Instrument, seq<Trade>)>, samples: seq<TradeSample>)
    ensures found == Probe(hosts, list, fetchTrades).0
    ensures samples == Probe(hosts, list, fetchTrades).1
  {
    samples := [];
    assert list[0..] == list;
    for i := 0 to |list|
      invariant Probe(hosts, list, fetchTrades).0 == Probe(hosts, list[i..], fetchTrades).0
      invariant Probe(hosts, list, fetchTrades).1 == samples + Probe(hosts, list[i..], fetchTrades).1
    {
      ghost var before := samples;
      var trades;
      trades, samples := FetchOldestTrades(hosts, fetchTrades, list[i].name, samples);
      ProbeStep(hosts, list, i, fetchTrades, before);
      if trades.Some? {
        found := Some((list[i], trades.value));
        return;
      }
    }
    assert samples + [] == samples;
    found := None;
  }


  /**
   * One instrument of the probe, after the samples `before` of the earlier ones: trades
   * for it end the probe, or the probe goes on with the next instrument.
   */
  lemma ProbeStep(hosts: seq<string>, list: seq<Instrument>, i: nat, fetchTrades: TradesApi, before: seq<TradeSample>)
    requires i < |list|
    ensures var probe := OldestTrades(hosts, list[i].name, fetchTrades);
      var here := Probe(hosts, list[i..], fetchTrades);
      var rest := Probe(hosts, list[i + 1..], fetchTrades);
      && (probe.0.Some? ==> here == (Some((list[i], probe.0.value)), probe.1))
      && (probe.0.None? ==> here.0 == rest.0 && before + here.1 == (before + probe.1) + rest.1)
  {
    var tail := list[i..];
    assert tail[0] == list[i];
    assert tail[1..] == list[i + 1..];
    var probe := OldestTrades(hosts, list[i].name, fetchTrades);
    var rest := Probe(hosts, list[i + 1..], fetchTrades);
    assert before + (probe.1 + rest.1) == (before + probe.1) + rest.1;
  }



  /** How `main` ends: no instruments at all, the oldest with trades, or none with trades. */
  datatype Outcome =
    | NoInstruments
    | Found(instrument: Instrument, trades: seq<Trade>, totalInstruments: nat, samples: seq<TradeSample>)
    | NotFound(totalInstruments: nat, samples: seq<TradeSample>)

  /**
   * `main`: the merged instruments probed oldest first. It fails when no host lists an
   * instrument; otherwise it reports the oldest instrument some host has trades for, or
   * that there is none, together with the instrument count and the samples the
   * download estimate is made from.
   */
  method FindOldestWithTrades(fetchInstruments: InstrumentsApi, fetchTrades: TradesApi) returns (outcome: Outcome)
    ensures outcome.NoInstruments? <==> Answered(API_HOSTS, fetchInstruments) == []
    ensures !outcome.NoInstruments? ==> outcome.totalInstruments == |Merged(Answered(API_HOSTS, fetchInstruments))|
    ensures outcome.Found? ==>
      var merged := Merged(Answered(API_HOSTS, fetchInstruments));
      && outcome.instrument in merged.Values
      && HasTrades(API_HOSTS, fetchTrades, outcome.instrument.name)
      && |outcome.trades| > 0
      && forall x :: x in merged.Values && HasTrades(API_HOSTS, fetchTrades, x.name) ==> outcome.instrument.creation <= x.creation
    ensures outcome.NotFound? ==>
      forall x :: x in Merged(Answered(API_HOSTS, fetchInstruments)).Values ==> !HasTrades(API_HOSTS, fetchTrades, x.name)
    ensures outcome.Found? ==> OldestTrades(API_HOSTS, outcome.instrument.name, fetchTrades).0 == Some(outcome.trades)
    ensures !outcome.NoInstruments? ==>
      exists list :: ProbeOrderOf(list, Merged(Answered(API_HOSTS, fetchInstruments)))
        && outcome.samples == Probe(API_HOSTS, list, fetchTrades).1
        && (outcome.Found? <==> Probe(API_HOSTS, list, fetchTrades).0.Some?)
        && (outcome.Found? ==> Probe(API_HOSTS, list, fetchTrades).0 == Some((outcome.instrument, outcome.trades)))
  {
    var instruments := FetchAllInstruments(API_HOSTS, fetchInstruments);
    var list := ProbeOrder(instruments);
    NoInstrumentsIffNoRecords(Answered(API_HOSTS, fetchInstruments));
    if |list| == 0 {
      return NoInstruments;
    }
    var found, samples := ProbeInstruments(API_HOSTS, fetchTrades, list);
    ProbeFindsFirst(API_HOSTS, list, fetchTrades);
    ProbeFindsOldest(API_HOSTS, list, fetchTrades);
    ProbeTrades(API_HOSTS, list, fetchTrades);
    assert ProbeOrderOf(list, Merged(Answered(API_HOSTS, fetchInstruments)));
    if found.Some? {
      outcome := Found(found.value.0, found.value.1, |list|, samples);
    } else {
      outcome := NotFound(|list|, samples);
    }
  }

  /** The merged map is empty exactly when no host listed an instrument. */
  lemma NoInstrumentsIffNoRecords(records: seq<Instrument>)
    ensures |Merged(records)| == 0 <==> records == []
  {
    if records != [] {
      MergedNames(records, records[0].name);
      assert records[0].name in Merged(records).Keys;
    }
  }

  // ---------------------------------------------------------------- estimate_download_requirements

  /** The samples of one instrument, in the order they were taken (`per_instrument[name]`). */
  function SamplesFor(samples: seq<TradeSample>, name: string): seq<TradeSample> {
    if |samples| == 0 then []
    else
      var last := samples[|samples| - 1];
      SamplesFor(samples[..|samples| - 1], name) + (if last.instrument == name then [last] else [])
  }

  /** An instrument's list holds exactly the samples of that instrument. */
  lemma {:induction false} SamplesForMember(samples: seq<TradeSample>, name: string, s: TradeSample)
    ensures s in SamplesFor(samples, name) <==> s in samples && s.instrument == name
  {
    if |samples| > 0 {
      var prefix := samples[..|samples| - 1];
      var last := samples[|samples| - 1];
      SamplesForMember(prefix, name, s);
      assert samples == prefix + [last];
    }
  }

  lemma SamplesForSnoc(prefix: seq<TradeSample>, sample: TradeSample, name: string)
    ensures sample.instrument == name ==> SamplesFor(prefix + [sample], name) == SamplesFor(prefix, name) + [sample]
    ensures sample.instrument != name ==> SamplesFor(prefix + [sample], name) == SamplesFor(prefix, name)
  {
    assert (prefix + [sample])[..|prefix|] == prefix;
    assert SamplesFor(prefix, name) + [] == SamplesFor(prefix, name);
  }

  /** The instruments the samples are of. */
  function InstrumentsOf(samples: seq<TradeSample>): set<string> {
    set s | s in samples :: s.instrument
  }

  lemma InstrumentsOfSnoc(prefix: seq<TradeSample>, sample: TradeSample)
    ensures InstrumentsOf(prefix + [sample]) == InstrumentsOf(prefix) + {sample.instrument}
  {
    assert forall s :: s in prefix + [sample] <==> s in prefix || s == sample;
  }

  /** An instrument that was sampled has samples, and one that was not has none. */
  lemma SamplesForEmpty(samples: seq<TradeSample>, name: string)
    ensures SamplesFor(samples, name) == [] <==> name !in InstrumentsOf(samples)
  {
    var r := SamplesFor(samples, name);
    if |r| > 0 {
      assert r[0] in r;
      SamplesForMember(samples, name, r[0]);
    }
    if name in InstrumentsOf(samples) {
      var s :| s in samples && s.instrument == name;
      SamplesForMember(samples, name, s);
    }
  }

  /** The instruments some sample found trades for. */
  function PositiveInstruments(samples: seq<TradeSample>): set<string> {
    set s | s in samples && s.trades > 0 :: s.instrument
  }

  /** `entries.iter().find(|s| s.trades > 0)`. */
  function FirstPositive(entries: seq<TradeSample>): (r: Option<TradeSample>)
    ensures r.Some? ==> r.value in entries && r.value.trades > 0
    ensures r.None? ==> forall s :: s in entries ==> s.trades == 0
  {
    if |entries| == 0 then None
    else if entries[0].trades > 0 then Some(entries[0])
    else FirstPositive(entries[1..])
  }

  /** `(trades, has_more.unwrap_or(false), stats, host)` of the sample chosen for an instrument. */
  datatype Aggregate = Aggregate(trades: nat, hasMore: bool, stats: RequestStats, host: string)

  function AggregateOf(sample: TradeSample): Aggregate {
    Aggregate(sample.trades, sample.hasMore.GetOr(false), sample.stats, sample.host)
  }

  /**
   * The aggregate of one instrument: its first sample with trades, else its first sample
   * (`find(|s| s.trades > 0).unwrap_or(entries[0])`); an instrument never sampled has an
   * empty aggregate.
   */
  function AggregateFor(samples: seq<TradeSample>, name: string): Aggregate {
    var entries := SamplesFor(samples, name);
    var first := FirstPositive(entries);
    if first.Some? then AggregateOf(first.value)
    else if |entries| > 0 then AggregateOf(entries[0])
    else Aggregate(0, false, RequestStats(0.0, 0), "")
  }

  /** The filters the estimate counts aggregates by. */
  datatype Criterion = WithTrades | WithMorePages | FromHost(host: string)

  predicate Meets(a: Aggregate, c: Criterion) {
    match c
    case WithTrades => a.trades > 0
    case WithMorePages => a.trades > 0 && a.hasMore
    case FromHost(host) => a.host == host
  }

  /** The sampled instruments whose aggregate meets `c`. */
  function InstrumentsMeeting(samples: seq<TradeSample>, c: Criterion): set<string> {
    set n | n in InstrumentsOf(samples) && Meets(AggregateFor(samples, n), c)
  }

  /** The instruments whose chosen sample has trades and says there are more. */
  function HasMoreInstruments(samples: seq<TradeSample>): set<string> {
    InstrumentsMeeting(samples, WithMorePages)
  }

  /** The number of instruments whose chosen sample came from `host`. */
  function HostShare(samples: seq<TradeSample>, host: string): nat {
    |InstrumentsMeeting(samples, FromHost(host))|
  }

  /** An instrument's aggregate has trades exactly when one of its samples has. */
  lemma AggregatePositive(samples: seq<TradeSample>, name: string)
    ensures AggregateFor(samples, name).trades > 0 <==> name in PositiveInstruments(samples)
  {
    var entries := SamplesFor(samples, name);
    var first := FirstPositive(entries);
    if first.Some? {
      SamplesForMember(samples, name, first.value);
    } else if |entries| > 0 {
      assert entries[0] in entries;
    }
    if name in PositiveInstruments(samples) {
      var s :| s in samples && s.trades > 0 && s.instrument == name;
      SamplesForMember(samples, name, s);
    }
  }

  /**
   * The positive instruments are those some sample found trades for, and the others
   * (`zero_count`) are the rest of the distinct instruments sampled.
   */
  lemma PositiveAndZeroCounts(samples: seq<TradeSample>)
    ensures PositiveInstruments(samples) == InstrumentsMeeting(samples, WithTrades)
    ensures PositiveInstruments(samples) <= InstrumentsOf(samples)
    ensures |InstrumentsOf(samples) - PositiveInstruments(samples)|
      == |InstrumentsOf(samples)| - |PositiveInstruments(samples)|
  {
    var all := InstrumentsOf(samples);
    forall n | n in all
      ensures n in InstrumentsMeeting(samples, WithTrades) <==> n in PositiveInstruments(samples)
    {
      AggregatePositive(samples, n);
    }
    assert PositiveInstruments(samples) <= all;
  }

  /** `iter().filter(..).count()`. */
  function CountWhere(aggregates: seq<Aggregate>, c: Criterion): (n: nat)
    ensures n <= |aggregates|
  {
    if |aggregates| == 0 then 0
    else CountWhere(aggregates[..|aggregates| - 1], c) + (if Meets(aggregates[|aggregates| - 1], c) then 1 else 0)
  }

  lemma CountWhereSnoc(aggregates: seq<Aggregate>, a: Aggregate, c: Criterion)
    ensures CountWhere(aggregates + [a], c) == CountWhere(aggregates, c) + (if Meets(a, c) then 1 else 0)
  {
    assert (aggregates + [a])[..|aggregates|] == aggregates;
  }

  /** The names of `order` each once. */
  predicate Distinct(order: seq<string>) {
    forall i, j :: 0 <= i < j < |order| ==> order[i] != order[j]
  }

  /** The names of `order` whose aggregate meets `c`. */
  function Matching(samples: seq<TradeSample>, order: seq<string>, c: Criterion): set<string> {
    set n | n in order && Meets(AggregateFor(samples, n), c)
  }

  lemma MatchingSnoc(samples: seq<TradeSample>, order: seq<string>, name: string, c: Criterion)
    ensures Matching(samples, order + [name], c)
      == Matching(samples, order, c) + (if Meets(AggregateFor(samples, name), c) then {name} else {})
  {
    assert forall n :: n in order + [name] <==> n in order || n == name;
  }

  /**
   * Aggregates taken once per name of `order`, in that order, count the names whose
   * aggregate meets the filter.
   */
  lemma {:induction false} CountOverOrder(samples: seq<TradeSample>, order: seq<string>, aggregates: seq<Aggregate>, c: Criterion)
    requires Distinct(order) && |aggregates| == |order|
    requires forall j :: 0 <= j < |order| ==> aggregates[j] == AggregateFor(samples, order[j])
    ensures CountWhere(aggregates, c) == |Matching(samples, order, c)|
  {
    if |order| > 0 {
      var last := |order| - 1;
      var front := order[..last];
      assert order == front + [order[last]];
      assert aggregates == aggregates[..last] + [aggregates[last]];
      CountOverOrder(samples, front, aggregates[..last], c);
      MatchingSnoc(samples, front, order[last], c);
      CountWhereSnoc(aggregates[..last], aggregates[last], c);
      assert order[last] !in front;
    }
  }

  /**
   * Aggregates taken once per sampled instrument, in any order, count the instruments
   * whose aggregate meets the filter: the count does not depend on the map's order.
   */
  lemma CountOverInstruments(samples: seq<TradeSample>, order: seq<string>, aggregates: seq<Aggregate>, c: Criterion)
    requires Distinct(order) && |aggregates| == |order|
    requires forall n :: n in order <==> n in InstrumentsOf(samples)
    requires forall j :: 0 <= j < |order| ==> aggregates[j] == AggregateFor(samples, order[j])
    ensures CountWhere(aggregates, c) == |InstrumentsMeeting(samples, c)|
  {
    CountOverOrder(samples, order, aggregates, c);
    assert Matching(samples, order, c) == InstrumentsMeeting(samples, c);
  }

  /** `EstimationSummary`, without the time and byte estimates. */
  datatype EstimationSummary = EstimationSummary(
    totalRequests: real,
    positiveRatio: real,
    hasMoreRatio: real,
    sampleSize: nat,
    dominantHost: Option<string>)

  /**
   * `estimate_download_requirements`: nothing without instruments, samples or an
   * instrument with trades. Otherwise each distinct sampled instrument counts once, by
   * its chosen sample: the share of instruments with trades, the share of those that
   * needed more pages, the request count that extrapolates to every instrument, and a
   * host that most chosen samples came from.
   */
  method EstimateDownloadRequirements(totalInstruments: nat, samples: seq<TradeSample>) returns (r: Option<EstimationSummary>)
    ensures r.None? <==> totalInstruments == 0 || |samples| == 0 || PositiveInstruments(samples) == {}
    ensures r.Some? ==> r.value.sampleSize == |InstrumentsOf(samples)|
    ensures r.Some? ==> r.value.positiveRatio == |PositiveInstruments(samples)| as real / |InstrumentsOf(samples)| as real
    ensures r.Some? ==> r.value.hasMoreRatio == |HasMoreInstruments(samples)| as real / |PositiveInstruments(samples)| as real
    ensures r.Some? ==> Extrapolates(totalInstruments, r.value)
    ensures r.Some? ==> r.value.dominantHost.Some?
    ensures r.Some? && r.value.dominantHost.Some? ==>
      forall host :: HostShare(samples, host) <= HostShare(samples, r.value.dominantHost.value)
  {
    if totalInstruments == 0 || |samples| == 0 {
      return None;
    }

    var perInstrument := GroupByInstrument(samples);
    var aggregates, order := AggregatePerInstrument(samples, perInstrument);
    if |aggregates| == 0 {
      PositiveAndZeroCounts(samples);
      return None;
    }

    var sampleSize := |aggregates|;
    var positiveCount := CountWhere(aggregates, WithTrades);
    CountOverInstruments(samples, order, aggregates, WithTrades);
    PositiveAndZeroCounts(samples);
    if positiveCount == 0 {
      return None;
    }

    var hasMoreCount := CountWhere(aggregates, WithMorePages);
    CountOverInstruments(samples, order, aggregates, WithMorePages);
    var dominantHost := DominantHost(samples, order, aggregates);
    r := Some(Summarize(totalInstruments, sampleSize, positiveCount, hasMoreCount, dominantHost));
  }

  /** Every instrument is asked once, and the share with more pages once more. */
  predicate Extrapolates(totalInstruments: nat, summary: EstimationSummary) {
    summary.totalRequests == totalInstruments as real * (1.0 + summary.positiveRatio * summary.hasMoreRatio)
  }

  /**
   * The closing arithmetic of the estimate: the two shares, and the instruments plus the
   * extra page requests the instruments with trades are expected to need.
   */
  function Summarize(totalInstruments: nat, sampleSize: nat, positiveCount: nat, hasMoreCount: nat, dominantHost: Option<string>): (s: EstimationSummary)
    requires 0 < positiveCount <= sampleSize
    ensures s.sampleSize == sampleSize && s.dominantHost == dominantHost
    ensures s.positiveRatio == positiveCount as real / sampleSize as real
    ensures s.hasMoreRatio == hasMoreCount as real / positiveCount as real
    ensures Extrapolates(totalInstruments, s)
  {
    var hasMoreRatio := if positiveCount > 0 then hasMoreCount as real / positiveCount as real else 0.0;
    var total := totalInstruments as real;
    var positiveRatio := positiveCount as real / sampleSize as real;
    var basePositiveRequests := positiveRatio * total;
    var additionalRequests := basePositiveRequests * hasMoreRatio;
    Extrapolated(total, positiveRatio, hasMoreRatio);
    EstimationSummary(total + additionalRequests, positiveRatio, hasMoreRatio, sampleSize, dominantHost)
  }

  /** `per_instrument` once the grouping loop has pushed every sample of `samples`. */
  predicate Grouped(samples: seq<TradeSample>, perInstrument: map<string, seq<TradeSample>>) {
    perInstrument.Keys == InstrumentsOf(samples)
    && forall n :: n in perInstrument ==> perInstrument[n] == SamplesFor(samples, n)
  }

  /** Pushing a sample onto the list of an instrument already seen keeps the grouping. */
  lemma GroupPush(prefix: seq<TradeSample>, sample: TradeSample, perInstrument: map<string, seq<TradeSample>>)
    requires Grouped(prefix, perInstrument) && sample.instrument in perInstrument
    ensures Grouped(prefix + [sample], perInstrument[sample.instrument := perInstrument[sample.instrument] + [sample]])
  {
    InstrumentsOfSnoc(prefix, sample);
    forall n | n in perInstrument
      ensures SamplesFor(prefix + [sample], n) == SamplesFor(prefix, n) + (if sample.instrument == n then [sample] else [])
    {
      SamplesForSnoc(prefix, sample, n);
    }
  }

  /** Starting the list of an instrument not seen before keeps the grouping. */
  lemma GroupInsert(prefix: seq<TradeSample>, sample: TradeSample, perInstrument: map<string, seq<TradeSample>>)
    requires Grouped(prefix, perInstrument) && sample.instrument !in perInstrument
    ensures Grouped(prefix + [sample], perInstrument[sample.instrument := [sample]])
  {
    InstrumentsOfSnoc(prefix, sample);
    InsertedLists(prefix, sample, perInstrument);
  }

  lemma InsertedLists(prefix: seq<TradeSample>, sample: TradeSample, perInstrument: map<string, seq<TradeSample>>)
    requires sample.instrument !in InstrumentsOf(prefix)
    requires forall n :: n in perInstrument ==> perInstrument[n] == SamplesFor(prefix, n)
    ensures forall n :: n in perInstrument[sample.instrument := [sample]] ==>
      perInstrument[sample.instrument := [sample]][n] == SamplesFor(prefix + [sample], n)
  {
    SamplesForEmpty(prefix, sample.instrument);
    SamplesForSnoc(prefix, sample, sample.instrument);
    assert [] + [sample] == [sample];
    forall n | n in perInstrument && n != sample.instrument
      ensures perInstrument[n] == SamplesFor(prefix + [sample], n)
    {
      SamplesForSnoc(prefix, sample, n);
    }
  }

  /** The grouping loop: `per_instrument.entry(sample.instrument).or_default().push(sample)`. */
  method GroupByInstrument(samples: seq<TradeSample>) returns (perInstrument: map<string, seq<TradeSample>>)
    ensures perInstrument.Keys == InstrumentsOf(samples)
    ensures forall n :: n in perInstrument ==> perInstrument[n] == SamplesFor(samples, n)
  {
    perInstrument := map[];
    for i := 0 to |samples|
      invariant Grouped(samples[..i], perInstrument)
    {
      var sample := samples[i];
      assert samples[..i + 1] == samples[..i] + [sample];
      if sample.instrument in perInstrument {
        GroupPush(samples[..i], sample, perInstrument);
        perInstrument := perInstrument[sample.instrument := perInstrument[sample.instrument] + [sample]];
      } else {
        GroupInsert(samples[..i], sample, perInstrument);
        perInstrument := perInstrument[sample.instrument := [sample]];
      }
    }
    assert samples[..|samples|] == samples;
  }

  /** A `HashMap`'s keys in its unspecified iteration order: each key once. */
  method KeysOf<V>(m: map<string, V>) returns (keys: seq<string>)
    ensures Distinct(keys) && |keys| == |m.Keys|
    ensures forall n :: n in keys <==> n in m
  {
    var remaining := m.Keys;
    keys := [];
    while remaining != {}
      invariant remaining <= m.Keys
      invariant forall n :: n in keys <==> n in m && n !in remaining
      invariant Distinct(keys) && |keys| + |remaining| == |m.Keys|
      decreases |remaining|
    {
      var name :| name in remaining;
      keys := keys + [name];
      remaining := remaining - {name};
    }
  }

  /**
   * An instrument of the grouping has a non-empty list, and the sample the loop chooses
   * from it gives the instrument's aggregate.
   */
  lemma ChosenAggregate(samples: seq<TradeSample>, perInstrument: map<string, seq<TradeSample>>, name: string)
    requires Grouped(samples, perInstrument) && name in perInstrument
    ensures |perInstrument[name]| > 0
    ensures AggregateOf(FirstPositive(perInstrument[name]).GetOr(perInstrument[name][0])) == AggregateFor(samples, name)
  {
    SamplesForEmpty(samples, name);
  }

  /**
   * The loop over `per_instrument`: one aggregate per instrument, in the map's
   * unspecified iteration order (`order`).
   */
  method AggregatePerInstrument(samples: seq<TradeSample>, perInstrument: map<string, seq<TradeSample>>)
    returns (aggregates: seq<Aggregate>, order: seq<string>)
    requires Grouped(samples, perInstrument)
    ensures Distinct(order) && |aggregates| == |order| == |InstrumentsOf(samples)|
    ensures forall n :: n in order <==> n in InstrumentsOf(samples)
    ensures forall j :: 0 <= j < |order| ==> aggregates[j] == AggregateFor(samples, order[j])
  {
    order := KeysOf(perInstrument);
    aggregates := [];
    for i := 0 to |order|
      invariant |aggregates| == i
      invariant forall j :: 0 <= j < i ==> aggregates[j] == AggregateFor(samples, order[j])
    {
      var entries := perInstrument[order[i]];
      ChosenAggregate(samples, perInstrument, order[i]);
      var chosen := FirstPositive(entries).GetOr(entries[0]);
      var a := AggregateOf(chosen);
      assert a == AggregateFor(samples, order[i]);
      aggregates := aggregates + [a];
    }
  }

  /** `host_counts`: how many aggregates came from each host. */
  ghost predicate Counted(aggregates: seq<Aggregate>, hostCounts: map<string, nat>) {
    forall h :: CountWhere(aggregates, FromHost(h)) == if h in hostCounts then hostCounts[h] else 0
  }

  lemma CountStep(aggregates: seq<Aggregate>, a: Aggregate, hostCounts: map<string, nat>)
    requires Counted(aggregates, hostCounts)
    ensures a.host in hostCounts ==> Counted(aggregates + [a], hostCounts[a.host := hostCounts[a.host] + 1])
    ensures a.host !in hostCounts ==> Counted(aggregates + [a], hostCounts[a.host := 1])
  {
    forall h
      ensures CountWhere(aggregates + [a], FromHost(h)) == CountWhere(aggregates, FromHost(h)) + (if a.host == h then 1 else 0)
    {
      CountWhereSnoc(aggregates, a, FromHost(h));
    }
  }

  /** The counting loop: `*host_counts.entry(host).or_default() += 1`. */
  method CountHosts(aggregates: seq<Aggregate>) returns (hostCounts: map<string, nat>)
    ensures forall h :: CountWhere(aggregates, FromHost(h)) == if h in hostCounts then hostCounts[h] else 0
    ensures |aggregates| > 0 <==> hostCounts != map[]
  {
    hostCounts := map[];
    for i := 0 to |aggregates|
      invariant Counted(aggregates[..i], hostCounts)
      invariant i > 0 ==> aggregates[0].host in hostCounts
      invariant i == 0 ==> hostCounts == map[]
    {
      var host := aggregates[i].host;
      assert aggregates[..i + 1] == aggregates[..i] + [aggregates[i]];
      CountStep(aggregates[..i], aggregates[i], hostCounts);
      if host in hostCounts {
        hostCounts := hostCounts[host := hostCounts[host] + 1];
      } else {
        hostCounts := hostCounts[host := 1];
      }
    }
    assert aggregates[..|aggregates|] == aggregates;
  }

  /**
   * `max_by_key(|(_, count)| *count)`: a host of largest count. The map is walked in an
   * unspecified order and a later host with the same count replaces the earlier one, so
   * any host of largest count may be the one chosen.
   */
  method MaxByCount(hostCounts: map<string, nat>) returns (dominant: Option<string>)
    ensures dominant.Some? <==> hostCounts != map[]
    ensures dominant.Some? ==> dominant.value in hostCounts
    ensures dominant.Some? && dominant.value in hostCounts ==>
      forall h :: h in hostCounts ==> hostCounts[h] <= hostCounts[dominant.value]
  {
    var hostsLeft := hostCounts.Keys;
    var best: nat := 0;
    dominant := None;
    while hostsLeft != {}
      invariant hostsLeft <= hostCounts.Keys
      invariant dominant.Some? ==> dominant.value in hostCounts && hostCounts[dominant.value] == best
      invariant dominant.None? ==> hostsLeft == hostCounts.Keys
      invariant forall h :: h in hostCounts.Keys - hostsLeft ==> hostCounts[h] <= best
      decreases |hostsLeft|
    {
      var h :| h in hostsLeft;
      if dominant.None? || hostCounts[h] >= best {
        dominant, best := Some(h), hostCounts[h];
      }
      hostsLeft := hostsLeft - {h};
    }
    if dominant.None? {
      assert hostCounts.Keys == {};
    }
  }

  /** The dominant host: a host that most sampled instruments were chosen from. */
  method DominantHost(samples: seq<TradeSample>, ghost order: seq<string>, aggregates: seq<Aggregate>) returns (dominant: Option<string>)
    requires Distinct(order) && |aggregates| == |order|
    requires forall n :: n in order <==> n in InstrumentsOf(samples)
    requires forall j :: 0 <= j < |order| ==> aggregates[j] == AggregateFor(samples, order[j])
    ensures dominant.Some? <==> |aggregates| > 0
    ensures dominant.Some? ==> forall host :: HostShare(samples, host) <= HostShare(samples, dominant.value)
  {
    var hostCounts := CountHosts(aggregates);
    dominant := MaxByCount(hostCounts);
    if dominant.Some? {
      forall host
        ensures HostShare(samples, host) <= HostShare(samples, dominant.value)
      {
        CountOverInstruments(samples, order, aggregates, FromHost(host));
        CountOverInstruments(samples, order, aggregates, FromHost(dominant.value));
      }
    }
  }

  /** Every instrument with more pages has trades, and every one with trades was sampled. */
  lemma EstimateCounts(samples: seq<TradeSample>)
    ensures |HasMoreInstruments(samples)| <= |PositiveInstruments(samples)| <= |InstrumentsOf(samples)|
  {
    PositiveAndZeroCounts(samples);
    SubsetCard(HasMoreInstruments(samples), PositiveInstruments(samples));
    SubsetCard(PositiveInstruments(samples), InstrumentsOf(samples));
  }

  /**
   * The estimate stays between one request per instrument and two: the shares are
   * fractions, so at most every instrument needs one more page.
   */
  lemma EstimateBounds(totalInstruments: nat, samples: seq<TradeSample>, summary: EstimationSummary)
    requires PositiveInstruments(samples) != {}
    requires summary.positiveRatio == |PositiveInstruments(samples)| as real / |InstrumentsOf(samples)| as real
    requires summary.hasMoreRatio == |HasMoreInstruments(samples)| as real / |PositiveInstruments(samples)| as real
    requires Extrapolates(totalInstruments, summary)
    ensures 0.0 < summary.positiveRatio <= 1.0
    ensures 0.0 <= summary.hasMoreRatio <= 1.0
    ensures totalInstruments as real <= summary.totalRequests <= 2.0 * totalInstruments as real
  {
    EstimateCounts(samples);
    FractionAtMostOne(|PositiveInstruments(samples)|, |InstrumentsOf(samples)|);
    FractionAtMostOne(|HasMoreInstruments(samples)|, |PositiveInstruments(samples)|);
    ProductOfFractions(summary.positiveRatio, summary.hasMoreRatio);
    ScaledByOneToTwo(totalInstruments as real, summary.positiveRatio * summary.hasMoreRatio);
  }

  /** `total + positive_ratio * total * has_more_ratio`, factored. */
  lemma Extrapolated(total: real, positiveRatio: real, hasMoreRatio: real)
    ensures total + positiveRatio * total * hasMoreRatio == total * (1.0 + positiveRatio * hasMoreRatio)
  {
    assert positiveRatio * total * hasMoreRatio == total * (positiveRatio * hasMoreRatio);
  }

  lemma FractionAtMostOne(part: nat, whole: nat)
    requires 0 < whole && part <= whole
    ensures 0.0 <= part as real / whole as real <= 1.0
    ensures 0 < part ==> 0.0 < part as real / whole as real
  {
  }

  lemma ProductOfFractions(x: real, y: real)
    requires 0.0 <= x <= 1.0 && 0.0 <= y <= 1.0
    ensures 0.0 <= x * y <= 1.0
  {
    assert 0.0 <= x * y by { MulNonNegative(x, y); }
    assert x * y <= x by { MulNonNegative(x, 1.0 - y); }
  }

  lemma ScaledByOneToTwo(t: real, q: real)
    requires 0.0 <= t && 0.0 <= q <= 1.0
    ensures t <= t * (1.0 + q) <= 2.0 * t
  {
    assert t * (1.0 + q) == t + t * q;
    MulNonNegative(t, q);
    MulNonNegative(t, 1.0 - q);
  }

  lemma MulNonNegative(a: real, b: real)
    requires 0.0 <= a && 0.0 <= b
    ensures 0.0 <= a * b
  {
  }

  // ---------------------------------------------------------------- format_timestamp

  /**
   * The whole seconds and the nanoseconds of a millisecond timestamp
   * (`ms / 1000` and `(ms % 1000) * 1_000_000`); neither cast to `i64`/`u32` wraps, and
   * together they name the same instant.
   */
  function TimestampParts(ms: U64): (parts: (int, int))
    ensures 0 <= parts.0 <= I64_MAX && 0 <= parts.1 <= U32_MAX
    ensures parts.1 < 1_000_000_000 && parts.1 % 1_000_000 == 0
    ensures parts.0 * 1000 + parts.1 / 1_000_000 == ms
  {
    (ms / 1000, (ms % 1000) * 1_000_000)
  }

  /**
   * `format_timestamp`: the RFC 3339 rendering of the instant `TimestampParts` names when
   * chrono can represent its date, otherwise the milliseconds in decimal.
   */
  function FormatTimestamp(ms: U64): (r: string)
    ensures ValidDate(DateOfMs(ms)) ==> r == Rfc3339(ms)
    ensures !ValidDate(DateOfMs(ms)) ==> AllDigits(r) && ParseDigits(r) == ms
  {
    var instant := TimestampInstant(ms);
    if ValidDate(DateOfMs(instant)) then Rfc3339(instant)
    else
      ParseNatToString(ms);
      NatToString(ms)
  }

  /** The instant `Utc.timestamp_opt` builds from the two parts: the timestamp itself. */
  function TimestampInstant(ms: U64): (instant: int)
    ensures instant == ms
  {
    var parts := TimestampParts(ms);
    parts.0 * 1000 + parts.1 / 1_000_000
  }

  // ---------------------------------------------------------------- format_duration

  /** `{:.1}` of a non-negative number: tenths, rounded half up, written "I.F". */
  function TenthsText(x: real): string
    requires x >= 0.0
  {
    var t: nat := StoreNormalize.RoundHalfAway(x * 10.0);
    NatToString(t / 10) + "." + [DigitChar(t % 10)]
  }

  /**
   * `format_duration`: negative durations count as zero; under a minute the seconds with
   * one decimal, otherwise the seconds rounded (and saturated to `u64`) and split into
   * "{h}h {m}m {s}s", or "{m}m {s}s" below an hour.
   */
  function FormatDuration(seconds: real): (r: string)
    ensures |r| >= 2 && r[|r| - 1] == 's'
  {
    var s := if seconds > 0.0 then seconds else 0.0;
    if s < 60.0 then TenthsText(s) + "s"
    else
      var hms := HoursMinutesSeconds(StoreRetrieve.SaturateU64(StoreNormalize.RoundHalfAway(s)));
      DurationText(hms.0, hms.1, hms.2)
  }

  /** A number followed by its unit letter, such as "12m". */
  function UnitText(n: nat, unit: char): string {
    NatToString(n) + [unit]
  }

  /** "{h}h {m}m {s}s", or "{m}m {s}s" when there are no hours. */
  function DurationText(hours: nat, minutes: nat, secs: nat): string {
    var tail := UnitText(minutes, 'm') + [' '] + UnitText(secs, 's');
    if hours > 0 then UnitText(hours, 'h') + [' '] + tail else tail
  }

  /** Reads a number followed by its unit letter. */
  function UnitValue(piece: string, unit: char): Option<nat> {
    if |piece| >= 2 && piece[|piece| - 1] == unit && AllDigits(piece[..|piece| - 1])
    then Some(ParseDigits(piece[..|piece| - 1]))
    else None
  }

  /** Reads "{h}h {m}m {s}s" or "{m}m {s}s" back as a number of seconds. */
  function ParseHms(text: string): Option<nat> {
    var pieces := SplitOn(text, ' ');
    if |pieces| == 3 then
      var h := UnitValue(pieces[0], 'h');
      var m := UnitValue(pieces[1], 'm');
      var s := UnitValue(pieces[2], 's');
      if h.Some? && m.Some? && s.Some? then Some(h.value * 3600 + m.value * 60 + s.value) else None
    else if |pieces| == 2 then
      var m := UnitValue(pieces[0], 'm');
      var s := UnitValue(pieces[1], 's');
      if m.Some? && s.Some? then Some(m.value * 60 + s.value) else None
    else None
  }

  lemma UnitValueOf(n: nat, unit: char)
    requires !IsDigit(unit)
    ensures UnitValue(UnitText(n, unit), unit) == Some(n)
  {
    var piece := UnitText(n, unit);
    assert piece[..|piece| - 1] == NatToString(n);
    ParseNatToString(n);
  }

  /** A number's digits and its unit hold no space. */
  lemma NoSpaceInUnitText(n: nat, unit: char)
    requires unit != ' '
    ensures ' ' !in UnitText(n, unit)
  {
    var t := UnitText(n, unit);
    forall i | 0 <= i < |t|
      ensures t[i] != ' '
    {
      if i < |t| - 1 {
        assert t[i] == NatToString(n)[i];
      }
    }
  }

  /** "{m}m {s}s" splits into its two pieces, which read back as the minutes and seconds. */
  lemma MinutesSecondsPieces(minutes: nat, secs: nat)
    ensures SplitOn(UnitText(minutes, 'm') + [' '] + UnitText(secs, 's'), ' ')
      == [UnitText(minutes, 'm'), UnitText(secs, 's')]
    ensures UnitValue(UnitText(minutes, 'm'), 'm') == Some(minutes)
    ensures UnitValue(UnitText(secs, 's'), 's') == Some(secs)
  {
    NoSpaceInUnitText(minutes, 'm');
    NoSpaceInUnitText(secs, 's');
    SplitAfterPiece(UnitText(minutes, 'm'), UnitText(secs, 's'), ' ');
    SplitNoSeparator(UnitText(secs, 's'), ' ');
    UnitValueOf(minutes, 'm');
    UnitValueOf(secs, 's');
  }

  /** The duration text reads back as the seconds its units add up to. */
  lemma DurationTextRoundTrip(hours: nat, minutes: nat, secs: nat)
    ensures ParseHms(DurationText(hours, minutes, secs)) == Some(hours * 3600 + minutes * 60 + secs)
  {
    var tail := UnitText(minutes, 'm') + [' '] + UnitText(secs, 's');
    MinutesSecondsPieces(minutes, secs);
    if hours > 0 {
      NoSpaceInUnitText(hours, 'h');
      UnitValueOf(hours, 'h');
      SplitAfterPiece(UnitText(hours, 'h'), tail, ' ');
    }
  }

  /**
   * From a minute on, the duration text reads back as the rounded number of seconds:
   * hours, minutes under 60 and seconds under 60 lose nothing.
   */
  lemma FormatDurationRoundTrip(seconds: real)
    requires seconds >= 60.0
    ensures ParseHms(FormatDuration(seconds)) == Some(StoreRetrieve.SaturateU64(StoreNormalize.RoundHalfAway(seconds)) as nat)
  {
    var hms := HoursMinutesSeconds(StoreRetrieve.SaturateU64(StoreNormalize.RoundHalfAway(seconds)));
    DurationTextRoundTrip(hms.0, hms.1, hms.2);
  }
}
