/**
 * The execution planner: checks the planned size against the configured minimum depth,
 * reuses or registers a combo, previews its leg prices, and never submits an order. The
 * combo API is modelled by its in-memory implementation `MockComboApi`; the HTTP
 * implementation is network I/O and is not part of this model.
 */
module ArbExec {
  import opened Wrappers
  import opened Text
  import opened Civil
  import opened ArbModel
  import opened ArbConfig

  datatype ComboRecord = ComboRecord(name: string, legs: seq<ComboLeg>, isUsdc: bool)

  datatype ExecutionReport = ExecutionReport(comboId: Option<string>, preview: Option<Json>, submitted: bool)

  datatype PlanError = InsufficientDepth

  /** The id the mock hands out when its list reaches length `n`: "combo-n". */
  function ComboIdFor(n: nat): (id: string)
    ensures |id| > 6 && id[..6] == "combo-" && AllDigits(id[6..]) && ParseDigits(id[6..]) == n
  {
    var id := "combo-" + NatToString(n);
    assert id[6..] == NatToString(n);
    ParseNatToString(n);
    id
  }

  /** Different list lengths give different ids. */
  lemma ComboIdsDistinct(n: nat, m: nat)
    requires n != m
    ensures ComboIdFor(n) != ComboIdFor(m)
  {
  }

  /** The preview the mock returns: the combo id, the amount and zero fees. */
  function LegPricesPreview(comboId: string, amount: real): (j: Json)
    ensures JsonGet(j, "combo_id") == Some(JStr(comboId))
    ensures JsonGet(j, "amount") == Some(JNum(amount))
    ensures JsonGet(j, "fees") == Some(JNum(0.0))
  {
    JObj(map["combo_id" := JStr(comboId), "amount" := JNum(amount), "fees" := JNum(0.0)])
  }

  class MockComboApi {
    var combos: seq<ComboRecord>

    constructor ()
      ensures combos == []
    {
      combos := [];
    }

    /** `create_combo`: records the request and returns "combo-n" for the new length n. */
    method CreateCombo(name: string, legs: seq<ComboLeg>, isUsdc: bool) returns (id: string)
      modifies this
      ensures combos == old(combos) + [ComboRecord(name, legs, isUsdc)]
      ensures id == ComboIdFor(|combos|)
    {
      combos := combos + [ComboRecord(name, legs, isUsdc)];
      id := ComboIdFor(|combos|);
    }

    /** `get_leg_prices`. */
    method GetLegPrices(comboId: string, amount: real) returns (preview: Json)
      ensures preview == LegPricesPreview(comboId, amount)
    {
      preview := LegPricesPreview(comboId, amount);
    }
  }

  /** A `combo_id` string already present in the create payload. */
  function ExistingComboId(payload: Json): (r: Option<string>)
    ensures r.Some? <==> JsonGet(payload, "combo_id").Some? && JsonGet(payload, "combo_id").value.JStr?
    ensures r.Some? ==> JsonGet(payload, "combo_id") == Some(JStr(r.value))
  {
    match JsonGet(payload, "combo_id")
    case Some(JStr(s)) => Some(s)
    case _ => None
  }

  /** The payloads the detectors build carry no combo id, so planning them registers a combo. */
  lemma DetectorPayloadsHaveNoComboId(legs: seq<ComboLeg>, size: real)
    ensures ExistingComboId(ComboPayload(legs, size)) == None
  {
  }

  /** The date field of a combo name: `%Y%m%d` of the first expiry, or "NA". */
  function ExpiryTag(expiry: seq<int>): string {
    if |expiry| > 0 then FormatYmd(DateOfMs(expiry[0])) else "NA"
  }

  /** "{strategy}-{currency}-{YYYYMMDD or NA}-{number of legs}". */
  function ComboName(opp: StrategyOpportunity): string {
    StrategyKindDisplay(opp.strategy) + "-" + CurrencyDisplay(opp.currency) + "-"
      + ExpiryTag(opp.expiry) + "-" + NatToString(|opp.legs|)
  }

  predicate FourDigitYear(expiry: seq<int>) {
    |expiry| == 0 || 0 <= DateOfMs(expiry[0]).year <= 9999
  }

  lemma NoDashInDisplays(opp: StrategyOpportunity)
    ensures '-' !in StrategyKindDisplay(opp.strategy)
    ensures '-' !in CurrencyDisplay(opp.currency)
  {
    var s := StrategyKindDisplay(opp.strategy);
    assert forall i :: 0 <= i < |s| ==> 'a' <= s[i] <= 'z';
    var c := CurrencyDisplay(opp.currency);
    assert forall i :: 0 <= i < |c| ==> 'A' <= c[i] <= 'Z';
  }

  lemma NoDashInTag(expiry: seq<int>)
    requires FourDigitYear(expiry)
    ensures '-' !in ExpiryTag(expiry)
  {
    if |expiry| > 0 {
      NoDashInDigits(FormatYmd(DateOfMs(expiry[0])));
    }
  }

  /**
   * A combo name splits on '-' into the strategy, the currency, the expiry tag and the
   * leg count, and the last field reads back as the number of legs (for expiries in years
   * 0..=9999, whose `%Y` has no sign).
   */
  lemma ComboNameFields(opp: StrategyOpportunity)
    requires FourDigitYear(opp.expiry)
    ensures var parts := SplitOn(ComboName(opp), '-');
      && parts == [StrategyKindDisplay(opp.strategy), CurrencyDisplay(opp.currency),
                   ExpiryTag(opp.expiry), NatToString(|opp.legs|)]
      && ParseDigits(parts[3]) == |opp.legs|
  {
    NoDashInDisplays(opp);
    NoDashInTag(opp.expiry);
    NoDashInDigits(NatToString(|opp.legs|));
    SplitFourParts(StrategyKindDisplay(opp.strategy), CurrencyDisplay(opp.currency),
                   ExpiryTag(opp.expiry), NatToString(|opp.legs|));
    ParseNatToString(|opp.legs|);
  }

  /** The date field of a combo name spells the first expiry's UTC date. */
  lemma ExpiryTagDate(expiry: seq<int>)
    requires |expiry| > 0 && 0 <= DateOfMs(expiry[0]).year <= 9999
    ensures var tag := ExpiryTag(expiry);
      && |tag| == 8
      && ParseDigits(tag[..4]) == DateOfMs(expiry[0]).year
      && ParseDigits(tag[4..6]) == DateOfMs(expiry[0]).month
      && ParseDigits(tag[6..]) == DateOfMs(expiry[0]).day
  {
    FormatYmdDigits(DateOfMs(expiry[0]));
  }

  /**
   * What `plan` returns when the mock already holds `created` combos: the depth check,
   * then the existing id or the id of the newly registered combo, the preview, and
   * `submitted` false in both dry-run and live mode.
   */
  function PlanOutcome(config: AppConfig, opp: StrategyOpportunity, created: nat): (r: Result<ExecutionReport, PlanError>)
    ensures r.Err? <==> opp.sizeContracts < config.minDepthContracts as real
    ensures r.Ok? ==> !r.value.submitted && r.value.comboId.Some?
    ensures r.Ok? ==> r.value.preview == Some(LegPricesPreview(r.value.comboId.value, opp.sizeContracts))
    ensures r.Ok? && ExistingComboId(opp.executionPlan.createPayload).Some? ==>
      r.value.comboId == ExistingComboId(opp.executionPlan.createPayload)
    ensures r.Ok? && ExistingComboId(opp.executionPlan.createPayload).None? ==>
      r.value.comboId == Some(ComboIdFor(created + 1))
  {
    if opp.sizeContracts < config.minDepthContracts as real then Err(InsufficientDepth)
    else
      var id := match ExistingComboId(opp.executionPlan.createPayload)
        case Some(existing) => existing
        case None => ComboIdFor(created + 1);
      Ok(ExecutionReport(Some(id), Some(LegPricesPreview(id, opp.sizeContracts)), false))
  }

  /** The planner never submits, whatever the configuration says about dry runs. */
  lemma NeverSubmits(config: AppConfig, opp: StrategyOpportunity, created: nat)
    ensures PlanOutcome(config, opp, created).Ok? ==> !PlanOutcome(config, opp, created).value.submitted
    ensures PlanOutcome(config.(dryRun := true), opp, created) == PlanOutcome(config.(dryRun := false), opp, created)
  {
  }

  class ExecutionPlanner {
    const client: MockComboApi
    const config: AppConfig

    constructor (client: MockComboApi, config: AppConfig)
      ensures this.client == client && this.config == config
    {
      this.client := client;
      this.config := config;
    }

    /** `ensure_combo`: the payload's combo id, or a newly created combo. */
    method EnsureCombo(opp: StrategyOpportunity) returns (id: string)
      modifies client
      ensures ExistingComboId(opp.executionPlan.createPayload).Some? ==>
        id == ExistingComboId(opp.executionPlan.createPayload).value && client.combos == old(client.combos)
      ensures ExistingComboId(opp.executionPlan.createPayload).None? ==>
        client.combos == old(client.combos) + [ComboRecord(ComboName(opp), opp.legs, opp.settlement == Usdc)]
        && id == ComboIdFor(|client.combos|)
    {
      var existing := ExistingComboId(opp.executionPlan.createPayload);
      if existing.Some? {
        return existing.value;
      }
      var isUsdc := opp.settlement == Usdc;
      id := client.CreateCombo(ComboName(opp), opp.legs, isUsdc);
    }

    /** `plan`. */
    method Plan(opp: StrategyOpportunity) returns (r: Result<ExecutionReport, PlanError>)
      modifies client
      ensures r == PlanOutcome(config, opp, |old(client.combos)|)
      ensures r.Err? ==> client.combos == old(client.combos)
      ensures r.Ok? && ExistingComboId(opp.executionPlan.createPayload).Some? ==>
        client.combos == old(client.combos)
      ensures r.Ok? && ExistingComboId(opp.executionPlan.createPayload).None? ==>
        client.combos == old(client.combos) + [ComboRecord(ComboName(opp), opp.legs, opp.settlement == Usdc)]
    {
      if opp.sizeContracts < config.minDepthContracts as real {
        return Err(InsufficientDepth);
      }
      var id := EnsureCombo(opp);
      var preview := client.GetLegPrices(id, opp.sizeContracts);
      if config.dryRun {
        return Ok(ExecutionReport(Some(id), Some(preview), false));
      }
      return Ok(ExecutionReport(Some(id), Some(preview), false));
    }
  }
}
