/**
 * `DetectorSuite::scan`: verticals and butterflies inside every expiry group, then
 * calendars, boxes and jelly rolls over the whole snapshot, each only when the strategy
 * filter allows it, and the union sorted by net edge, best first.
 */
module ArbDetectScan {
  import opened Wrappers
  import opened ArbModel
  import opened ArbConfig
  import opened Sorting
  import opened ArbDetectCommon
  import opened ArbDetectSpreads
  import opened ArbDetectCalendars
  import opened ArbDetectBoxes
  import opened ArbDetectJelly

  /** The key of `group_by_expiry`: currency, expiry, settlement currency and call/put. */
  datatype ExpiryGroupKey = ExpiryGroupKey(currency: Currency, expiry: int, settlement: SettlementCurrency, kind: OptionKind)

  function ExpiryGroupKeyOf(s: InstrumentSnapshot): ExpiryGroupKey {
    ExpiryGroupKey(s.instrument.currency, s.instrument.expiry, s.instrument.settlementCurrency, s.instrument.optionKind)
  }

  /** `group_by_expiry`: one group per key present, each in snapshot order. */
  method GroupByExpiry(snapshot: seq<InstrumentSnapshot>) returns (groups: map<ExpiryGroupKey, seq<InstrumentSnapshot>>)
    ensures groups.Keys == KeySet(snapshot, ExpiryGroupKeyOf)
    ensures forall k :: k in groups ==> groups[k] == Members(snapshot, ExpiryGroupKeyOf, k)
  {
    groups := GroupBy(snapshot, ExpiryGroupKeyOf);
  }

  /**
   * The expiry groups partition the snapshot: every entry is in the group of its own key
   * and in no other, and a group holds entries of one currency, expiry, settlement and kind.
   */
  lemma ExpiryGroupsPartition(snapshot: seq<InstrumentSnapshot>, i: nat, k: ExpiryGroupKey)
    requires i < |snapshot|
    ensures snapshot[i] in Members(snapshot, ExpiryGroupKeyOf, ExpiryGroupKeyOf(snapshot[i]))
    ensures k != ExpiryGroupKeyOf(snapshot[i]) ==> snapshot[i] !in Members(snapshot, ExpiryGroupKeyOf, k)
    ensures forall x :: x in Members(snapshot, ExpiryGroupKeyOf, k) ==>
      x in snapshot && x.instrument.currency == k.currency && x.instrument.expiry == k.expiry
      && x.instrument.settlementCurrency == k.settlement && x.instrument.optionKind == k.kind
  {
    MemberOfOwnGroup(snapshot, ExpiryGroupKeyOf, i);
    MembersSound(snapshot, ExpiryGroupKeyOf, k);
  }

  /** Net edge negated: sorting ascending on it puts the largest edge first. */
  function EdgeDesc(o: StrategyOpportunity): real {
    -o.netEdgeUsd
  }

  /** What every opportunity `scan` returns is, by strategy. */
  predicate ScanResult(config: AppConfig, o: StrategyOpportunity, snapshot: seq<InstrumentSnapshot>) {
    && Emitted(config, o)
    && Allows(config.strategyFilter, o.strategy)
    && match o.strategy
       case Vertical => exists k :: k in KeySet(snapshot, ExpiryGroupKeyOf) && FromGroup(config, o, Vertical, k.currency, k.settlement, k.expiry)
       case Butterfly => exists k :: k in KeySet(snapshot, ExpiryGroupKeyOf) && FromGroup(config, o, Butterfly, k.currency, k.settlement, k.expiry)
       case Calendar => CalendarFrom(config, o, snapshot)
       case Box => BoxFrom(config, o, snapshot)
       case JellyRoll => JellyFrom(config, o, snapshot)
       case StaleQuote => false
  }

  predicate AllScanResults(config: AppConfig, os: seq<StrategyOpportunity>, snapshot: seq<InstrumentSnapshot>) {
    forall o :: o in os ==> ScanResult(config, o, snapshot)
  }

  lemma AppendScanResults(config: AppConfig, a: seq<StrategyOpportunity>, b: seq<StrategyOpportunity>,
                          snapshot: seq<InstrumentSnapshot>)
    requires AllScanResults(config, a, snapshot) && AllScanResults(config, b, snapshot)
    ensures AllScanResults(config, a + b, snapshot)
  {
  }

  /** What the two per-group detectors return for an expiry group is a scan result. */
  lemma GroupScanResults(config: AppConfig, snapshot: seq<InstrumentSnapshot>, k: ExpiryGroupKey,
                         kind: StrategyKind, found: seq<StrategyOpportunity>)
    requires k in KeySet(snapshot, ExpiryGroupKeyOf)
    requires kind == Vertical || kind == Butterfly
    requires Allows(config.strategyFilter, kind)
    requires forall o :: o in found ==> FromGroup(config, o, kind, k.currency, k.settlement, k.expiry)
    ensures AllScanResults(config, found, snapshot)
  {
  }

  /** What `scan` finds in one expiry group: its verticals, then its butterflies, each when the filter allows it. */
  function GroupFound(config: AppConfig, k: ExpiryGroupKey, group: seq<InstrumentSnapshot>, now: int): seq<StrategyOpportunity> {
    var byStrike := SortByKey(group, StrikeKey);
    (if Allows(config.strategyFilter, Vertical)
     then Somes(VerticalWindows(config, byStrike, k.currency, k.settlement, k.expiry, now)) else [])
    + (if Allows(config.strategyFilter, Butterfly)
       then Somes(ButterflyWindows(config, byStrike, k.currency, k.settlement, k.expiry, now)) else [])
  }

  /** What an expiry group of the snapshot yields are scan results. */
  lemma GroupFoundSound(config: AppConfig, snapshot: seq<InstrumentSnapshot>, k: ExpiryGroupKey, now: int)
    requires k in KeySet(snapshot, ExpiryGroupKeyOf)
    ensures AllScanResults(config, GroupFound(config, k, Members(snapshot, ExpiryGroupKeyOf, k), now), snapshot)
  {
    var byStrike := SortByKey(Members(snapshot, ExpiryGroupKeyOf, k), StrikeKey);
    var verts := if Allows(config.strategyFilter, Vertical)
                 then Somes(VerticalWindows(config, byStrike, k.currency, k.settlement, k.expiry, now)) else [];
    var flies := if Allows(config.strategyFilter, Butterfly)
                 then Somes(ButterflyWindows(config, byStrike, k.currency, k.settlement, k.expiry, now)) else [];
    VerticalWindowsFromGroup(config, byStrike, k.currency, k.settlement, k.expiry, now);
    ButterflyWindowsFromGroup(config, byStrike, k.currency, k.settlement, k.expiry, now);
    if Allows(config.strategyFilter, Vertical) {
      GroupScanResults(config, snapshot, k, Vertical, verts);
    }
    if Allows(config.strategyFilter, Butterfly) {
      GroupScanResults(config, snapshot, k, Butterfly, flies);
    }
    AppendScanResults(config, verts, flies, snapshot);
  }

  /** The verticals, then the butterflies, of one expiry group, as far as the filter allows them. */
  method ScanGroup(config: AppConfig, snapshot: seq<InstrumentSnapshot>, k: ExpiryGroupKey,
                   group: seq<InstrumentSnapshot>, now: int) returns (found: seq<StrategyOpportunity>)
    ensures found == GroupFound(config, k, group, now)
    ensures !Allows(config.strategyFilter, Vertical) && !Allows(config.strategyFilter, Butterfly) ==> found == []
    ensures k in KeySet(snapshot, ExpiryGroupKeyOf) && group == Members(snapshot, ExpiryGroupKeyOf, k) ==>
      AllScanResults(config, found, snapshot)
  {
    var verts: seq<StrategyOpportunity> := [];
    if Allows(config.strategyFilter, Vertical) {
      verts := DetectVerticals(config, group, k.currency, k.settlement, k.expiry, now);
    }
    var flies: seq<StrategyOpportunity> := [];
    if Allows(config.strategyFilter, Butterfly) {
      flies := DetectButterflies(config, group, k.currency, k.settlement, k.expiry, now);
    }
    found := verts + flies;
    if k in KeySet(snapshot, ExpiryGroupKeyOf) && group == Members(snapshot, ExpiryGroupKeyOf, k) {
      GroupFoundSound(config, snapshot, k, now);
    }
  }

  /** What each expiry group `order` names yields. */
  function ExpiryParts(config: AppConfig, snapshot: seq<InstrumentSnapshot>, order: seq<ExpiryGroupKey>, now: int): (r: seq<seq<StrategyOpportunity>>)
    ensures |r| == |order|
    ensures forall i :: 0 <= i < |order| ==> r[i] == GroupFound(config, order[i], Members(snapshot, ExpiryGroupKeyOf, order[i]), now)
  {
    seq(|order|, i requires 0 <= i < |order| => GroupFound(config, order[i], Members(snapshot, ExpiryGroupKeyOf, order[i]), now))
  }

  lemma ExpiryPartsStep(config: AppConfig, snapshot: seq<InstrumentSnapshot>, order: seq<ExpiryGroupKey>, k: ExpiryGroupKey, now: int)
    ensures Concat(ExpiryParts(config, snapshot, order + [k], now)) ==
      Concat(ExpiryParts(config, snapshot, order, now)) + GroupFound(config, k, Members(snapshot, ExpiryGroupKeyOf, k), now)
  {
    var parts := ExpiryParts(config, snapshot, order, now);
    var longer := ExpiryParts(config, snapshot, order + [k], now);
    var found := GroupFound(config, k, Members(snapshot, ExpiryGroupKeyOf, k), now);
    assert forall i :: 0 <= i < |order| ==> longer[i] == parts[i] by {
      assert forall i :: 0 <= i < |order| ==> (order + [k])[i] == order[i];
    }
    assert longer == parts + [found];
    ConcatStep(parts, found);
  }

  /**
   * When the keys visited are every expiry group key, each once, an opportunity is collected
   * exactly when some expiry group yields it, and each one is a scan result.
   */
  lemma ExpiryPartsAll(config: AppConfig, snapshot: seq<InstrumentSnapshot>, order: seq<ExpiryGroupKey>, now: int)
    requires Enumerates(order, KeySet(snapshot, ExpiryGroupKeyOf))
    ensures forall o :: o in Concat(ExpiryParts(config, snapshot, order, now)) <==> InExpiryGroup(config, snapshot, now, o)
    ensures AllScanResults(config, Concat(ExpiryParts(config, snapshot, order, now)), snapshot)
  {
    var parts := ExpiryParts(config, snapshot, order, now);
    forall o | o in Concat(parts)
      ensures InExpiryGroup(config, snapshot, now, o) && ScanResult(config, o, snapshot)
    {
      var i := ConcatPart(parts, o);
      GroupFoundSound(config, snapshot, order[i], now);
    }
    forall o | InExpiryGroup(config, snapshot, now, o)
      ensures o in Concat(parts)
    {
      var k :| k in KeySet(snapshot, ExpiryGroupKeyOf) && o in GroupFound(config, k, Members(snapshot, ExpiryGroupKeyOf, k), now);
      var i :| 0 <= i < |order| && order[i] == k;
      ConcatHas(parts, i, o);
    }
  }

  /** Some expiry group of the snapshot yields `o`. */
  ghost predicate InExpiryGroup(config: AppConfig, snapshot: seq<InstrumentSnapshot>, now: int, o: StrategyOpportunity) {
    exists k :: k in KeySet(snapshot, ExpiryGroupKeyOf) && o in GroupFound(config, k, Members(snapshot, ExpiryGroupKeyOf, k), now)
  }

  /** The expiry groups' findings, concatenated in an order that visits every group once. */
  ghost predicate ExpiryCollected(config: AppConfig, snapshot: seq<InstrumentSnapshot>, now: int, found: seq<StrategyOpportunity>) {
    exists order :: Enumerates(order, KeySet(snapshot, ExpiryGroupKeyOf)) && found == Concat(ExpiryParts(config, snapshot, order, now))
  }

  /** The loop over the expiry groups of `scan`. */
  method ScanExpiryGroups(config: AppConfig, snapshot: seq<InstrumentSnapshot>, now: int) returns (found: seq<StrategyOpportunity>)
    ensures ExpiryCollected(config, snapshot, now, found)
    ensures forall o :: o in found <==> InExpiryGroup(config, snapshot, now, o)
    ensures AllScanResults(config, found, snapshot)
  {
    found := [];
    var groups := GroupByExpiry(snapshot);
    var keys := groups.Keys;
    ghost var order: seq<ExpiryGroupKey> := [];
    while keys != {}
      invariant keys <= groups.Keys
      invariant Enumerates(order, groups.Keys - keys)
      invariant found == Concat(ExpiryParts(config, snapshot, order, now))
      decreases |keys|
    {
      var k :| k in keys;
      var more := ScanGroup(config, snapshot, k, groups[k], now);
      found := found + more;
      ExpiryPartsStep(config, snapshot, order, k, now);
      EnumeratesStep(order, groups.Keys, keys, k);
      order := order + [k];
      keys := keys - {k};
    }
    assert groups.Keys - keys == groups.Keys;
    ExpiryPartsAll(config, snapshot, order, now);
  }

  /** The calendars `scan` collects: nothing unless allowed, otherwise every calendar group's, once each. */
  ghost predicate CalendarsCollected(config: AppConfig, snapshot: seq<InstrumentSnapshot>, now: int, found: seq<StrategyOpportunity>) {
    if Allows(config.strategyFilter, Calendar)
    then exists order :: Enumerates(order, KeySet(snapshot, CalendarKeyOf)) && found == Concat(CalendarParts(config, snapshot, order, now))
    else found == []
  }

  /** Some calendar group of the snapshot yields `o`, and calendars are allowed. */
  ghost predicate InCalendarGroup(config: AppConfig, snapshot: seq<InstrumentSnapshot>, now: int, o: StrategyOpportunity) {
    Allows(config.strategyFilter, Calendar) && exists k :: k in KeySet(snapshot, CalendarKeyOf) && o in CalendarGroupFound(config, snapshot, k, now)
  }

  /** The calendars of `scan`, when the filter allows them. */
  method ScanCalendars(config: AppConfig, snapshot: seq<InstrumentSnapshot>, now: int) returns (found: seq<StrategyOpportunity>)
    ensures !Allows(config.strategyFilter, Calendar) ==> found == []
    ensures CalendarsCollected(config, snapshot, now, found)
    ensures forall o :: o in found <==> InCalendarGroup(config, snapshot, now, o)
    ensures AllScanResults(config, found, snapshot)
  {
    found := [];
    if Allows(config.strategyFilter, Calendar) {
      found := DetectCalendars(config, snapshot, now);
    }
  }

  /** The boxes `scan` collects: nothing unless allowed, otherwise every USDC group's, once each. */
  ghost predicate BoxesCollected(config: AppConfig, snapshot: seq<InstrumentSnapshot>, now: int, found: seq<StrategyOpportunity>) {
    if Allows(config.strategyFilter, Box)
    then exists order :: Enumerates(order, KeySet(UsdcOnly(snapshot), BoxKeyOf)) && found == Concat(BoxParts(config, snapshot, order, now))
    else found == []
  }

  /** Some USDC box group of the snapshot yields `o`, and boxes are allowed. */
  ghost predicate InBoxGroup(config: AppConfig, snapshot: seq<InstrumentSnapshot>, now: int, o: StrategyOpportunity) {
    Allows(config.strategyFilter, Box) && exists k :: k in KeySet(UsdcOnly(snapshot), BoxKeyOf) && o in BoxGroupFound(config, snapshot, k, now)
  }

  lemma BoxScanResults(config: AppConfig, found: seq<StrategyOpportunity>, snapshot: seq<InstrumentSnapshot>)
    requires Allows(config.strategyFilter, Box)
    requires forall o :: o in found ==> BoxFrom(config, o, snapshot)
    ensures AllScanResults(config, found, snapshot)
  {
  }

  /** The boxes of `scan`, when the filter allows them. */
  method ScanBoxes(config: AppConfig, snapshot: seq<InstrumentSnapshot>, now: int) returns (found: seq<StrategyOpportunity>)
    ensures !Allows(config.strategyFilter, Box) ==> found == []
    ensures BoxesCollected(config, snapshot, now, found)
    ensures forall o :: o in found <==> InBoxGroup(config, snapshot, now, o)
    ensures AllScanResults(config, found, snapshot)
  {
    found := [];
    if Allows(config.strategyFilter, Box) {
      found := DetectBoxes(config, snapshot, now);
      BoxScanResults(config, found, snapshot);
    }
  }

  /** The rolls `scan` collects: nothing unless allowed, otherwise every bucket key's, once each. */
  ghost predicate RollsCollected(config: AppConfig, snapshot: seq<InstrumentSnapshot>, now: int, found: seq<StrategyOpportunity>) {
    if Allows(config.strategyFilter, JellyRoll)
    then exists order, lists :: JellyOrder(BucketsOf(snapshot), BucketsOf(snapshot).Keys, order, lists)
                                && found == Concat(JellyParts(config, order, lists, now))
    else found == []
  }

  /** Some bucket key of the snapshot yields `o` from its complete expiries, and jelly rolls are allowed. */
  ghost predicate InRollGroup(config: AppConfig, snapshot: seq<InstrumentSnapshot>, now: int, o: StrategyOpportunity) {
    Allows(config.strategyFilter, JellyRoll) && exists k, xs ::
      k in BucketsOf(snapshot) && CompleteListOf(xs, BucketsOf(snapshot)[k]) && o in JellyGroupFound(config, k, xs, now)
  }

  lemma JellyScanResults(config: AppConfig, found: seq<StrategyOpportunity>, snapshot: seq<InstrumentSnapshot>)
    requires Allows(config.strategyFilter, JellyRoll)
    requires forall o :: o in found ==> JellyFrom(config, o, snapshot)
    ensures AllScanResults(config, found, snapshot)
  {
  }

  /** The jelly rolls of `scan`, when the filter allows them. */
  method ScanJellyRolls(config: AppConfig, snapshot: seq<InstrumentSnapshot>, now: int) returns (found: seq<StrategyOpportunity>)
    ensures !Allows(config.strategyFilter, JellyRoll) ==> found == []
    ensures RollsCollected(config, snapshot, now, found)
    ensures forall o :: o in found <==> InRollGroup(config, snapshot, now, o)
    ensures AllScanResults(config, found, snapshot)
  {
    found := [];
    if Allows(config.strategyFilter, JellyRoll) {
      found := DetectJellyRolls(config, snapshot, now);
      JellyScanResults(config, found, snapshot);
    }
  }

  /** An opportunity one of the allowed detectors finds. */
  ghost predicate FoundByAllowed(config: AppConfig, snapshot: seq<InstrumentSnapshot>, now: int, o: StrategyOpportunity) {
    || InExpiryGroup(config, snapshot, now, o)
    || InCalendarGroup(config, snapshot, now, o)
    || InBoxGroup(config, snapshot, now, o)
    || InRollGroup(config, snapshot, now, o)
  }

  /** The concatenated findings hold exactly what the allowed detectors find. */
  lemma UnionFound(config: AppConfig, snapshot: seq<InstrumentSnapshot>, now: int, groups: seq<StrategyOpportunity>,
                   calendars: seq<StrategyOpportunity>, boxes: seq<StrategyOpportunity>, rolls: seq<StrategyOpportunity>)
    requires forall o :: o in groups <==> InExpiryGroup(config, snapshot, now, o)
    requires forall o :: o in calendars <==> InCalendarGroup(config, snapshot, now, o)
    requires forall o :: o in boxes <==> InBoxGroup(config, snapshot, now, o)
    requires forall o :: o in rolls <==> InRollGroup(config, snapshot, now, o)
    ensures forall o :: o in groups + calendars + boxes + rolls <==> FoundByAllowed(config, snapshot, now, o)
  {
  }

  /**
   * `scan`: the union of what the allowed detectors find, sorted by net edge in descending
   * order (stably, so equal edges keep the order in which they were found).
   */
  method Scan(config: AppConfig, snapshot: seq<InstrumentSnapshot>, now: int) returns (opportunities: seq<StrategyOpportunity>)
    ensures forall i, j :: 0 <= i < j < |opportunities| ==> opportunities[i].netEdgeUsd >= opportunities[j].netEdgeUsd
    ensures exists groups, calendars, boxes, rolls ::
      && ExpiryCollected(config, snapshot, now, groups)
      && CalendarsCollected(config, snapshot, now, calendars)
      && BoxesCollected(config, snapshot, now, boxes)
      && RollsCollected(config, snapshot, now, rolls)
      && multiset(opportunities) == multiset(groups + calendars + boxes + rolls)
    ensures forall o :: o in opportunities <==> FoundByAllowed(config, snapshot, now, o)
    ensures forall o :: o in opportunities ==> ScanResult(config, o, snapshot)
    ensures forall o :: o in opportunities ==> o.strategy in config.strategyFilter.includes
  {
    var groups := ScanExpiryGroups(config, snapshot, now);
    var calendars := ScanCalendars(config, snapshot, now);
    var boxes := ScanBoxes(config, snapshot, now);
    var rolls := ScanJellyRolls(config, snapshot, now);
    var found := groups + calendars + boxes + rolls;
    UnionFound(config, snapshot, now, groups, calendars, boxes, rolls);
    AppendScanResults(config, groups, calendars, snapshot);
    AppendScanResults(config, groups + calendars, boxes, snapshot);
    AppendScanResults(config, groups + calendars + boxes, rolls, snapshot);
    opportunities := SortByKey(found, EdgeDesc);
    SortedMembers(found, EdgeDesc);
    assert forall i, j :: 0 <= i < j < |opportunities| ==> EdgeDesc(opportunities[i]) <= EdgeDesc(opportunities[j]);
    assert multiset(opportunities) == multiset(groups + calendars + boxes + rolls);
  }
}
