# Deribit option tools, modelled in Dafny

This project models the deterministic core of three Rust crates that work with Deribit options.

- **deribit_arb** is an arbitrage scanner. It parses Deribit instrument names and the small enums, keeps an option chain updated in place, and runs five detectors over a snapshot of the chain: verticals, butterflies, calendars, boxes and jelly rolls. It sizes each trade from the configured ticket, prices taker fees with a combo discount and an optional delivery fee, and gates deployments through a risk manager. An execution planner registers or reuses a combo and previews its leg prices. The start-up configuration is validated from the command line.
- **optstore** downloads the trades of one instrument for one UTC day. It pages through the Deribit history API from a resume token and normalises each page into fixed-width ticks. Each page is written as a numbered part file of a partition. A manifest records the parts and the resume token, and ticks are de-duplicated by their five-field key.
- **oldest_eth_options** merges the expired ETH options of two API hosts by name and probes them oldest first. It reports the oldest one some host has trades for, and estimates from the probe samples what downloading every instrument would cost.

Values are modelled as follows:

- Decimals (`rust_decimal`) are exact `real`s.
- Instants are integer milliseconds since 1970-01-01T00:00:00Z, and `Civil` relates them to calendar dates the way chrono does.
- Fixed-width integers are subset types of `int`. Where the code casts or wraps, the wrap is written out.
- Strings are sequences of `char`.
- Maps the code mutates are `map` values reassigned in place. Objects whose fields change (`RiskManager`, `OptionChain`, `MockComboApi`, `CacheManifest`, `CacheManager`) are classes.
- Loops over a `HashMap` pick the next key by an unspecified choice, so every contract holds for every iteration order.
- Network requests, the clock and foreign hashes are parameters: a sequence of page answers, a function from host to answer, `now`, `instrumentId`.

Each detector is split in two:

- a pure function that evaluates one window of sorted quotes (`VerticalAt`, `ButterflyAt`, `CalendarAt`, `BoxAt`, `JellyAt`);
- a method with the source's loop, proved to emit exactly the windows the function accepts. For the detectors that group through a `HashMap` (calendars, boxes, jelly rolls), the groups' findings come in some order that visits every group once.

`FeeEngine::compute` is a method over an array of leg fees updated in place. It is proved equal to the specification function `FeeSpec`, and the fee properties are lemmas about `FeeSpec`.

## Model

| member | source | states |
|---|---|---|
| ArbModel.CurrencyDisplay | deribit_arb/src/model/mod.rs:14-21 | a currency displays as a three-letter upper-case code |
| ArbModel.ParseCurrency | deribit_arb/src/model/mod.rs:23-33 | accepted exactly when the upper-cased text is BTC or ETH, giving the currency that displays as it; otherwise UnknownCurrency with the text as given |
| ArbModel.CurrencyRoundTrip | deribit_arb/src/model/mod.rs:14-33 | parsing what Display writes gives the same currency back |
| ArbModel.OptionKindDisplay | deribit_arb/src/model/mod.rs:41-48 | an option kind displays as a single letter |
| ArbModel.ParseOptionKind | deribit_arb/src/model/mod.rs:50-60 | Call exactly for C/CALL, Put exactly for P/PUT in any case; otherwise UnknownOptionKind carrying the upper-cased text |
| ArbModel.OptionKindRoundTrip | deribit_arb/src/model/mod.rs:41-60 | parsing what Display writes gives the same kind back |
| ArbModel.Contains | deribit_arb/src/model/mod.rs:370-372 | the front-to-back scan answers true exactly when the kind is in the list |
| ArbModel.Allows | deribit_arb/src/model/mod.rs:369-373 | a filter allows a strategy exactly when its include list holds it |
| ArbModel.MonthNumber | deribit_arb/src/model/mod.rs:268-282 | a recognised month abbreviation maps into 1..12 |
| ArbModel.MonthName | deribit_arb/src/model/mod.rs:268-282 | every month 1..12 has an abbreviation that maps back to it |
| ArbModel.ExpiryDate | deribit_arb/src/model/mod.rs:267-294 | an unknown month is InvalidExpiry(month); otherwise the expiry exists exactly when chrono accepts the (i32-cast) year, month and day, and it is 08:00:00 UTC of that very date |
| ArbModel.ParseInstrumentName | deribit_arb/src/model/mod.rs:300-333 | the errors in the source's order: anything but four '-'-separated parts is InvalidFormat; a bad currency is its error; a date part under 6 characters is InvalidExpiry; a day or a 20yy year that does not parse is InvalidExpiry of the date part; a strike that does not parse is InvalidStrike of its text; a bad option kind is its error; an accepted name has every field parsed from its own slice (day, upper-cased month, year in 2000..2099, decimal strike, option kind) |
| ArbModel.YearTextRange | deribit_arb/src/model/mod.rs:317-319 | "20" followed by two characters parses, when it parses at all, to a year in 2000..2099 |
| ArbModel.ParseAcceptsParts | deribit_arb/src/model/mod.rs:300-333 | converse of the success clause: a name whose four parts each parse is accepted with exactly those fields |
| ArbModel.SplitFourParts | deribit_arb/src/model/mod.rs:302-303 | four dash-free pieces joined by '-' split back into the same four pieces |
| ArbModel.ParseDatePart | deribit_arb/src/model/mod.rs:308-319 | a date part written as day, month abbreviation and two year digits is read back as that day, month and 20yy |
| ArbModel.ComposedNameParts | deribit_arb/src/model/mod.rs:300-322 | every part of a composed Deribit name parses to the value it was composed from |
| ArbModel.ParseComposedName | deribit_arb/src/model/mod.rs:300-333 | round trip: composing a name from currency, day, month, year, whole strike and kind and parsing it gives those fields back |
| ArbModel.ParseExampleName | deribit_arb/src/model/mod.rs:301 | the format comment's own example BTC-25MAR23-42000-C parses to BTC, 25 MAR 2023, strike 42000, Call |
| ArbConfig.WebsocketUrl | deribit_arb/src/config.rs:17-22 | every WebSocket endpoint is a wss:// URL |
| ArbConfig.HttpBase | deribit_arb/src/config.rs:24-29 | every HTTP base is an https:// URL |
| ArbConfig.EndpointsShareHost | deribit_arb/src/config.rs:16-30 | both endpoints of an environment are the JSON-RPC v2 paths of one host |
| ArbConfig.WebsocketOnHost | deribit_arb/src/config.rs:17-22 | the WebSocket URL is wss:// + host + /ws/api/v2 |
| ArbConfig.HttpOnHost | deribit_arb/src/config.rs:24-29 | the HTTP base is https:// + host + /api/v2 |
| ArbConfig.EndpointsDiffer | deribit_arb/src/config.rs:16-30 | testnet and production never share an endpoint |
| ArbConfig.Collect | deribit_arb/src/config.rs:112-116 | collecting into a Result succeeds exactly when every element maps to Ok, keeping every value in order; otherwise the error is that of the first failing element |
| ArbConfig.ParseEnvironment | deribit_arb/src/config.rs:103-107 | Testnet exactly for test/testnet, Production exactly for prod/production/main, compared after lower-casing; any other name is UnknownEnv of the lower-cased name |
| ArbConfig.EnvironmentIgnoresCase | deribit_arb/src/config.rs:103 | the environment name is case-insensitive: its upper-cased spelling selects the same environment |
| ArbConfig.ParseSettlement | deribit_arb/src/config.rs:121-125 | Usdc exactly for "usdc", Coin exactly for "coin" (no case folding); anything else is UnknownSettlement |
| ArbConfig.SettlementRoundTrip | deribit_arb/src/config.rs:121-125 | the lower-cased display name of a settlement currency parses back to it |
| ArbConfig.ParseStrategyName | deribit_arb/src/config.rs:139-147 | an unknown name is reported trimmed and lower-cased |
| ArbConfig.StaleQuoteAliases | deribit_arb/src/config.rs:144 | the stale-quote strategy is selected by exactly stale, stalequote and stale-quote (after trim and lower-case) |
| ArbConfig.JellyRollAliases | deribit_arb/src/config.rs:145 | the jelly-roll strategy is selected by exactly jelly, jellyroll and jelly-roll |
| ArbConfig.StrategyNamesKnown | deribit_arb/src/config.rs:139-147 | a name selects a detector exactly when its key is one of the ten known spellings |
| ArbConfig.CanonicalKey | deribit_arb/src/config.rs:139 | a lower-case name without blanks is its own key |
| ArbConfig.StrategyNameRoundTrip | deribit_arb/src/config.rs:139-147 | the name a strategy kind displays as selects that kind again |
| ArbConfig.FromCli | deribit_arb/src/config.rs:102-176 | a configuration results exactly when the environment, every currency, every settlement, the edge ratio (at least 1.0), every strategy name and a non-empty strategy list all validate |
| ArbConfig.FromCliFields | deribit_arb/src/config.rs:155-169 | a validated configuration carries the parsed values of the command line, element by element and in order, with the key and secret passed in |
| ArbConfig.FromCliErrorOrder | deribit_arb/src/config.rs:102-153 | the checks run in source order: an unknown environment wins, then a bad currency; EdgeRatioTooLow only for a ratio under 1.0 and NoDetectors only for an empty list |
| ArbChain.NewSnapshot | deribit_arb/src/chain/mod.rs:33-46 | a newly seen instrument starts with no bid, ask, IVs or rate, index price 0, stamped now, and no order book |
| ArbChain.Upsert | deribit_arb/src/chain/mod.rs:28-47 | the name joins the keys; a known entry only gets the new instrument, keeping its quote and book; a new one gets NewSnapshot; every other entry is unchanged |
| ArbChain.SetQuote | deribit_arb/src/chain/mod.rs:49-54 | keys unchanged; only the named entry's quote is replaced; an unknown name leaves the table as it was |
| ArbChain.SetOrderBook | deribit_arb/src/chain/mod.rs:56-61 | keys unchanged; only the named entry gets the book; an unknown name leaves the table as it was |
| ArbChain.UpdatesKeepKeyed | deribit_arb/src/chain/mod.rs:28-61 | all three updates keep every entry stored under its own instrument's name |
| ArbChain.UpsertIdempotent | deribit_arb/src/chain/mod.rs:28-47 | upserting the same instrument twice is the same as upserting it once |
| ArbChain.UpsertKeepsMarketData | deribit_arb/src/chain/mod.rs:30-32 | re-upserting a known instrument keeps the quote and book the feed delivered |
| ArbChain.StatsOf | deribit_arb/src/chain/mod.rs:72-101 | the instrument count is the table size; bid levels and ask levels never exceed the instruments with quotes, which never exceed the count; fresh instruments never exceed the count |
| ArbChain.UpsertNewCounts | deribit_arb/src/chain/mod.rs:72-101 | inserting a new instrument adds one to the count and nothing to quotes, bid levels or ask levels |
| ArbChain.OptionChain.constructor | deribit_arb/src/chain/mod.rs:22-26 | a new chain is an empty table |
| ArbChain.OptionChain.UpsertInstrument | deribit_arb/src/chain/mod.rs:28-47 | the table becomes Upsert of the old table and stays keyed by name |
| ArbChain.OptionChain.UpdateQuote | deribit_arb/src/chain/mod.rs:49-54 | the table becomes SetQuote of the old table |
| ArbChain.OptionChain.UpdateOrderBook | deribit_arb/src/chain/mod.rs:56-61 | the table becomes SetOrderBook of the old table |
| ArbChain.OptionChain.Snapshot | deribit_arb/src/chain/mod.rs:63-70 | every stored entry exactly once (no name twice, nothing missing, nothing invented), stamped now |
| ArbChain.OptionChain.Stats | deribit_arb/src/chain/mod.rs:72-101 | the statistics of the current table, so the StatsOf bounds hold |
| ArbFees.PerContractFee | deribit_arb/src/fees/mod.rs:152-170 | the per-contract fee is the base fee (0.0003 coin, or 0.0003 of the index in USDC) or 12.5% of the option price, whichever is lower |
| ArbFees.ComputeTradeFee | deribit_arb/src/fees/mod.rs:139-181 | a leg fee keeps the leg's name, side, settlement and role; zero contracts cost nothing; otherwise the native fee is the per-contract fee times the absolute contracts times the contract size, and the USD fee is the native fee (USDC) or the native fee times the index (coin) |
| ArbFees.TradeFeeIgnoresDirection | deribit_arb/src/fees/mod.rs:140 | buying and selling the same quantity cost the same fee |
| ArbFees.TradeFeeNonNegative | deribit_arb/src/fees/mod.rs:139-181 | with non-negative prices, index and contract size, neither leg fee is negative |
| ArbFees.GrossFees | deribit_arb/src/fees/mod.rs:43-47 | one trade fee per leg, in leg order |
| ArbFees.Waive | deribit_arb/src/fees/mod.rs:66-84 | after the discount every leg of the waived side is zeroed and every other leg is unchanged |
| ArbFees.FeeSpec | deribit_arb/src/fees/mod.rs:34-136 | no legs is an error, mixed settlements is the other error (exactly when some leg differs from the first), and a breakdown has one fee per leg |
| ArbFees.Compute | deribit_arb/src/fees/mod.rs:34-136 | the engine's loops, with the leg fees zeroed in place in an array, compute exactly FeeSpec |
| ArbFees.SideTotals | deribit_arb/src/fees/mod.rs:49-64 | the loop's four accumulators are the buy and sell sums, native and USD, of the leg fees |
| ArbFees.ZeroSide | deribit_arb/src/fees/mod.rs:66-84 | zeroing in place leaves the array equal to Waive of its old contents |
| ArbFees.DeliveryTotals | deribit_arb/src/fees/mod.rs:86-116 | the delivery loop (daily legs skipped) sums LegDeliveryNative and LegDeliveryUsd over the legs |
| ArbFees.WaiveTotals | deribit_arb/src/fees/mod.rs:118-125 | the totals after waiving a side are the gross totals less that side's sums |
| ArbFees.ComboDiscountWaivesCheaperSide | deribit_arb/src/fees/mod.rs:66-84 | the discount is the cheaper side's USD total (Buy on a tie), with the matching native sum; every leg of that side pays nothing, every other leg its own fee; the totals are gross less discount plus delivery |
| ArbFees.SumsNonNegative | deribit_arb/src/fees/mod.rs:49-64 | sums of non-negative leg fees are non-negative |
| ArbFees.LegDeliveryNonNegative | deribit_arb/src/fees/mod.rs:93-112 | with non-negative inputs a leg's delivery fee is non-negative in both currencies |
| ArbFees.DeliveryNonNegative | deribit_arb/src/fees/mod.rs:86-116 | with non-negative inputs the delivery totals are non-negative |
| ArbFees.FeesNonNegative | deribit_arb/src/fees/mod.rs:34-136 | with non-negative inputs no leg fee, discount, delivery fee or total is negative |
| ArbFees.DailyLegsPayNoDelivery | deribit_arb/src/fees/mod.rs:90-92 | legs that are all daily pay no delivery |
| ArbFees.DeliveryRules | deribit_arb/src/fees/mod.rs:86-116 | no delivery unless held to expiry or when every leg is daily; a leg pays at most 0.015% of its notional and at most 12.5% of its option value; a coin leg's native fee times the index is its USD fee |
| ArbFees.CoinFeeExample | deribit_arb/tests/fees.rs:6-28 | 10 coin contracts at 0.015 with the index at 40000 pay 0.003 coin and 120 USD |
| ArbFees.UsdcFeeExample | deribit_arb/tests/fees.rs:30-51 | 2 USDC contracts at 500 with the index at 40000 pay 24 in both currencies |
| ArbFees.ComboDiscountExample | deribit_arb/tests/fees.rs:53-88 | a buy at 100 and a sell at 200 tie at 12 USD; the discount is 12 and the buy leg is waived |
| ArbFees.DeliveryCapExample | deribit_arb/tests/fees.rs:90-111 | 3 USDC contracts at 2000 held to expiry pay a delivery fee in (0, 750] |
| ArbRisk.ApproveStep | deribit_arb/src/risk/mod.rs:26-61 | refused at the combo limit, above the ticket cap or with a negative average, approved exactly otherwise; an approval adds one live combo and nothing else changes; a refusal changes nothing |
| ArbRisk.ReleaseStep | deribit_arb/src/risk/mod.rs:63-68 | one live combo fewer, saturating at zero; the average is untouched |
| ArbRisk.RecordPnlStep | deribit_arb/src/risk/mod.rs:70-74 | the new average is 0.8 of the old plus 0.2 of the PnL; the combo count is untouched |
| ArbRisk.RiskManager.constructor | deribit_arb/src/risk/mod.rs:20-24 | no live combos and a zero average |
| ArbRisk.RiskManager.Approve | deribit_arb/src/risk/mod.rs:26-61 | approved exactly when below the combo limit, within the ticket cap and with a non-negative average; the state moves as ApproveStep says |
| ArbRisk.RiskManager.Release | deribit_arb/src/risk/mod.rs:63-68 | the state moves as ReleaseStep says |
| ArbRisk.RiskManager.RecordPnl | deribit_arb/src/risk/mod.rs:70-74 | the state moves as RecordPnlStep says |
| ArbRisk.LiveCombosBounded | deribit_arb/src/risk/mod.rs:26-74 | whatever the calls, live combos never exceed the configured maximum |
| ArbRisk.LiveCombosBelowApprovals | deribit_arb/src/risk/mod.rs:26-74 | live combos never exceed the starting count plus the number of approval calls |
| ArbRisk.ReleaseUndoesApproval | deribit_arb/src/risk/mod.rs:54-67 | an approval followed by a release restores the state |
| ArbRisk.EwmaBetween | deribit_arb/src/risk/mod.rs:70-74 | the new average lies between the old average and the recorded PnL |
| ArbRisk.EwmaStaysNonNegative | deribit_arb/src/risk/mod.rs:46-53 | from a non-negative average, a run without losses keeps the average non-negative, so the PnL gate never refuses |
| ArbExec.ComboIdFor | deribit_arb/src/exec/mod.rs:118 | the mock's id is "combo-" followed by the decimal list length, which reads back as that length |
| ArbExec.ComboIdsDistinct | deribit_arb/src/exec/mod.rs:114-119 | different list lengths give different ids, so the mock never reuses an id |
| ArbExec.LegPricesPreview | deribit_arb/src/exec/mod.rs:121-127 | the preview carries the combo id, the amount and zero fees |
| ArbExec.MockComboApi.constructor | deribit_arb/src/exec/mod.rs:104-110 | the mock starts with no combos |
| ArbExec.MockComboApi.CreateCombo | deribit_arb/src/exec/mod.rs:114-119 | the request is appended to the list and the id names the new length |
| ArbExec.MockComboApi.GetLegPrices | deribit_arb/src/exec/mod.rs:121-127 | returns the preview for that id and amount |
| ArbExec.ExistingComboId | deribit_arb/src/exec/mod.rs:74-81 | an id is found exactly when the payload has a string combo_id field, and it is that string |
| ArbExec.DetectorPayloadsHaveNoComboId | deribit_arb/src/exec/mod.rs:74-81 | the payloads the detectors build carry no combo id, so planning them registers a combo |
| ArbExec.ComboNameFields | deribit_arb/src/exec/mod.rs:83-93 | a combo name splits on '-' into strategy, currency, expiry tag and leg count, and the last field reads back as the number of legs |
| ArbExec.ExpiryTagDate | deribit_arb/src/exec/mod.rs:87-91 | the date field is eight digits spelling the first expiry's UTC year, month and day |
| ArbExec.PlanOutcome | deribit_arb/src/exec/mod.rs:45-71 | an error exactly when the size is below the minimum depth; otherwise never submitted, with the payload's id or the id of the newly registered combo, and that id's preview |
| ArbExec.NeverSubmits | deribit_arb/src/exec/mod.rs:56-70 | nothing is submitted, and dry-run and live mode give the same outcome |
| ArbExec.ExecutionPlanner.constructor | deribit_arb/src/exec/mod.rs:41-43 | the planner holds the client and configuration it was given |
| ArbExec.ExecutionPlanner.EnsureCombo | deribit_arb/src/exec/mod.rs:73-97 | a payload id is reused without touching the mock; otherwise one combo named after strategy, currency, expiry and leg count is registered and its id returned |
| ArbExec.ExecutionPlanner.Plan | deribit_arb/src/exec/mod.rs:45-71 | the result is PlanOutcome for the mock's current length, and the mock gains exactly one combo only when a combo had to be registered |
| ArbDetectCommon.DepthLevel | deribit_arb/src/detect/mod.rs:93-112 | a top-of-book level is kept, unchanged, exactly when it is present and shows at least the minimum depth |
| ArbDetectCommon.MaxAmount | deribit_arb/src/detect/mod.rs:1324-1329 | `Option::max` of the two displayed amounts: None only when both sides are missing, otherwise at least every present amount and equal to one of them |
| ArbDetectCommon.MaxContractsFromTicket | deribit_arb/src/detect/mod.rs:1314-1333 | the ticket size is never negative |
| ArbDetectCommon.TicketSizeWithoutNotional | deribit_arb/src/detect/mod.rs:1315-1323 | a zero index price or a zero per-contract notional sizes the ticket at the minimum depth |
| ArbDetectCommon.TicketSizeWithNotional | deribit_arb/src/detect/mod.rs:1319-1332 | otherwise the size is the ticket over the per-contract notional, capped by the larger displayed amount (the minimum depth when neither side shows one) and floored at zero |
| ArbDetectCommon.TicketSizeWithinCap | deribit_arb/src/detect/mod.rs:1319-1332 | with a positive notional and a non-negative ticket, the size never costs more than the ticket and never exceeds the larger displayed amount |
| ArbDetectCommon.IsDailyOption | deribit_arb/src/detect/mod.rs:1387-1392 | an option is daily exactly when its name contains "-D" or at most one day is left to expiry at the given instant |
| ArbDetectCommon.DetectorFeesDefined | deribit_arb/src/detect/mod.rs:208-244 | a detector's fee context has legs of one settlement only, so the fee engine never fails and its `?` never aborts a detector |
| ArbDetectCommon.FromUsd | deribit_arb/src/detect/mod.rs:289-298 | USD amounts stay as they are for USDC settlement; coin settlement divides by the index, giving zero when the index is zero |
| ArbDetectCommon.FromUsdRoundTrip | deribit_arb/src/detect/mod.rs:154-157 | with a coin index present, converting a USD amount to the settlement currency and back (the debit conversion) recovers it |
| ArbDetectCommon.EdgeRatio | deribit_arb/src/detect/mod.rs:252-253 | a positive edge gives a positive edge-to-fee ratio |
| ArbDetectCommon.EdgeRatioOverFees | deribit_arb/src/detect/mod.rs:252-253 | fees of at least one cent are taken as they are: the ratio times the fees is the edge |
| ArbDetectCommon.ComputeEdgeBps | deribit_arb/src/detect/mod.rs:1371-1385 | zero contracts or a zero index give zero basis points |
| ArbDetectCommon.EdgeBpsScale | deribit_arb/src/detect/mod.rs:1380-1384 | on a nonzero notional, the basis points times the index notional are ten thousand times the edge, for either settlement |
| ArbDetectCommon.EdgeBpsSign | deribit_arb/src/detect/mod.rs:1371-1385 | a positive edge on a positive notional is a positive number of basis points |
| ArbDetectCommon.CollectPairs | deribit_arb/src/detect/mod.rs:85-312 | the loop over `windows(2)` pushes, in order, exactly the results the window evaluation accepts |
| ArbDetectCommon.CollectTriples | deribit_arb/src/detect/mod.rs:324-524 | the loop over `windows(3)` pushes, in order, exactly the results the window evaluation accepts |
| ArbDetectCommon.PairsSomesAll | deribit_arb/src/detect/mod.rs:85-312 | a property of every result the pair evaluation accepts holds of every collected result |
| ArbDetectCommon.TriplesSomesAll | deribit_arb/src/detect/mod.rs:324-524 | a property of every result the triple evaluation accepts holds of every collected result |
| ArbDetectCommon.GroupBy | deribit_arb/src/detect/mod.rs:1353-1368 | `entry(key).or_default().push(x)` yields one group per key that occurs, each holding exactly that key's entries in input order |
| ArbDetectCommon.MembersSound | deribit_arb/src/detect/mod.rs:1354-1366 | a group holds only entries of the input that have the group's key |
| ArbDetectCommon.MemberOfOwnGroup | deribit_arb/src/detect/mod.rs:1354-1366 | every entry of the input lands in the group of its own key |
| ArbDetectCommon.EnumeratesStep | deribit_arb/src/detect/mod.rs:551 | visiting one more unvisited key of a `HashMap` extends a visit order that lists each visited key once |
| ArbDetectCommon.ConcatMembers | deribit_arb/src/detect/mod.rs:551-731 | an element is in the concatenation of the groups' results exactly when it is in one of them |
| ArbDetectCommon.ConcatStep | deribit_arb/src/detect/mod.rs:551-731 | extending the results with one more group appends that group's results |
| ArbDetectSpreads.VerticalSidesOf | deribit_arb/src/detect/mod.rs:89-137 | only same-kind pairs qualify; calls buy the low-strike ask and sell the high-strike bid, puts buy the high-strike ask and sell the low-strike bid, and a pair qualifies exactly when both of those levels show the minimum depth |
| ArbDetectSpreads.VerticalAt | deribit_arb/src/detect/mod.rs:85-310 | a window of two adjacent strikes yields a vertical exactly when it passes every gate of the loop body (sides, positive size, non-negative debit, increasing strikes, debit within payout plus 1e-6, positive edge, minimum edge, minimum ratio) |
| ArbDetectSpreads.VerticalAtProperties | deribit_arb/src/detect/mod.rs:139-310 | an accepted vertical buys one and sells one of the chosen sides, never exceeds either level's depth or the ticket, pays a non-negative debit no larger than the payout, and its edge is payout less debit less fees |
| ArbDetectSpreads.VerticalAtEmitted | deribit_arb/src/detect/mod.rs:243-309 | an accepted vertical passes the emission gates and carries the group's currency, settlement, expiry and the pair's two strikes |
| ArbDetectSpreads.VerticalWindowsFromGroup | deribit_arb/src/detect/mod.rs:85-310 | every collected vertical passes the gates and carries the group's key |
| ArbDetectSpreads.DetectVerticals | deribit_arb/src/detect/mod.rs:73-313 | the result is exactly the accepted windows of the strike-sorted group, in order; each is an emitted vertical of the group; there are fewer results than instruments |
| ArbDetectSpreads.VerticalsAdjacent | deribit_arb/src/detect/mod.rs:81-88 | a vertical pairs strike-adjacent instruments: no instrument of the group has a strike strictly between its two strikes |
| ArbDetectSpreads.FlyLevelsOf | deribit_arb/src/detect/mod.rs:328-345 | a butterfly qualifies exactly when the low ask, the middle bid and the high ask all show the minimum depth |
| ArbDetectSpreads.FlySize | deribit_arb/src/detect/mod.rs:346-350 | the size is within both asks' depth, within half the middle bid's depth (it is sold twice), and within the ticket |
| ArbDetectSpreads.ButterflyAt | deribit_arb/src/detect/mod.rs:324-522 | a window of three adjacent strikes yields a butterfly exactly when it passes every gate of the loop body |
| ArbDetectSpreads.ButterflyAtProperties | deribit_arb/src/detect/mod.rs:346-522 | an accepted butterfly buys the outer strikes once and sells the middle twice, respects the depth and the ticket, is entered for a credit larger than its fees, and its edge is that credit less the fees |
| ArbDetectSpreads.ButterflyOf | deribit_arb/src/detect/mod.rs:355-451 | the recorded edge is minus the USD debit and the fees, and the recorded cost is the debit of the chosen size |
| ArbDetectSpreads.ButterflyAtEmitted | deribit_arb/src/detect/mod.rs:451-521 | an accepted butterfly passes the emission gates and carries the group's key and the window's three strikes |
| ArbDetectSpreads.ButterflyWindowsFromGroup | deribit_arb/src/detect/mod.rs:324-522 | every collected butterfly passes the gates and carries the group's key |
| ArbDetectSpreads.DetectButterflies | deribit_arb/src/detect/mod.rs:314-525 | the result is exactly the accepted three-strike windows of the strike-sorted group, in order; each is an emitted butterfly of the group; there are at most n-2 results |
| ArbDetectBoxes.UsdcOnly | deribit_arb/src/detect/mod.rs:744-747 | the grouping loop keeps exactly the USDC-settled entries |
| ArbDetectBoxes.OfKind | deribit_arb/src/detect/mod.rs:759-768 | the calls (or puts) of a group are exactly its entries of that kind |
| ArbDetectBoxes.FindByStrike | deribit_arb/src/detect/mod.rs:773-779 | `find` by strike: None exactly when no entry has the strike; otherwise the first entry that has it |
| ArbDetectBoxes.BoxQuadOf | deribit_arb/src/detect/mod.rs:772-782 | a box's four instruments exist exactly when a put is found at each call strike, and the puts are the first ones found |
| ArbDetectBoxes.BoxLevelsOf | deribit_arb/src/detect/mod.rs:784-817 | a box qualifies exactly when the low call's ask, the high call's bid, the high put's ask and the low put's bid all show the minimum depth |
| ArbDetectBoxes.BoxSize | deribit_arb/src/detect/mod.rs:819-824 | the size is within the depth of all four levels and within the ticket of the low call |
| ArbDetectBoxes.BoxAt | deribit_arb/src/detect/mod.rs:771-1007 | a pair of neighbouring calls yields a box exactly when it passes every gate of the loop body (puts found, depth, positive size, positive edge, minimum edge; no ratio gate) |
| ArbDetectBoxes.BoxAtIsBoxOf | deribit_arb/src/detect/mod.rs:771-1007 | an accepted pair records the box built from its four instruments and their levels |
| ArbDetectBoxes.BoxOfShape | deribit_arb/src/detect/mod.rs:829-860 | the recorded box buys the low call and the high put and sells the high call and the low put, one each, at the call strikes and the group's expiry |
| ArbDetectBoxes.BoxOfPayout | deribit_arb/src/detect/mod.rs:946-949 | the recorded size is the box size and the payout is the strike distance times that size and the contract size |
| ArbDetectBoxes.BoxOfEdge | deribit_arb/src/detect/mod.rs:946-953 | the recorded edge is the payout less the combo price (taken as USD) less the fees |
| ArbDetectBoxes.BoxAtProperties | deribit_arb/src/detect/mod.rs:771-1007 | an accepted box passes the edge gates, uses puts of the list at the two call strikes, pays out the strike distance, and its edge is that payout less the combo price and the fees |
| ArbDetectBoxes.BoxAtSizing | deribit_arb/src/detect/mod.rs:819-1005 | an accepted box is no larger than any of its four levels or the ticket, reports its USD edge as its native edge, and executes as one IOC combo limited at its cost |
| ArbDetectBoxes.BoxGroupSound | deribit_arb/src/detect/mod.rs:744-756 | every entry of a box group is a USDC-settled entry of the snapshot with the group's key |
| ArbDetectBoxes.BoxAtLegs | deribit_arb/src/detect/mod.rs:758-1007 | a box over two strike-ordered calls and the puts of one USDC group is made of four instruments of that group in the shape of a box |
| ArbDetectBoxes.BoxAtFrom | deribit_arb/src/detect/mod.rs:758-1007 | such a box, over instruments of the snapshot, is an emitted box of the snapshot |
| ArbDetectBoxes.BoxWindowFrom | deribit_arb/src/detect/mod.rs:771-1007 | every accepted window of a group's sorted calls is an emitted box of the snapshot |
| ArbDetectBoxes.SortedCallsNeighbours | deribit_arb/src/detect/mod.rs:759-771 | neighbouring sorted calls are two calls of the snapshot with the group's key, in strike order |
| ArbDetectBoxes.SortedPutsSound | deribit_arb/src/detect/mod.rs:759-770 | the sorted puts of a group are puts of the snapshot with the group's key |
| ArbDetectBoxes.BoxGroupFrom | deribit_arb/src/detect/mod.rs:758-1008 | everything one group's loop collects is an emitted box of the snapshot |
| ArbDetectBoxes.BoxPartsMembers | deribit_arb/src/detect/mod.rs:757-1009 | a box is among those collected over a sequence of group keys exactly when one of those groups yields it |
| ArbDetectBoxes.BoxPartsAll | deribit_arb/src/detect/mod.rs:735-1010 | when the keys visited are every key of the USDC entries, each once, the boxes collected are exactly those of all groups, each one a box of the snapshot |
| ArbDetectBoxes.BoxGroupScan | deribit_arb/src/detect/mod.rs:758-1008 | one group's body yields exactly the accepted windows of its strike-sorted neighbouring calls, against its strike-sorted puts |
| ArbDetectBoxes.DetectBoxes | deribit_arb/src/detect/mod.rs:735-1010 | the groups' accepted neighbouring-call windows concatenated in some order that visits every (expiry, settlement, currency) key of the USDC entries once; a box is reported exactly when some group yields it; each passes the emission gates and is built from two calls and two puts of the snapshot, all USDC-settled with one expiry and currency, the puts at the calls' strikes |
| ArbDetectCalendars.CalendarLevelsOf | deribit_arb/src/detect/mod.rs:565-580 | a calendar qualifies exactly when the near expiry's bid and the far expiry's ask both show the minimum depth |
| ArbDetectCalendars.CalendarSize | deribit_arb/src/detect/mod.rs:581-584 | the size is within both levels' depth and the ticket of the near expiry |
| ArbDetectCalendars.CalendarAt | deribit_arb/src/detect/mod.rs:559-729 | a pair of neighbouring expiries yields a calendar exactly when it passes every gate of the loop body (distinct expiries, depth, positive size, positive USD credit, positive edge, minimum edge, minimum ratio) |
| ArbDetectCalendars.CalendarAtProperties | deribit_arb/src/detect/mod.rs:559-729 | an accepted calendar sells the near and buys the far expiry, respects both depths and the ticket, opens for a positive credit, its edge is that credit in USD less the fees, and it records no payout |
| ArbDetectCalendars.CallAndPutNoCalendar | deribit_arb/src/detect/mod.rs:540-550 | a call and a put never share a calendar group, whatever their expiries |
| ArbDetectCalendars.CalendarWindowFrom | deribit_arb/src/detect/mod.rs:552-729 | every accepted window of a group's expiry-sorted list is an emitted calendar over a same-key pair of the snapshot, near expiring first |
| ArbDetectCalendars.CalendarGroupFrom | deribit_arb/src/detect/mod.rs:552-730 | every calendar a group yields is emitted, opens for a positive USD credit, and sells the near and buys the far of two same-key entries of the snapshot |
| ArbDetectCalendars.CalendarPartsMembers | deribit_arb/src/detect/mod.rs:551-731 | a calendar is among those collected over a sequence of group keys exactly when one of those groups yields it |
| ArbDetectCalendars.CalendarPartsAll | deribit_arb/src/detect/mod.rs:527-733 | when the keys visited are every key of the snapshot, each once, the calendars collected are exactly those of all groups, each one emitted over a pair of the snapshot |
| ArbDetectCalendars.CalendarGroup | deribit_arb/src/detect/mod.rs:552-730 | one group's body yields, when calendars are allowed, exactly the accepted windows of neighbouring expiries of that group sorted by expiry, and nothing otherwise |
| ArbDetectCalendars.DetectCalendars | deribit_arb/src/detect/mod.rs:527-733 | nothing when the filter excludes calendars; otherwise the groups' accepted neighbouring-expiry windows concatenated in some order that visits every (currency, strike, settlement, kind) key once; a calendar is reported exactly when some group yields it; each is emitted, opens for a positive USD credit and sells the near and buys the far of two same-key entries; nothing is reported without such a pair |
| ArbDetectJelly.Place | deribit_arb/src/detect/mod.rs:1027-1039 | writing an entry touches only its own key and expiry, creating them when missing, and puts the entry in the slot of its kind; every other slot is unchanged |
| ArbDetectJelly.BucketsOfSound | deribit_arb/src/detect/mod.rs:1027-1039 | every slot of the filled buckets holds an entry of the snapshot with the slot's key, expiry and kind |
| ArbDetectJelly.PlaceSound | deribit_arb/src/detect/mod.rs:1033-1038 | writing an entry keeps every slot sound, the entry joining the input |
| ArbDetectJelly.LaterEntryWins | deribit_arb/src/detect/mod.rs:1035-1038 | a later entry overwrites an earlier one: an entry stays in its slot as long as no later entry has the same key, expiry and kind |
| ArbDetectJelly.BuildBuckets | deribit_arb/src/detect/mod.rs:1022-1039 | the bucket-filling loop leaves exactly the buckets of the whole snapshot |
| ArbDetectJelly.CompleteExpiries | deribit_arb/src/detect/mod.rs:1044-1048 | the `filter_map` keeps every expiry whose bucket holds both a call and a put, once each, with exactly that bucket's call and put |
| ArbDetectJelly.RollLevelsOf | deribit_arb/src/detect/mod.rs:1055-1090 | a roll qualifies exactly when the near call's ask, the near put's bid, the far call's bid and the far put's ask all show the minimum depth |
| ArbDetectJelly.RollSize | deribit_arb/src/detect/mod.rs:1092-1098 | the size is within all four levels' depth and the ticket of the near call |
| ArbDetectJelly.JellyAt | deribit_arb/src/detect/mod.rs:1055-1308 | a pair of neighbouring complete expiries yields a roll exactly when it passes every gate of the loop body (depth, positive size, negative USD debit, positive edge, minimum edge, minimum ratio) |
| ArbDetectJelly.JellyAtProperties | deribit_arb/src/detect/mod.rs:1055-1308 | an accepted roll buys the near call and the far put and sells the near put and the far call, respects every depth and the ticket, opens for a credit, and its edge is that credit less the fees |
| ArbDetectJelly.JellyWindowFrom | deribit_arb/src/detect/mod.rs:1053-1308 | every accepted window of a key's sorted complete expiries is an emitted roll over four entries of the snapshot |
| ArbDetectJelly.JellyGroupFrom | deribit_arb/src/detect/mod.rs:1053-1309 | everything one key's loop collects is an emitted roll of the snapshot |
| ArbDetectJelly.CompleteExpiriesIn | deribit_arb/src/detect/mod.rs:1043-1048 | the complete expiries of a key are built from entries of the snapshot of that key |
| ArbDetectJelly.CompleteListSorted | deribit_arb/src/detect/mod.rs:1043-1050 | however a bucket yields its complete expiries, sorting them by expiry gives the same list |
| ArbDetectJelly.JellyPartsFrom | deribit_arb/src/detect/mod.rs:1041-1311 | in any key order, every roll collected is an emitted roll of the snapshot |
| ArbDetectJelly.JellyPartsAll | deribit_arb/src/detect/mod.rs:1041-1311 | when every key of the buckets is visited once, a roll is collected exactly when some key yields it from its sorted complete expiries |
| ArbDetectJelly.JellyGroupScan | deribit_arb/src/detect/mod.rs:1041-1310 | one key's body lists the bucket's complete expiries and yields exactly the accepted windows of neighbouring expiries of that list sorted by expiry |
| ArbDetectJelly.DetectJellyRolls | deribit_arb/src/detect/mod.rs:1012-1312 | the keys' accepted neighbouring-expiry windows concatenated in some order that visits every (currency, strike, settlement) key once; a roll is reported exactly when some key yields it; each is emitted, opened for a credit, and built from a call and a put at each of two distinct expiries of one currency, strike and settlement of the snapshot |
| ArbDetectScan.GroupByExpiry | deribit_arb/src/detect/mod.rs:1342-1369 | one group per (currency, expiry, settlement, call/put) that occurs, each holding exactly that key's instruments in snapshot order |
| ArbDetectScan.ExpiryGroupsPartition | deribit_arb/src/detect/mod.rs:1354-1366 | the expiry groups partition the snapshot: every instrument is in its own key's group and in no other, and a group holds instruments of one currency, expiry, settlement and kind |
| ArbDetectScan.GroupScanResults | deribit_arb/src/detect/mod.rs:30-48 | what an allowed per-group detector returns for an expiry group is a scan result |
| ArbDetectScan.GroupFoundSound | deribit_arb/src/detect/mod.rs:31-47 | what an expiry group of the snapshot yields are scan results |
| ArbDetectScan.ScanGroup | deribit_arb/src/detect/mod.rs:31-47 | exactly the group's accepted strike-sorted vertical windows when verticals are allowed, followed by its accepted butterfly windows when butterflies are allowed; nothing when neither is; for a group of the snapshot, all are scan results |
| ArbDetectScan.ExpiryPartsStep | deribit_arb/src/detect/mod.rs:29-49 | visiting one more expiry group appends that group's findings |
| ArbDetectScan.ExpiryPartsAll | deribit_arb/src/detect/mod.rs:29-49 | when every expiry group key is visited once, an opportunity is collected exactly when some group yields it, and each is a scan result |
| ArbDetectScan.ScanExpiryGroups | deribit_arb/src/detect/mod.rs:29-49 | the groups' findings concatenated in some order that visits every (currency, expiry, settlement, call/put) key once; an opportunity is collected exactly when some expiry group yields it; each is a scan result |
| ArbDetectScan.ScanCalendars | deribit_arb/src/detect/mod.rs:50-54 | nothing when calendars are not allowed; otherwise every calendar group's findings, each group once; a calendar is returned exactly when an allowed calendar group yields it; each is a scan result |
| ArbDetectScan.BoxScanResults | deribit_arb/src/detect/mod.rs:55-59 | with boxes allowed, every box of the snapshot is a scan result |
| ArbDetectScan.ScanBoxes | deribit_arb/src/detect/mod.rs:55-59 | nothing when boxes are not allowed; otherwise every USDC box group's findings, each group once; a box is returned exactly when an allowed box group yields it; each is a scan result |
| ArbDetectScan.JellyScanResults | deribit_arb/src/detect/mod.rs:60-64 | with jelly rolls allowed, every roll of the snapshot is a scan result |
| ArbDetectScan.ScanJellyRolls | deribit_arb/src/detect/mod.rs:60-64 | nothing when jelly rolls are not allowed; otherwise every bucket key's findings, each key once; a roll is returned exactly when an allowed key yields it from its complete expiries; each is a scan result |
| ArbDetectScan.UnionFound | deribit_arb/src/detect/mod.rs:27-66 | the four detectors' concatenated findings hold exactly what some allowed detector finds |
| ArbDetectScan.Scan | deribit_arb/src/detect/mod.rs:27-71 | the result is sorted by net edge, best first, and is a permutation of the expiry groups' findings followed by the allowed calendars, boxes and jelly rolls; an opportunity is returned exactly when an allowed detector finds it; every entry is an emitted opportunity of a strategy the filter allows, built by that strategy's detector from instruments of the snapshot |
| StoreTypes.MsToNs | optstore/src/retrieve/normalize.rs:45 | milliseconds become nanoseconds by multiplying by one million, exactly for every timestamp small enough not to wrap a u64 |
| StoreSchema.KeysEqualIff | optstore/src/schema.rs:17-26 | two ticks share a de-duplication key exactly when they agree on instrument id, timestamp, price, size and event |
| StoreSchema.KeyIgnoresBook | optstore/src/schema.rs:17-26 | the book levels and the flags play no part in the key |
| StoreUtil.DayToPath | optstore/src/util.rs:13-19 | a day with exactly three '-'-separated parts becomes base/Y/M/D.opt, whose three new components join back to the day plus ".opt"; any other string becomes base/{day}.opt; the base is kept as a prefix |
| StoreUtil.DayToPathOfParts | optstore/src/util.rs:14-16 | a day assembled from three '-'-free parts is split back into exactly those parts |
| StoreUtil.DayToPathOfPlainName | optstore/src/util.rs:17 | a day without '-' is kept whole as the file name |
| StoreNormalize.RoundHalfAway | optstore/src/retrieve/normalize.rs:48 | `f64::round`: the result is within one half of the input, and a tie goes away from zero |
| StoreNormalize.PriceFp | optstore/src/retrieve/normalize.rs:48 | a price within the i64 range becomes its millionths, rounded to the nearest integer |
| StoreNormalize.SizeUnits | optstore/src/retrieve/normalize.rs:49 | a size within the u32 range is the truncated thousandths of the amount's magnitude |
| StoreNormalize.SizeIgnoresSign | optstore/src/retrieve/normalize.rs:49 | an amount and its negation give the same size |
| StoreNormalize.TickFrom | optstore/src/retrieve/normalize.rs:44-55 | a trade tick carries the normaliser's instrument id, event 1, no flags, empty book levels and the trade's timestamp in nanoseconds |
| StoreNormalize.CompleteIndices | optstore/src/retrieve/normalize.rs:40-43 | the positions of the trades that carry price, amount and timestamp: all of them, each once, in increasing order |
| StoreNormalize.TicksOf | optstore/src/retrieve/normalize.rs:39-59 | the j-th tick comes from the j-th complete trade, so the input order is kept and incomplete trades leave no tick |
| StoreNormalize.DecodeTrades | optstore/src/retrieve/normalize.rs:20-28 | decoding fails exactly when the body is not JSON or has no result object; a missing trades list decodes as empty |
| StoreNormalize.ToTicks | optstore/src/retrieve/normalize.rs:35-61 | a decode failure is returned as it is; otherwise the ticks are exactly those of the decoded trades |
| StoreFetch.EnsureInstrument | optstore/src/retrieve/deribit.rs:40-67 | the instrument check passes exactly on a success status; any other status reports an unknown instrument with the body's error message, when it has one, and the status |
| StoreFetch.FirstTimestampSpec | optstore/src/retrieve/deribit.rs:139-148 | the first timestamp is missing exactly when no trade has one, and otherwise belongs to a trade with no timestamped trade before it |
| StoreFetch.LastTimestampSpec | optstore/src/retrieve/deribit.rs:139-148 | the last timestamp is missing exactly when no trade has one, and otherwise belongs to a trade with no timestamped trade after it |
| StoreFetch.TimestampsTogether | optstore/src/retrieve/deribit.rs:139-148 | a page has a first timestamp exactly when it has a last one |
| StoreFetch.FirstBeforeLast | optstore/src/retrieve/deribit.rs:139-148 | the first timestamp comes from a trade no later in the page than the last one's |
| StoreFetch.ScanTimestamps | optstore/src/retrieve/deribit.rs:139-148 | the loop over a page's trades yields exactly its first and last timestamps |
| StoreFetch.NextResume | optstore/src/retrieve/deribit.rs:152-157 | the next page starts from the page's continuation when it has one, and is missing exactly when there is neither a continuation nor a timestamped trade |
| StoreFetch.PageChunk | optstore/src/retrieve/deribit.rs:150-173 | a chunk keeps the page's body and resume token, spans its first to its last trade in nanoseconds, and is 0..0 when no trade has a timestamp |
| StoreFetch.PageOutcome | optstore/src/retrieve/deribit.rs:107-173 | a page request yields a chunk only for an answer that arrived and parses, and the chunk holds that parse |
| StoreFetch.PageOutcomeSpec | optstore/src/retrieve/deribit.rs:107-173 | a page request succeeds exactly when the answer is a success that parses, yielding the page's chunk; a 400 answer rejects the instrument with the body's message |
| StoreFetch.RequestStep | optstore/src/retrieve/deribit.rs:84-105 | sending one more request within the page limit, from the token the previous page handed over, keeps the request chain |
| StoreFetch.ChunkStep | optstore/src/retrieve/deribit.rs:174-192 | keeping the chunk of a page that asks for another keeps every kept chunk continuing |
| StoreFetch.LastChunk | optstore/src/retrieve/deribit.rs:182-190 | a page that does not ask for another (no has_more, fewer than 1000 trades, or no token) is the last chunk |
| StoreFetch.LimitReached | optstore/src/retrieve/deribit.rs:84-88 | reaching the page limit completes the chunks |
| StoreFetch.FetchPages | optstore/src/retrieve/deribit.rs:79-195 | requests are chained from resume_from (or "0") through each page's handed-over token within the page limit; success returns one chunk per request, all but the last asking for another; an error is that of the last request |
| StoreFetch.Fetch | optstore/src/retrieve/deribit.rs:72-196 | quotes are refused and an unknown instrument is reported before any page is requested; otherwise the page loop's requests, limit, chaining and chunks as above; every error is explained by FetchFailure: quotes, the instrument check, or a request within the page limit after pages that all succeeded and asked for another |
| StoreFetch.PageFailureExplained | optstore/src/retrieve/deribit.rs:79-195 | a chained request sequence whose last request fails is a fetch failure with that request's error |
| StoreFetch.StoppingPageNoFailure | optstore/src/retrieve/deribit.rs:79-195 | when the first page succeeds and asks for no other, the fetch cannot fail |
| StoreCache.CacheManifest.constructor | optstore/src/retrieve/cache.rs:113-122 | a new manifest is version 1 with the source, the spec's symbol and day, no parts and no resume token |
| StoreCache.CacheManifest.Loaded | optstore/src/retrieve/cache.rs:59-64 | a manifest read back from disk holds exactly the stored value |
| StoreCache.CacheManifest.AppendPart | optstore/src/retrieve/cache.rs:124-127 | the entry becomes the last part, the earlier parts and the header fields stay, and the resume token becomes the entry's (None included) |
| StoreCache.DayTextDigits | optstore/src/retrieve/cache.rs:82 | the zero-padded day is at least 8 digits that read back as the day number, and exactly 8 for days below 10^8 |
| StoreCache.ParseThreeFields | optstore/src/retrieve/cache.rs:83 | 8 digits cut at 4 and 6 read as YYYY, MM and DD whose weighted sum is the whole number |
| StoreCache.PartitionDirLayout | optstore/src/retrieve/cache.rs:81-89 | the partition directory is root/symbol/YYYY/MM/DD with 4, 2 and 2 digits that spell the day number back for days below 10^8 |
| StoreCache.PartitionDirInjective | optstore/src/retrieve/cache.rs:81-89 | two partitions of days below 10^8 share a directory only for the same symbol and day |
| StoreCache.PartFileNameLayout | optstore/src/retrieve/cache.rs:36 | a part file name is "part-", at least four digits spelling the part number, then ".jsonl.zst" |
| StoreCache.PartNumberOfFileName | optstore/src/retrieve/cache.rs:36 | a part file name reads back as its part number |
| StoreCache.PartFileNameInjective | optstore/src/retrieve/cache.rs:36 | distinct part numbers get distinct file names |
| StoreCache.PartPathsApart | optstore/src/retrieve/cache.rs:34-37 | a part file never has the manifest's path, and two part paths of one partition agree exactly when their numbers do |
| StoreCache.NewlineCount | optstore/src/retrieve/cache.rs:46 | the row count is at most the byte count, and zero exactly when the data has no newline |
| StoreCache.NewlineCountAppend | optstore/src/retrieve/cache.rs:46 | rows add up over concatenated data |
| StoreCache.CacheManager.constructor | optstore/src/retrieve/cache.rs:24-26 | a manager over a root and the files already under it |
| StoreCache.CacheManager.WriteChunk | optstore/src/retrieve/cache.rs:28-53 | the chunk bytes replace the part's file in the partition directory and nothing else changes; the result names that path, the compressed size and the newline count |
| StoreCache.CacheManager.LoadManifest | optstore/src/retrieve/cache.rs:59-69 | a manifest is found exactly when the partition's manifest.json exists, and it is the stored value |
| StoreCache.CacheManager.StoreManifest | optstore/src/retrieve/cache.rs:71-79 | the manifest replaces the partition's manifest.json, no part file changes, and loading it back gives the same value |
| StoreRetrieve.KeepDigits | optstore/src/retrieve/mod.rs:257 | the kept characters are exactly the ASCII digits of the argument, all digits |
| StoreRetrieve.KeepDigitsAppend | optstore/src/retrieve/mod.rs:257 | filtering the digits distributes over concatenation |
| StoreRetrieve.KeepDigitsOfDigits | optstore/src/retrieve/mod.rs:257 | a string of digits is kept whole |
| StoreRetrieve.ParseDay | optstore/src/retrieve/mod.rs:256-261 | the day parses exactly when its digits are non-empty and read as a number within u32, giving that number; otherwise it is an invalid day |
| StoreRetrieve.IsoDateDigits | optstore/src/retrieve/mod.rs:257 | dropping the dashes of "YYYY-MM-DD" leaves "YYYYMMDD" |
| StoreRetrieve.FormatYmdValue | optstore/src/retrieve/mod.rs:258-259 | "YYYYMMDD" reads as the number YYYYMMDD |
| StoreRetrieve.ParseIsoDay | optstore/src/retrieve/mod.rs:256-261 | a "YYYY-MM-DD" argument of a year in 0..=9999 parses to its YYYYMMDD number |
| StoreRetrieve.WrapU64 | optstore/src/retrieve/mod.rs:251-252 | `i64 as u64` keeps non-negative values and adds 2^64 to negative ones |
| StoreRetrieve.DayBoundsMs | optstore/src/retrieve/mod.rs:242-254 | the bounds exist exactly when the day code names a date chrono accepts (otherwise an invalid day code); the start is that date's midnight in milliseconds, cast to u64, and the end is 86 399 999 later |
| StoreRetrieve.DateOfDayCode | optstore/src/retrieve/mod.rs:244-246 | the YYYYMMDD number of a date splits back into that date |
| StoreRetrieve.DayBoundsValue | optstore/src/retrieve/mod.rs:242-254 | from 1970 on, the bounds of a date's number are its first millisecond and the one 86 399 999 later, without wrap-around |
| StoreRetrieve.DayBoundsCoverDay | optstore/src/retrieve/mod.rs:249-252 | from 1970 on, both bounds fall on the date and the milliseconds just outside them do not: the bounds cover exactly that UTC day |
| StoreRetrieve.DayCovered | optstore/src/retrieve/mod.rs:250 | 24 hours less one millisecond after the start of a day is the same day, and the milliseconds just outside are not |
| StoreRetrieve.InRangeTicksMembers | optstore/src/retrieve/mod.rs:280-283 | the ticks counted are exactly those whose timestamp lies in the window |
| StoreRetrieve.KeySetMembers | optstore/src/retrieve/mod.rs:284 | a key is in the seen set exactly when some counted tick has it |
| StoreRetrieve.NormalizeAndDedup | optstore/src/retrieve/mod.rs:267-291 | a decode error is passed on and a chunk without ticks gives no summary, both leaving the seen set alone; otherwise unique plus duplicates is the number of ticks in the window, their keys join the seen set, and unique is the number of new keys |
| StoreRetrieve.DedupTicks | optstore/src/retrieve/mod.rs:278-289 | the counting loop: unique plus duplicates is the number of ticks in the window, the seen set gains exactly their keys, and unique counts the keys that were new |
| StoreRetrieve.Insert | optstore/src/retrieve/mod.rs:284 | `HashSet::insert` adds the key and answers true exactly when it was absent |
| StoreRetrieve.Clamp01 | optstore/src/retrieve/mod.rs:309-310 | the clamp lies in [0, 1] and keeps values already there |
| StoreRetrieve.Fraction | optstore/src/retrieve/mod.rs:301-302 | a point of the window is a fraction in [0, 1], 0 at its start and 1 at its end |
| StoreRetrieve.FractionMonotone | optstore/src/retrieve/mod.rs:301-302 | a later point is never a smaller fraction |
| StoreRetrieve.ProgressRatioForChunk | optstore/src/retrieve/mod.rs:293-303 | no ratio exactly for an empty window; otherwise a ratio in [0, 1] that is 0 before the window and 1 at or after its end |
| StoreRetrieve.ProgressRatioMonotone | optstore/src/retrieve/mod.rs:293-303 | a chunk that ends later never reports less progress |
| StoreRetrieve.ProgressRatioFromManifest | optstore/src/retrieve/mod.rs:305-322 | the resumed progress always lies in [0, 1] |
| StoreRetrieve.ProgressFromToken | optstore/src/retrieve/mod.rs:306-312 | a numeric resume token after the window start is read as the millisecond reached, capped at the window end |
| StoreRetrieve.ProgressFromLastPart | optstore/src/retrieve/mod.rs:314-320 | without a token, the resumed progress is what the last part's chunk reported |
| StoreRetrieve.HmsText | optstore/src/retrieve/mod.rs:332-338 | the text always ends in a seconds unit |
| StoreRetrieve.HumanDuration | optstore/src/retrieve/mod.rs:324-339 | "unknown" exactly for a negative duration |
| StoreRetrieve.HumanDurationOfSplit | optstore/src/retrieve/mod.rs:328-338 | a whole number of seconds h*3600+m*60+s with m, s under 60 is written as h, m and s, leading zero units dropped and hours not carried into days |
| StoreRetrieve.HumanDurationRoundsHalfUp | optstore/src/retrieve/mod.rs:328 | half a second rounds up: 59.5 s is written as one minute |
| StoreRetrieve.InstrumentIdFromHash | optstore/src/retrieve/mod.rs:263-265 | the id is the low 32 bits of the hash: the hash itself when it fits, and congruent to it modulo 2^32 |
| StoreRun.Plan | optstore/src/retrieve/mod.rs:104-144 | planning succeeds exactly when the day parses and names a date, failing with the first of those errors; the spec carries the symbol, day and kind, the window is the day's bounds, `--resume` extends the stored manifest and resumes from its token while a fresh run starts a new manifest from the first page, and a page limit of 0 means none |
| StoreRun.ResumeFromStored | optstore/src/retrieve/mod.rs:120-140 | with `--resume`, a stored manifest is the one extended and its resume token is where the fetch starts |
| StoreRun.PartsFor | optstore/src/retrieve/mod.rs:165-188 | one manifest entry per chunk |
| StoreRun.PartsForEach | optstore/src/retrieve/mod.rs:165-188 | entry i records chunk i written as part first+i: its span, compressed bytes, newline rows and resume token |
| StoreRun.SumsSnoc | optstore/src/retrieve/mod.rs:128-129 | the totals grow by the rows and bytes of each appended part |
| StoreRun.ExtendedStep | optstore/src/retrieve/mod.rs:180-188 | appending one more chunk appends one more entry, numbered on from the manifest's own, and moves the resume token to it |
| StoreRun.ExtendedLength | optstore/src/retrieve/mod.rs:165-188 | the extended manifest has one part per chunk more than before |
| StoreRun.WrittenStep | optstore/src/retrieve/mod.rs:167 | writing one more chunk writes one more part file |
| StoreRun.AllDecodeEach | optstore/src/retrieve/mod.rs:169-175 | when every chunk got past normalisation, each one decodes |
| StoreRun.DecodeFailureBreaksAll | optstore/src/retrieve/mod.rs:169-175 | one chunk that does not decode is enough for the run not to get past normalisation |
| StoreRun.WritePart | optstore/src/retrieve/mod.rs:166-229 | one turn of the chunk loop: the chunk's part file is written after the manifest's last part; a chunk that does not decode leaves the manifest as it was, otherwise its entry is appended |
| StoreRun.WriteParts | optstore/src/retrieve/mod.rs:165-229 | the chunk loop writes every chunk up to the first that does not decode, appends an entry for each one before it, never touches a manifest file, and keeps the row and byte totals equal to the sums over the manifest's parts |
| StoreRun.Run | optstore/src/retrieve/mod.rs:104-240 | it fails only on a bad day, a failed fetch or a chunk that does not decode. A bad day or a failed fetch changes nothing on disk. A failed fetch happens only for the deribit source, and only because quotes are refused, the instrument check fails, or a page request the loop sends (within the page limit, every earlier page having succeeded and asked for another) answers with that error. Quotes always fail, and so does a failing instrument check. Past a good plan and fetch, the run succeeds exactly when every chunk decodes, so an unknown source, which fetches nothing, always succeeds. On success the fetched chunks are the parts after the manifest's own and the extended manifest is stored. Otherwise the first chunk that does not decode ends the run, with the part files up to it written and the stored manifest as it was |
| StoreRun.WriteAndStore | optstore/src/retrieve/mod.rs:165-239 | once the chunks are fetched they are written as parts. It succeeds exactly when all chunks decode, and then the extended manifest is stored with totals over all its parts. Otherwise the first chunk that does not decode ends it, after its part file and those before it are written, and no manifest is stored |
| StoreRun.ExtendedKeepsNumbering | optstore/src/retrieve/mod.rs:165-228 | parts numbered 0, 1, 2, ... stay so numbered after a run |
| StoreRun.WrittenFileHoldsChunk | optstore/src/retrieve/mod.rs:166-167 | every written part file holds its own chunk's bytes |
| StoreRun.WrittenLastKeepsPart | optstore/src/retrieve/mod.rs:166-167 | writing the last chunk leaves the part files of the earlier chunks as they were |
| StoreRun.WrittenFilesKeepOthers | optstore/src/retrieve/mod.rs:166-167 | files that are not among the written parts are left as they were |
| StoreRun.RowsOfParts | optstore/src/retrieve/mod.rs:177 | the rows recorded for the parts of a run are the newlines of everything fetched |
| StoreRun.SumsAppend | optstore/src/retrieve/mod.rs:128-129 | totals of an extended manifest add the new parts' totals to the old |
| OldestEth.FetchAllInstruments | oldest_eth_options/src/main.rs:244-276 | the instruments of every host that answered, folded in host by host and record by record into one map keyed by name; a failing host is skipped |
| OldestEth.MergedNames | oldest_eth_options/src/main.rs:257-263 | a name is in the merged map exactly when some fetched record carries it |
| OldestEth.MergedKeepsFirst | oldest_eth_options/src/main.rs:257-263 | the entry of a name is its first record, only the creation time being updated |
| OldestEth.MergedCreationIsOldest | oldest_eth_options/src/main.rs:257-263 | the creation time kept for a name is the earliest among its records, and is one of them |
| OldestEth.MergedUnderOwnName | oldest_eth_options/src/main.rs:257-263 | every instrument of the map is stored under its own name |
| OldestEth.ProbeOrder | oldest_eth_options/src/main.rs:113-115 | the map's instruments, each once, sorted by creation time |
| OldestEth.OldestTrades | oldest_eth_options/src/main.rs:303-333 | at most one sample per host; trades are returned only when non-empty, and then the last sample counts exactly those trades |
| OldestEth.OldestTradesSamples | oldest_eth_options/src/main.rs:308-318 | every sample is of the instrument searched for, and when nothing is found every sample counted no trades |
| OldestEth.OldestTradesFound | oldest_eth_options/src/main.rs:308-332 | trades are found if and only if some host answers with trades |
| OldestEth.OldestTradesFromFirstHost | oldest_eth_options/src/main.rs:308-320 | the trades found are those of the first host, in the order asked, that has any |
| OldestEth.FetchOldestTrades | oldest_eth_options/src/main.rs:303-333 | the host loop returns what the search over the hosts finds and pushes its samples after those already collected |
| OldestEth.ProbeFindsFirst | oldest_eth_options/src/main.rs:136-231 | the probe finds an instrument if and only if some instrument of the list has trades, and then finds the first such instrument, with non-empty trades |
| OldestEth.ProbeFindsOldest | oldest_eth_options/src/main.rs:113-231 | probing a list sorted by creation finds an instrument no older than any other instrument with trades |
| OldestEth.ProbeInstruments | oldest_eth_options/src/main.rs:136-231 | the probe loop returns what the probe over the list finds, with the samples of every probe made |
| OldestEth.ProbeTrades | oldest_eth_options/src/main.rs:136-231 | the trades the probe reports for its instrument are those the host search returns for that instrument |
| OldestEth.FindOldestWithTrades | oldest_eth_options/src/main.rs:110-241 | it fails exactly when no host lists an instrument; otherwise, for the merged instruments sorted by creation, its samples are those of the probe over that list and it reports the instrument and trades the probe finds, or that none has trades; the trades are those the first host with any returns, and no instrument with trades predates the one found |
| OldestEth.NoInstrumentsIffNoRecords | oldest_eth_options/src/main.rs:117-121 | the merged map is empty exactly when no host returned a record |
| OldestEth.FirstPositive | oldest_eth_options/src/main.rs:632-636 | the sample found is one of the entries with trades, and none is found only when no entry has trades |
| OldestEth.AggregatePositive | oldest_eth_options/src/main.rs:631-643 | the aggregate chosen for an instrument has trades exactly when one of its samples has |
| OldestEth.PositiveAndZeroCounts | oldest_eth_options/src/main.rs:649-657 | the positive count is of the instruments some sample found trades for, and the zero count is of the other sampled instruments |
| OldestEth.CountOverOrder | oldest_eth_options/src/main.rs:631-653 | one aggregate per instrument, in any order, makes the filtered count the number of instruments whose aggregate passes the filter |
| OldestEth.CountOverInstruments | oldest_eth_options/src/main.rs:631-653 | the counts do not depend on the map's iteration order: they count sampled instruments whose aggregate passes the filter |
| OldestEth.EstimateDownloadRequirements | oldest_eth_options/src/main.rs:614-734 | no estimate without instruments, samples or an instrument with trades; otherwise the sample size is the number of distinct instruments sampled, the ratios are the shares of instruments with trades and of those with more pages, the requests extrapolate to every instrument, and the dominant host is one that most chosen samples came from |
| OldestEth.Summarize | oldest_eth_options/src/main.rs:714-718 | the two ratios are the counts' fractions and the requests are the instruments plus the extra pages expected |
| OldestEth.GroupByInstrument | oldest_eth_options/src/main.rs:622-628 | the map holds one list per sampled instrument, the samples of that instrument in their order |
| OldestEth.KeysOf | oldest_eth_options/src/main.rs:631 | iterating a map yields every key exactly once |
| OldestEth.AggregatePerInstrument | oldest_eth_options/src/main.rs:630-644 | one aggregate per sampled instrument, each that of the instrument's first sample with trades, else its first sample |
| OldestEth.CountHosts | oldest_eth_options/src/main.rs:702-705 | each host's count is the number of aggregates from that host, and the map is empty only without aggregates |
| OldestEth.MaxByCount | oldest_eth_options/src/main.rs:706-709 | a host is chosen exactly when there is one, and its count is the largest |
| OldestEth.DominantHost | oldest_eth_options/src/main.rs:702-709 | the dominant host, present whenever there are aggregates, is chosen for at least as many instruments as any other host |
| OldestEth.EstimateCounts | oldest_eth_options/src/main.rs:649-691 | instruments with more pages are among those with trades, which are among those sampled |
| OldestEth.EstimateBounds | oldest_eth_options/src/main.rs:711-715 | both ratios are fractions, the share with trades is positive, and the estimate lies between one and two requests per instrument |
| OldestEth.Extrapolated | oldest_eth_options/src/main.rs:713-715 | the instruments plus the extra pages equal the instruments times one plus the product of the two ratios |
| OldestEth.TimestampParts | oldest_eth_options/src/main.rs:545-546 | the seconds and nanoseconds fit their casts without wrapping and together name the same instant in milliseconds |
| OldestEth.FormatTimestamp | oldest_eth_options/src/main.rs:544-552 | the RFC 3339 text of the instant when chrono can represent its date, otherwise the decimal digits of the milliseconds |
| OldestEth.TimestampInstant | oldest_eth_options/src/main.rs:548 | the instant built from the two parts is the timestamp itself |
| OldestEth.FormatDuration | oldest_eth_options/src/main.rs:763-782 | every duration text ends in the seconds unit |
| OldestEth.DurationTextRoundTrip | oldest_eth_options/src/main.rs:777-781 | the "h m s" text reads back as the seconds its units add up to |
| OldestEth.FormatDurationRoundTrip | oldest_eth_options/src/main.rs:768-781 | from a minute on, the text reads back as the rounded, saturated number of seconds |
| Civil.YearOfDay | optstore/src/retrieve/mod.rs:247-252 | the year whose days contain the given day |
| Civil.CivilFromDays | optstore/src/retrieve/mod.rs:247-252 | a well-formed date whose day count is the given day, so calendar dates and day numbers correspond |
| Civil.YearOfDayUnique | optstore/src/retrieve/mod.rs:247-252 | each day lies in exactly one year |
| Civil.MonthOfDayUnique | optstore/src/retrieve/mod.rs:247-252 | each day of a year lies in exactly one month |
| Civil.DaysFromCivilInjective | deribit_arb/src/model/mod.rs:284-293 | different dates have different day numbers |
| Civil.CivilDaysRoundTrip | deribit_arb/src/model/mod.rs:284-293 | turning a date into its day number and back gives the date |
| Civil.DaysFromCivilMonotone | deribit_arb/src/model/mod.rs:284-293 | an earlier date has a smaller day number |
| Civil.DaysFromCivilBound | deribit_arb/src/model/mod.rs:284 | every date chrono accepts lies within 10^8 days of 1970-01-01 |
| Civil.DateOfMs | oldest_eth_options/src/main.rs:548-549 | the UTC date of a millisecond timestamp is a well-formed date |
| Civil.SameDate | deribit_arb/src/exec/mod.rs:90 | two instants have the same UTC date exactly when they fall in the same floored day |
| Civil.DateOfTimestamp | deribit_arb/src/model/mod.rs:287-293 | a time of day on a date is an instant of that date, that far into the day |
| Civil.HoursMinutesSeconds | oldest_eth_options/src/main.rs:772-774 | hours, minutes under 60 and seconds under 60 that add up to the seconds |
| Civil.HoursMinutesSecondsUnique | oldest_eth_options/src/main.rs:772-774 | that split is the only one with minutes and seconds under 60 |
| Civil.TwoDigits | oldest_eth_options/src/main.rs:549 | two digits that read back as the number |
| Civil.FormatYear | deribit_arb/src/exec/mod.rs:90 | four digits that read back as the year for years 0 to 9999, otherwise a sign followed by at least four digits |
| Civil.FormatYmd | deribit_arb/src/exec/mod.rs:90 | eight digits for a year from 0 to 9999 |
| Civil.FormatYmdDigits | deribit_arb/src/exec/mod.rs:90 | the eight digits read back as the year, month and day |
| Civil.Rfc3339 | oldest_eth_options/src/main.rs:549 | the RFC 3339 text of an instant is at least "YYYY-MM-DDTHH:MM:SS+00:00" long |
| Text.AsciiUpper | deribit_arb/src/model/mod.rs:27 | same length, each character mapped to its ASCII upper case |
| Text.AsciiLower | deribit_arb/src/config.rs:103 | same length, each character mapped to its ASCII lower case |
| Text.TrimStart | deribit_arb/src/config.rs:139 | a suffix of the text that does not start with whitespace, everything dropped before it being whitespace |
| Text.TrimEnd | deribit_arb/src/config.rs:139 | a prefix of the text that does not end with whitespace, everything dropped after it being whitespace |
| Text.SplitOn | deribit_arb/src/model/mod.rs:302 | splitting gives at least one piece |
| Text.SplitCount | deribit_arb/src/model/mod.rs:302-305 | one piece more than there are separators |
| Text.SplitPiecesHaveNoSeparator | optstore/src/util.rs:14 | no piece holds the separator |
| Text.JoinSplit | optstore/src/util.rs:14 | joining the pieces with the separator gives the text back |
| Text.SplitJoin | optstore/src/util.rs:14 | splitting separator-free pieces joined by the separator gives the pieces back |
| Text.NatToString | optstore/src/retrieve/mod.rs:307 | the decimal digits of a number, without a leading zero |
| Text.ParseNatToString | optstore/src/retrieve/mod.rs:307 | a number's decimal digits read back as the number |
| Text.PadZeros | deribit_arb/src/exec/mod.rs:90 | the digits left-padded with zeros to the width |
| Text.PadZerosValue | deribit_arb/src/exec/mod.rs:90 | zero padding does not change the number the digits spell |
| Text.ParseDigitsAppend | optstore/src/retrieve/mod.rs:259 | the digits of a concatenation spell the first part shifted left by the second part's length, plus the second part |
| Text.ParseDigitsBound | optstore/src/retrieve/mod.rs:259 | k digits spell a number below 10^k |
| Text.ParseUnsigned | optstore/src/retrieve/mod.rs:259 | a value is only ever within the type's range; only text of ASCII digits, with at least one digit and at most a single leading '+', is accepted; digits, or '+' then digits, give their value, or an overflow error above the maximum; the empty text is rejected |
| Text.ParseUnsignedNatToString | optstore/src/retrieve/mod.rs:307 | a number in range parses back from its decimal digits |
| Text.ParseDecimalDigits | deribit_arb/src/model/mod.rs:320 | a string of digits parses as the integer it spells |
| Text.ParseDecimalNat | deribit_arb/src/model/mod.rs:320 | a number's decimal digits parse back as that number |
| Text.ParseDecimalFraction | deribit_arb/src/model/mod.rs:320-321 | digits, a point, then digits parse as the whole part plus the fraction digits scaled by their count |
| Text.ParseDecimalSigns | deribit_arb/src/model/mod.rs:320-321 | a leading '-' negates the unsigned value and a leading '+' leaves it as it is |
| Text.ParseDecimalAccepts | deribit_arb/src/model/mod.rs:320-321 | anything accepted holds only digits and at most one '.', with a sign only in front |
| Text.DecimalValue | deribit_arb/src/model/mod.rs:320-321 | the value of digits, a point and digits lies between the whole part and the next integer |
| Sorting.Insert | deribit_arb/src/detect/mod.rs:81 | inserting into a sorted sequence keeps it sorted and adds exactly the element |
| Sorting.SortByKey | deribit_arb/src/detect/mod.rs:81 | the result is sorted by the key and is a permutation of the input |
| Sorting.SortStable | deribit_arb/src/detect/mod.rs:69 | elements with equal keys keep their input order |
| Sorting.NoKeyBetweenNeighbours | deribit_arb/src/detect/mod.rs:81-88 | no input element has a key strictly between two neighbours of the sorted output |
| Sorting.SortedNeighbours | deribit_arb/src/detect/mod.rs:81-88 | neighbours of the sorted output are input elements in key order |
| Sorting.SortedMembers | oldest_eth_options/src/main.rs:114-115 | sorting keeps exactly the input's elements |
| Sorting.DistinctKeysOnce | deribit_arb/src/detect/mod.rs:769-770 | with distinct keys, no element occurs twice |
| Sorting.SortedNeighboursDistinct | deribit_arb/src/detect/mod.rs:769-779 | with distinct keys, the sorted output strictly increases |
| Sorting.SortedDistinct | deribit_arb/src/detect/mod.rs:1050 | sorting keeps keys pairwise distinct |
| Sorting.StrictNeighboursDistinct | deribit_arb/src/detect/mod.rs:1050 | a sorted sequence whose neighbours differ in key has pairwise distinct keys |
| Sorting.SortedDistinctUnique | deribit_arb/src/detect/mod.rs:1050 | two sorted sequences with distinct keys and the same elements are equal |
| Sorting.SortDeterminedByMembers | deribit_arb/src/detect/mod.rs:1043-1050 | with distinct keys, the sorted list depends only on which elements there are, not on their input order |
| ArbConfig.StrategyOfKey | deribit_arb/src/config.rs:139-147 | a key that selects no strategy is reported as unknown with that key |
| ArbConfig.StaleQuoteKeys | deribit_arb/src/config.rs:144 | exactly the keys stale, stalequote and stale-quote select the stale-quote strategy |
| ArbConfig.JellyRollKeys | deribit_arb/src/config.rs:145 | exactly the keys jelly, jellyroll and jelly-roll select the jelly-roll strategy |
| ArbConfig.KnownKeys | deribit_arb/src/config.rs:139-147 | a key selects a strategy exactly when it is one of the ten spellings |
| ArbConfig.KeySelects | deribit_arb/src/config.rs:139-147 | a name whose key is a strategy's display name selects that strategy |
| ArbConfig.LowerOfUpper | deribit_arb/src/config.rs:103 | lower-casing an upper-cased text gives the lower-cased text |
| ArbModel.ComboPayload | deribit_arb/src/detect/mod.rs:259-271 | the payload a detector builds carries no combo id |
| ArbModel.CenturyYear | deribit_arb/src/model/mod.rs:317-319 | "20" followed by two year digits parses as that year of this century |
| ArbModel.ExampleNameComposed | deribit_arb/src/model/mod.rs:301 | the sample name BTC-25MAR23-42000-C is the name composed from its fields |
| ArbExec.NoDashInTag | deribit_arb/src/exec/mod.rs:87-91 | the expiry field of a combo name holds no '-' |
| ArbExec.NoDashInDisplays | deribit_arb/src/exec/mod.rs:84-86 | the strategy and currency fields of a combo name hold no '-' |
| Sorting.InsertStable | deribit_arb/src/detect/mod.rs:81 | inserting keeps the order of the elements of each key, placing the new one after them |
| OldestEth.SamplesForMember | oldest_eth_options/src/main.rs:622-628 | an instrument's list holds exactly the samples of that instrument |
| OldestEth.ChosenAggregate | oldest_eth_options/src/main.rs:631-643 | each grouped instrument has a non-empty list, and the sample chosen from it gives the instrument's aggregate |
| StoreRetrieve.InRangeTicks | optstore/src/retrieve/mod.rs:280-283 | the ticks kept are no more than those given |

## Left out

- deribit_arb/src/client/mod.rs: the JSON-RPC HTTP calls, the bearer-token cache behind its lock and the WebSocket reader task are network I/O and concurrency. The execution planner sees the combo API only through its in-memory implementation `MockComboApi`.
- deribit_arb/src/render/mod.rs, optstore/src/progress.rs and the progress messages of `run` (optstore/src/retrieve/mod.rs:190-226) are terminal output, CSV and progress bars. They are not part of this model.
- optstore/src/writer.rs, optstore/src/cli.rs, optstore/src/codec.rs, optstore/src/block.rs, both `lib.rs` and both `main.rs` entry points of deribit_arb and optstore are file-reading plumbing, argument parsing or declarations. They are not part of this model.
- Locks and `Arc` around the risk state and the option chain are left out. Each is a class with a single owner.
- Clock reads are the parameter `now`, in milliseconds. They come from `is_daily_option`, the chain's timestamps and freshness, and the request timers of oldest_eth_options.
- The xxh3 hash behind `instrument_id_from_symbol` is foreign code. The model takes its value as a parameter.
- Other foreign code and I/O are left out:
  - zstd compression, serde_json encoding and decoding, and file-system errors. The cache holds the decompressed bytes and the decoded values, and a compressed part's size is a parameter.
  - The HTTP client, its retries and the rate limiter. The upstream is a sequence of answers.
  - Logging.
- `rust_decimal`'s 28-digit rounding and overflow are not modelled. Decimals are exact reals, so a division such as ticket over notional may differ from the source in the last digit.
- `f64` arithmetic is modelled as exact reals, with no binary rounding, NaN or infinities. This covers the edge ratio and basis points of the detectors, the price and size conversions of the normaliser, and the durations and ratios of oldest_eth_options and optstore. Casts from `f64` to integers are written out with Rust's rounding and saturation.
- OldestEth.EstimateDownloadRequirements: the averaged time and byte estimates are left out, because they are sums of `f64` durations and sizes. The summary keeps the request count, the two ratios, the sample size and the dominant host.
- OldestEth.FormatDuration: `{:.1}` below a minute is modelled as rounding the tenths half up. The "unknown" answer for NaN and infinite inputs has no counterpart among the reals.
- StoreRetrieve.HumanDuration: the "unknown" answer covers negative durations only. Negative zero, NaN and infinities are not reals.
- StoreTypes.MsToNs models the release build's wrap-around of `u64` multiplication. A debug build panics instead, past the year 2554.
- StoreRetrieve.DayBoundsMs: a day before 1970 gives negative milliseconds, which the cast to `u64` wraps. This is modelled as written, with `WrapU64`.
- ArbDetectBoxes.DetectBoxes, ArbDetectCalendars.DetectCalendars and ArbDetectJelly.DetectJellyRolls visit their groups in `HashMap` order, which Rust does not fix. Each contract therefore says that the result is the groups' findings concatenated in some order that visits every key once. It does not say which order.
- ArbDetectJelly.DetectJellyRolls: the complete expiries of a bucket also come out of a `HashMap`, in an order that is not fixed. The contract quantifies over every such list. `CompleteListSorted` shows that the list sorted by expiry, which is all the windows see, is the same for every order.
- Text.ParseDecimal accepts an optional sign, then digits with at most one '.'. `Decimal::from_str` also accepts '_' digit separators, as in "42_000". Such a strike is refused here. The 28-digit limit of `rust_decimal` is not modelled either, as said above.
- ArbModel.ParseInstrumentName measures and slices the date part by characters. The source measures and slices it by bytes. A date part with a non-ASCII character can therefore pass or fail the length check differently, and it panics in the source when a slice boundary falls inside a character. Here it is sliced like any other text.
- StoreUtil.DayToPath models a path as a sequence of components and `Path::join` as appending one more. `Path::join` treats some components differently: an empty one adds only a trailing separator, one that starts with '/' replaces the whole path, and one holding '/' adds several components. Day texts of those shapes give a different path in the source.
- StoreRetrieve.DayBoundsMs returns bounds for 262143-12-31, the last date chrono accepts. There, chrono's `+ Duration::hours(24)` overflows and panics. The model has no counterpart for that panic.
- OldestEth.FormatTimestamp renders through `Civil.Rfc3339`, whose contract gives its minimum length. The digit-by-digit layout is stated by `Civil.FormatYmdDigits` and `Civil.TwoDigits`, not by the RFC 3339 function itself.
- Civil.Rfc3339 covers whole-millisecond instants only, which are the only ones `format_timestamp` builds.
- The estimate's averages, `human_bytes` and the colouring of durations and status codes in oldest_eth_options are output formatting over `f64`. They are not part of this model.
