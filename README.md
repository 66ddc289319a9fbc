# Portfolio tracker: verified model of the ledger, valuation and write-path rules

This project models the core of a small personal portfolio tracker in Dafny. The tracker
records market assets (shares, priced by a quote provider) and manual assets (valued by
hand), their transaction ledger (BUY, SELL, MANUAL_VALUE_UPDATE), groups and baskets. The
model covers five parts:

- **Position replay engine** (`app/services/portfolio.py`). It has:
  - the canonical transaction order;
  - the market replay into quantity and weighted-average cost, with its refusals;
  - the manual replay into invested total and latest value;
  - the whole-history validation gate.
- **Aggregation** (same file). It covers one dashboard row per asset, the dashboard snapshot
  (display order, per-group and overall totals, allocation shares), the per-asset history and
  the basket series. The basket series normalises the weights, takes the union of the
  members' days, forward-fills each member and rebases to 100.
- **Quote service** (`app/services/pricing.py`). A time-to-live cache of the latest price per
  symbol sits in front of a provider, and serves the cached price, marked stale, when the
  provider fails. The historical fetch returns nothing on failure.
- **Asset pages** (`app/routes/assets.py`):
  - numeric field rules and the transaction types each asset type takes;
  - building the candidate transaction;
  - revalidating the whole history before adding, editing (replace by id) or deleting a
    transaction;
  - the asset edit and delete rules.
- **Dashboard and basket routes** (`app/routes/dashboard.py`, `app/routes/baskets.py`):
  - asset creation with its opening transactions, all or nothing;
  - the quote-polling endpoint;
  - the chart date range;
  - basket creation with its member links and weights.

The imperative parts keep their form:

- The replay loops, the snapshot's accumulation loops, the series' forward-fill loop and the
  polling loop are methods with loop invariants. Each is proved equal to a specification
  function, and the properties are proved about those functions.
- The quote cache is a class, `Pricing.PricingService`, whose cache map the lookup updates.
- The database is a class, `Store.Database`, holding the tables as sequences with
  autoincrement counters. A rollback restores a saved copy of every table and counter.
- Route handlers are methods on it, and each is specified by a decision function of the old
  tables.

Modelling choices:

- Quantities, prices and money are `real`.
- Timestamps, days and ids are `int`: UTC instants and day numbers.
- A form's text field is already classified as blank, a number, or not a number
  (`Forms.Field`).
- The provider's answer, the clock (`now`, `today`) and the daily histories are parameters.

Two properties one might expect that the code does not keep; the model follows the code:

- **Baskets hold market assets.** They do not always. `create_basket` links any selected asset
  of the portfolio, manual or archived included. Only the series builder filters to market
  assets (`BasketSeries.MarketLinks`).
- **Active symbols are unique per portfolio.** The database does not enforce this. The routes
  check it on creation, and on an asset edit only while the asset has no transactions. The
  edit route `AssetRoutes.EditAsset` runs the rules as written
  (`AssetRoutes.EditAssetAsWritten`), so un-archiving an asset with transactions can leave two
  active assets with one symbol. The corrected rules and the uniqueness they keep are proved
  beside it (see Findings).

## Model

| member | source | states |
|---|---|---|
| TxOrder.TxLeIsTotalPreorder | app/services/portfolio.py:75-77 | the (timestamp, id or 0) key comparison is total and transitive, so sorting by it is well defined |
| TxOrder.SortTransactions | app/services/portfolio.py:96-98 | the sorted history is a permutation (same multiset) of the input |
| TxOrder.SortTransactionsOrdered | app/services/portfolio.py:96-98 | the sorted history is ascending by timestamp and, among equal timestamps, by id with a missing id as 0 |
| MarketPositions.MarketReplay | app/services/portfolio.py:101-133 | a successful replay never holds a negative quantity, and an empty holding has average cost 0 |
| MarketPositions.ComputeMarketPosition | app/services/portfolio.py:101-133 | the loop over the sorted history returns exactly the replay of the sorted history, including its first refusal |
| MarketPositions.ApplyMarketTx | app/services/portfolio.py:107-131 | one loop iteration equals one replay step: skip value updates, refuse non-positive quantities, oversells beyond 1e-9 and unknown types |
| MarketPositions.ReplayAppend | app/services/portfolio.py:106-131 | replaying one more transaction is one more step, unless the history was already refused |
| MarketPositions.RejectionPersists | app/services/portfolio.py:116-131 | once a prefix is refused, the whole history is refused with the same reason |
| MarketPositions.RejectsAlwaysRejected | app/services/portfolio.py:115-131 | a BUY or SELL of quantity at most 0, or an unsupported type, anywhere in the history refuses it |
| MarketPositions.RejectsOversell | app/services/portfolio.py:124-125 | a SELL exceeding the held quantity by more than 1e-9 refuses the history with Oversell |
| MarketPositions.RejectionPoint | app/services/portfolio.py:115-131 | every refusal has a cause: a point whose prefix replays and whose transaction is always refused or an oversell |
| MarketPositions.SellOutcome | app/services/portfolio.py:121-129 | a SELL within the holding keeps the average cost, unless at most 1e-9 remains, when quantity and average cost both become exactly 0 |
| MarketPositions.BuyOutcome | app/services/portfolio.py:115-120 | a BUY adds its quantity and sets the average cost to (qty x avg + q x p + fees) / (qty + q) |
| MarketPositions.BuyStep | app/services/portfolio.py:118-120 | the BUY step on any non-negative holding, as the weighted average of old cost and the lot's cost |
| MarketPositions.BuyOnlyAverage | app/services/portfolio.py:115-120 | for a BUY-only history the quantity is the total bought and the average cost is total cost with fees over that quantity |
| MarketPositions.NextBuy | app/services/portfolio.py:118-120 | the inductive step of the BUY-only average: one more BUY keeps "average = total cost / total quantity" |
| MarketPositions.AverageAfterBuy | app/services/portfolio.py:118-120 | the running average after a BUY equals the total cost over the total quantity |
| MarketPositions.OrderedHistoryUnchanged | app/services/portfolio.py:96-98 | a history with strictly increasing timestamps is left as it is by the sort |
| MarketPositions.WeightedAverageExample | app/services/portfolio.py:101-133 | 10 @ 100 fee 5, 5 @ 120 fee 2, SELL 3 leaves 12 held at 1607 / 15 |
| MarketPositions.NegativePriceExample | app/services/portfolio.py:115-120 | 0.5 @ -1000 then 0.5 @ 500 gives 1.0 @ -250 |
| MarketPositions.OversellExample | app/services/portfolio.py:124-125 | BUY 2 then SELL 3 is refused as an oversell |
| ManualPositions.ManualFold | app/services/portfolio.py:142-148 | the latest value is known exactly when its time is |
| ManualPositions.Settle | app/services/portfolio.py:150-157 | no update means value 0; P&L is value minus invested, present exactly when invested > 0 |
| ManualPositions.ComputeManualPosition | app/services/portfolio.py:136-157 | the loop over the sorted history returns the fold of the sorted history, settled |
| ManualPositions.ApplyManualTx | app/services/portfolio.py:143-148 | one loop iteration equals one fold step: BUY adds qty x price + fees, a value update records value and time, anything else is skipped |
| ManualPositions.BoughtCostPermutation | app/services/portfolio.py:144-145 | the cost of the BUYs does not depend on the order of the history |
| ManualPositions.BoughtCostRemove | app/services/portfolio.py:144-145 | removing one transaction removes exactly its BUY cost from the sum |
| ManualPositions.InvestedIsBoughtCost | app/services/portfolio.py:142-145 | the loop's invested total is the sum of qty x price + fees over the BUYs |
| ManualPositions.ManualInvestedTotal | app/services/portfolio.py:136-157 | the manual position's invested total is the BUY cost of the history as given, in any order |
| ManualPositions.LatestUpdate | app/services/portfolio.py:146-150 | the current value and its time come from the last MANUAL_VALUE_UPDATE, or are absent when there is none |
| ManualPositions.Relevant | app/services/portfolio.py:142-148 | the history as the replay sees it keeps only BUYs and value updates, with overrides cleared |
| ManualPositions.OnlyRelevantCounts | app/services/portfolio.py:142-148 | removing SELLs and clearing invested_override does not change the manual replay |
| ManualPositions.StepIgnoresOverride | app/services/portfolio.py:146-148 | a value update's invested_override is not read |
| ManualPositions.InvestedAndValueExample | app/services/portfolio.py:136-157 | invested 6500 as a BUY at 1.0, valued at 7000: P&L 500 |
| ManualPositions.ValueOnlyExample | app/services/portfolio.py:150-151 | a value update alone: value 5000, invested 0, no P&L |
| ManualPositions.ManualSellNotReadExample | app/services/portfolio.py:142-148 | a manual SELL is not read: 100000 stays invested and the P&L is -20000 |
| ManualPositions.ManualSellNotReadFold | app/services/portfolio.py:142-148 | the fold of that four-step history ends with 100000 invested and latest value 80000 |
| ManualPositions.OverrideNotReadExample | app/services/portfolio.py:144-148 | an override of 162811 leaves the BUY's 166054 invested |
| Validation.HistoryVerdict | app/services/portfolio.py:278-291 | a market history is refused iff its replay raises or it holds a value update; a manual one iff it holds a SELL |
| Validation.ValidateAssetTransactions | app/services/portfolio.py:278-291 | the gate as written, replay first then the scan, gives exactly that verdict |
| Validation.AcceptedMarketHistory | app/services/portfolio.py:281-285 | an accepted market history holds only BUYs and SELLs of positive quantity, and replays to a non-negative holding |
| Validation.HasKindPermutation | app/services/portfolio.py:283-289 | whether a history contains a type does not depend on its order |
| Validation.ManualVerdictOrderFree | app/services/portfolio.py:286-291 | the manual verdict does not depend on the order of the history |
| Positions.GainIsValueLessBasis | app/services/portfolio.py:192-193 | the P&L (price - avg) x qty equals value minus quantity x average cost |
| Positions.AssetPosition | app/services/portfolio.py:179-225 | the row carries the asset's id, symbol, type, group name (or "Ungrouped") and share 0; it is refused iff a market asset's replay raises |
| Positions.MarketRowWithQuote | app/services/portfolio.py:188-208 | with a quote, a market row holds the replayed quantity and cost, value qty x price, P&L value less basis, and the quote's time and staleness |
| Positions.QuotedMarketRow | app/services/portfolio.py:191-207 | the fields of a market row for a given holding and quote |
| Positions.MarketRowWithoutQuote | app/services/portfolio.py:191-207 | without a quote a market row is worth 0, has no price, no P&L, no time, and is stale |
| Positions.ManualRowShape | app/services/portfolio.py:210-225 | a manual row holds quantity 1 at its latest value, average cost = invested only when positive, P&L exactly then, never stale |
| Positions.AllocationPercentages | app/services/portfolio.py:160-165 | one share per entry with the same key in the same order; every share is 0 when the total is at most 0, otherwise each is its value / total x 100 |
| Positions.AllocationSumsTo100 | app/services/portfolio.py:160-165 | with a positive total the shares add up to 100 |
| Positions.SharesSum | app/services/portfolio.py:165 | the shares of a list add up to the share of its sum |
| Positions.ShareBounds | app/services/portfolio.py:165 | with non-negative values each share lies between 0 and 100 |
| Positions.ValueAtMostSum | app/services/portfolio.py:162 | a non-negative value is at most the sum of all non-negative values |
| Positions.NonNegativeSum | app/services/portfolio.py:162 | non-negative values have a non-negative total |
| Positions.AllocationExample | app/services/portfolio.py:160-165 | 150, 50 and 300 are 30%, 10% and 60% |
| Snapshot.GroupOf | app/services/portfolio.py:186 | an asset's group is the group with its id, if the table has one |
| Snapshot.KeyLeIsTotalPreorder | app/services/portfolio.py:237 | Python's comparison of (str, str) keys is total and transitive |
| Snapshot.AssetOrderIsTotalPreorder | app/services/portfolio.py:237 | the display-order comparison of assets is a total preorder |
| Snapshot.ActiveAssets | app/services/portfolio.py:230-236 | the listed assets are exactly those of the portfolio that are not archived |
| Snapshot.DisplayOrder | app/services/portfolio.py:230-237 | a permutation of the active assets, ascending by lower-cased group name then lower-cased symbol |
| Snapshot.AssetTxs | app/services/portfolio.py:239-248 | an asset's transactions are no more than the stored rows; they keep stored order rather than the query's (timestamp, id) order, and every replay sorts them by that key first |
| Snapshot.AssetTxsMembers | app/services/portfolio.py:239-248 | a transaction is among the asset's iff some stored row of the portfolio and that asset carries it |
| Snapshot.RowsFollowAssets | app/services/portfolio.py:250-253 | when every row builds, row i is the position row of asset i |
| Snapshot.AddToGroup | app/services/portfolio.py:259-262 | adding to a group keeps the group list, or appends the group when it is new |
| Snapshot.ValueEntries | app/services/portfolio.py:266 | the allocation input is one (asset id, value) entry per row, in order |
| Snapshot.BuildDashboardSnapshot | app/services/portfolio.py:228-275 | the method's result is exactly the snapshot specification, or the replay error that stopped it |
| Snapshot.GroupTransactions | app/services/portfolio.py:246-248 | grouping by asset gives each asset its own transactions, [] when it has none; they keep stored order rather than the query's (timestamp, id) order, which no result depends on because every replay sorts by that key first |
| Snapshot.ComputeRows | app/services/portfolio.py:250-253 | the loop builds one row per displayed asset, stopping at the first replay error |
| Snapshot.AccumulateTotals | app/services/portfolio.py:255-264 | the totals loop computes the per-group totals and the overall value and P&L, an absent P&L counting as 0 |
| Snapshot.AssignAllocation | app/services/portfolio.py:266-268 | each row takes its share from the allocation map, 0 if absent |
| Snapshot.RowsRefusalPersists | app/services/portfolio.py:250-253 | once a row is refused, building the rest does not change the outcome |
| Snapshot.AddToGroupSums | app/services/portfolio.py:259-264 | each addition grows the sum of group values and of group P&Ls by the row's amounts |
| Snapshot.GroupTotalsAddUp | app/services/portfolio.py:255-264 | the overall value and P&L are the sums of the group totals |
| Snapshot.AddToGroupTotalOf | app/services/portfolio.py:259-262 | an addition changes only the named group's total |
| Snapshot.GroupTotalsAreGroupSums | app/services/portfolio.py:255-262 | each group's total is the value and P&L of exactly that group's rows |
| Snapshot.GroupNamesAreRowGroups | app/services/portfolio.py:255-262 | the groups listed are exactly the groups of the rows, each once |
| Snapshot.DictGetAt | app/services/portfolio.py:268 | with distinct keys, looking up a key finds its own entry |
| Snapshot.TotalValueIsSumOfEntries | app/services/portfolio.py:255-266 | the allocation's total is the snapshot's total value |
| Snapshot.SumPctIsSumValues | app/services/portfolio.py:266-268 | the rows' shares sum to the sum of the allocation entries they were given |
| Snapshot.Allocated | app/services/portfolio.py:266-268 | the rows with shares filled in are as many as before |
| Snapshot.AllocatedShares | app/services/portfolio.py:266-268 | for rows of distinct assets: with a positive total the shares sum to 100 and each is value / total x 100; otherwise all are 0 |
| Snapshot.ActiveAssetsDistinct | app/services/portfolio.py:230-236 | the filter keeps asset ids distinct |
| Snapshot.DistinctIdsPermutation | app/services/portfolio.py:237 | the sort keeps asset ids distinct |
| Snapshot.SnapshotRowsInDisplayOrder | app/services/portfolio.py:237-253 | the snapshot's rows are the displayed assets, one for one and in display order |
| Snapshot.SnapshotTotals | app/services/portfolio.py:255-275 | the snapshot's total value and P&L are the sums of its group totals, each group total the sum over that group's rows |
| Snapshot.GroupSumsIgnoreAllocation | app/services/portfolio.py:266-268 | filling in shares does not change any group sum |
| Snapshot.SnapshotAllocation | app/services/portfolio.py:266-275 | with distinct asset ids: shares sum to 100 when the total value is positive, else all are 0 |
| Snapshot.RefusedRowsHaveRefusedAsset | app/services/portfolio.py:250-253 | a refused build has a displayed asset whose row is refused |
| Snapshot.SnapshotRefusedIffReplayRaises | app/services/portfolio.py:228-275 | no snapshot is built exactly when some displayed market asset's replay raises |
| Pricing.PricingService.constructor | app/services/pricing.py:84-86 | the service starts with the given time to live and cache, and no provider request |
| Pricing.PricingService.GetQuote | app/services/pricing.py:88-121 | the answer and the new cache are those of one lookup; the provider request log grows by the symbol exactly when the provider was asked |
| Pricing.HistoricalDaily | app/services/pricing.py:123-127 | the provider's points for the stripped, upper-cased symbol, unchanged, or [] when it fails |
| Pricing.AnswersCanonicalSymbol | app/services/pricing.py:89-121 | every answer carries the stripped, upper-cased symbol, and asking with it gives the same lookup |
| Pricing.FreshEntryServed | app/services/pricing.py:92-100 | an entry aged at most the time to live (boundary included) is served not stale, without asking the provider, the cache unchanged |
| Pricing.MissRefreshes | app/services/pricing.py:102-111 | without a fresh entry the provider is asked; on success its price is returned not stale and stored for that symbol, other entries unchanged |
| Pricing.FailureFallsBackToStale | app/services/pricing.py:112-120 | a failing provider with an expired entry: the cached price and time, stale, with the warning text, cache unchanged |
| Pricing.FailureWithoutEntry | app/services/pricing.py:102-121 | a failing provider and no entry: no quote and no entry created |
| Pricing.CacheOnlyTouchesSymbol | app/services/pricing.py:92-111 | the cache never loses an entry, and only the looked-up symbol can gain or change one |
| Pricing.RefreshThenServed | app/services/pricing.py:93-111 | after a refresh, a lookup within the fetched price's time to live is served from the cache whatever the provider does |
| Text.CanonicalSymbolIdempotent | app/services/pricing.py:89 | stripping Python's whitespace and upper-casing ASCII letters again changes nothing on a canonical symbol |
| BasketSeries.AssetHistory | app/services/portfolio.py:294-306 | a manual asset has no history; a market asset's is the provider's closes over the window, [] when it fails |
| BasketSeries.MarketLinks | app/services/portfolio.py:315 | the kept links are exactly the links of market assets |
| BasketSeries.MarketLinksKeepsOrder | app/services/portfolio.py:315 | the filter keeps the links' order: filtering a concatenation concatenates the filtered parts |
| BasketSeries.LinkWeights | app/services/portfolio.py:319-326 | one raw weight per market link |
| BasketSeries.DefaultedSumIsExplicitSum | app/services/portfolio.py:320-323 | the weights with unset ones as 0 add up to the sum of the set ones |
| BasketSeries.NormalizeSum | app/services/portfolio.py:331 | dividing every weight by the total divides their sum by it |
| BasketSeries.WeightSumPositive | app/services/portfolio.py:319-330 | with at least one market member the raw weights add up to more than 0, so the `weight_sum <= 0` exit is never taken |
| BasketSeries.NormalizedWeightsSumToOne | app/services/portfolio.py:328-331 | the normalised weights add up to 1 |
| BasketSeries.WeightRule | app/services/portfolio.py:320-326 | an unset weight counts as 0 when the set weights add up to more than 0; otherwise every weight is 1 / n |
| BasketSeries.SeriesOf | app/services/portfolio.py:347 | a member's series has exactly the days of its points |
| BasketSeries.LaterPointWins | app/services/portfolio.py:347 | a day's close is the close of its last point |
| BasketSeries.MinDay | app/services/portfolio.py:350 | the first day is a day of the history and no later than any of them |
| BasketSeries.Histories | app/services/portfolio.py:337-351 | one series per market member |
| BasketSeries.Bases | app/services/portfolio.py:338-351 | one base per market member |
| BasketSeries.MemberAt | app/services/portfolio.py:340-351 | member i's series and base come from its own history: its points by day, and its first close (0 without history) |
| BasketSeries.AllDaysAreMemberDays | app/services/portfolio.py:336-349 | the gathered days are exactly the days of the members' series |
| BasketSeries.MemberDays | app/services/portfolio.py:336-349 | a day is gathered iff some market member's history has it |
| BasketSeries.FillSeries | app/services/portfolio.py:360-371 | one point per ordered day |
| BasketSeries.FillSeriesAt | app/services/portfolio.py:360-371 | point i is day i with the weighted sum of (last close / base) x 100 over members already seen with a positive base |
| BasketSeries.LatestIsLastVisited | app/services/portfolio.py:362-365 | the close last seen is that of the last walked day the member has, none if it has none |
| BasketSeries.NothingSeenBeforeFirstDay | app/services/portfolio.py:363-368 | a member shows nothing on a day before its own first day |
| BasketSeries.SeenIsLatestClose | app/services/portfolio.py:363-365 | the close shown is the member's close on one of its days no later than the current day |
| BasketSeries.ForwardFillIsLatestClose | app/services/portfolio.py:356-365 | forward fill: on each day a member shows its close on its latest own day up to then, and nothing before its first day |
| BasketSeries.MemberSeriesDays | app/services/portfolio.py:353-371 | once the weights are known, one point per gathered day, strictly ascending |
| BasketSeries.SeriesDaysAreUnion | app/services/portfolio.py:315-371 | the series' days are strictly ascending and exactly the days of the market members' histories |
| BasketSeries.TermAtBase | app/services/portfolio.py:369-370 | a member seen at its base contributes weight x 100 |
| BasketSeries.CompositeOfFullTerms | app/services/portfolio.py:361-370 | when every member contributes weight x 100, the composite is 100 times the weights' sum |
| BasketSeries.FirstDayIsCommonStart | app/services/portfolio.py:356 | when every member starts on the same day, the first ordered day is that day |
| BasketSeries.SeenOnFirstDay | app/services/portfolio.py:362-364 | on the first day walked, every member that has it shows its close |
| BasketSeries.MemberSeriesStartsAt100 | app/services/portfolio.py:356-371 | with weights summing to 1 and a common first day with positive closes, the first point is that day at 100 |
| BasketSeries.RebasedTo100 | app/services/portfolio.py:309-373 | when every market member starts on the same day with a positive close, the series starts on that day at exactly 100 |
| BasketSeries.NormalizedSeriesStages | app/services/portfolio.py:319-331 | the series is the composite over the normalised weights, and those weights sum to 1 |
| BasketSeries.BuildBasketNormalizedSeries | app/services/portfolio.py:309-373 | the method returns exactly the specified series |
| BasketSeries.RebasedComposite | app/services/portfolio.py:336-373 | the stage after the weights returns the specified member series |
| BasketSeries.CollectHistories | app/services/portfolio.py:340-351 | the loop over the links builds every member's series and base, and the days seen |
| BasketSeries.ForwardFill | app/services/portfolio.py:356-371 | the day loop with `last_seen` builds the specified forward-filled composite |
| Store.AppendedRowKeepsIds | app/models.py:118-121 | a row stored under the next id keeps transaction ids distinct and below the counter |
| Store.Database.constructor | app/models.py:74-142 | a database with the given groups and otherwise empty tables |
| Store.Database.Saved | app/models.py:74-142 | the saved tables of a valid database are valid |
| Store.Database.Rollback | app/routes/dashboard.py:341 | a rollback restores every table and counter to the saved state |
| Store.Database.InsertBasket | app/routes/baskets.py:64-66 | the basket is stored under the next id, appended, nothing else changed |
| Store.Database.InsertLink | app/routes/baskets.py:85 | the link is appended, nothing else changed |
| Store.Database.InsertTx | app/routes/assets.py:383-396 | the transaction is stored under the next id, appended for the portfolio and asset |
| Store.Database.SetTx | app/routes/assets.py:528-536 | the transaction at position k takes the new fields and keeps its id; nothing else changes |
| Store.Database.DeleteTxAt | app/routes/assets.py:577-578 | the transaction at position k is removed; nothing else changes |
| Store.Database.InsertAsset | app/routes/dashboard.py:267-275 | the asset is stored under the next id, appended |
| Store.Database.SetAsset | app/routes/assets.py:235-242 | the asset at position k takes the new fields and keeps its id |
| Store.Database.DeleteAssetAt | app/routes/assets.py:265-266 | the asset is removed and its basket links with it (cascade) |
| Store.LinksWithout | app/models.py:187 | the links left are exactly those of other assets |
| Store.FindAsset | app/routes/assets.py:65-70 | the asset found has the id; none is found iff no asset has it |
| Store.AssetIndex | app/routes/assets.py:65-70 | the position of the asset with that id, holding the asset the lookup finds |
| Store.FindGroup | app/routes/assets.py:202-204 | the group found has the id and portfolio; none iff no group matches both |
| Store.AssetRows | app/routes/assets.py:370-376 | an asset's stored transactions are no more than the stored rows |
| Store.AssetRowsMembers | app/routes/assets.py:370-376 | a transaction is among the asset's iff some stored row of that asset carries it |
| Store.TxCount | app/routes/assets.py:73-74 | the count is the number of the asset's stored transactions |
| Store.TxCountZeroIffNoRow | app/routes/assets.py:73-74 | the count is 0 iff no stored row belongs to the asset |
| Store.FindTx | app/routes/assets.py:442-446 | a transaction is found iff a stored row has that id and asset, and the one found is such a row's transaction |
| AssetRoutes.ParseFloat | app/routes/assets.py:43-62 | accepted iff a number meeting the sign rules, the number returned as is; "must be a number" exactly for non-numbers |
| AssetRoutes.ParseTxType | app/routes/assets.py:306-312 | a type is read iff the stripped, upper-cased text is BUY, SELL or MANUAL_VALUE_UPDATE |
| AssetRoutes.AllowedTxTypes | app/routes/assets.py:77-80 | BUY and SELL always; MANUAL_VALUE_UPDATE exactly for manual assets |
| AssetRoutes.Candidate | app/routes/assets.py:318-368 | built iff the time parses, fees are blank or at least 0, a BUY/SELL has quantity > 0 and a numeric price (> 0 for a SELL), and a value update has a value at least 0 and a blank override or one at least 0; the built transaction has the id, type and time, the entered fees (0 when blank), quantity and price, or value and override (none when blank) |
| AssetRoutes.BuyPriceMayBeAnyNumber | app/routes/assets.py:332-338 | a BUY's price may be negative or zero |
| AssetRoutes.SellPriceMustBePositive | app/routes/assets.py:339-344 | a SELL at a price of 0 or below is refused |
| AssetRoutes.AddGate | app/routes/assets.py:305-377 | an addition is accepted only if the stored history with the candidate (id 10^9) appended validates; a disallowed type is refused before any validation |
| AssetRoutes.CheckAddition | app/routes/assets.py:300-380 | the checks in the route's order give exactly the add decision |
| AssetRoutes.AddTransaction | app/routes/assets.py:291-398 | a refusal writes nothing; an acceptance stores the candidate under the next id; no other table changes |
| AssetRoutes.Replaced | app/routes/assets.py:517-519 | the merged list has the history's length |
| AssetRoutes.ReplacedAt | app/routes/assets.py:517-519 | merged entry i is the candidate when entry i has the edited id, else entry i |
| AssetRoutes.ReplacedExactlyOne | app/routes/assets.py:517-519 | with distinct ids, exactly the entry of that id is replaced |
| AssetRoutes.MergeCandidate | app/routes/assets.py:517-519 | the append loop builds the merged list |
| AssetRoutes.EditFindsStoredTx | app/routes/assets.py:441-507 | an accepted edit is of a transaction stored under that asset, and keeps its id |
| AssetRoutes.UpdatedRows | app/routes/assets.py:528-535 | the field assignment touches only rows holding the edited id |
| AssetRoutes.UpdatedRowsTouchOne | app/routes/assets.py:528-535 | with distinct ids exactly one stored row changes |
| AssetRoutes.TxIndex | app/routes/assets.py:442-446 | the position of the stored transaction with that id and asset |
| AssetRoutes.CheckEdit | app/routes/assets.py:441-526 | the checks in the route's order give exactly the edit decision |
| AssetRoutes.EditTransaction | app/routes/assets.py:432-538 | the stored transaction takes the candidate's fields iff the merged history validates; otherwise nothing changes |
| AssetRoutes.Remaining | app/routes/assets.py:569 | the remaining list is no longer than the history |
| AssetRoutes.RemainingMembers | app/routes/assets.py:569 | what remains is what was there, less the entries with that id |
| AssetRoutes.RemainingDropsOne | app/routes/assets.py:569 | with distinct ids, exactly that entry is taken out, order kept |
| AssetRoutes.RemainingUntouched | app/routes/assets.py:569 | without that id, nothing is taken out |
| AssetRoutes.DeleteTransaction | app/routes/assets.py:541-580 | the row is deleted iff it exists and the remaining history validates; otherwise the ledger is unchanged |
| AssetRoutes.CheckDeletion | app/routes/assets.py:550-575 | the checks give exactly the delete decision; acceptance implies the transaction exists |
| AssetRoutes.ParseAssetType | app/routes/assets.py:209-236 | a type is read iff the text is "market" or "manual", and it is the type of that text |
| AssetRoutes.EditAssetAsWritten | app/routes/assets.py:186-240 | an accepted edit keeps id and portfolio; takes the non-blank name, found group and archived flag; keeps symbol and type with transactions, else takes them; it differs from the corrected rules exactly on un-archiving, with transactions, a symbol another active asset holds |
| AssetRoutes.UnarchiveDuplicatesSymbol | app/routes/assets.py:213-240 | an input where the rules as written leave two active assets with one symbol |
| AssetRoutes.EditAssetDecision | app/routes/assets.py:186-240 | an accepted edit keeps id and portfolio; takes the non-blank name and found group; keeps symbol and type with transactions, else takes them; never leaves the asset active under another active asset's symbol |
| AssetRoutes.EditKeepsActiveSymbolsUnique | app/routes/assets.py:213-240 | an accepted edit keeps the portfolio's active symbols unique |
| AssetRoutes.SymbolLockedAfterTransactions | app/routes/assets.py:215-222 | with transactions, asking for another symbol or type is refused, by the rules as written and the corrected ones |
| AssetRoutes.DuplicateRefusedWithoutTransactions | app/routes/assets.py:223-234 | without transactions, a symbol another active asset of the portfolio holds is refused, by the rules as written and the corrected ones |
| AssetRoutes.EditAsset | app/routes/assets.py:171-244 | the asset is rewritten in place with the value the rules as written accept; a refusal changes nothing |
| AssetRoutes.DeleteAsset | app/routes/assets.py:247-268 | not found iff no asset has the id; refused iff it has transactions; otherwise it is deleted with its basket links |
| DashboardRoutes.ParseFloat | app/routes/dashboard.py:27-46 | the dashboard's copy gives exactly the asset pages' answer despite its other check order |
| DashboardRoutes.NewAsset | app/routes/dashboard.py:226-274 | "required" iff symbol, name or group is blank; an admitted asset has the canonical symbol, stripped name, parsed type, found group, is active, and its symbol is not held by an active asset |
| DashboardRoutes.NewAssetKeepsActiveSymbolsUnique | app/routes/dashboard.py:253-262 | a created asset keeps the portfolio's active symbols unique |
| DashboardRoutes.SeedTransactions | app/routes/dashboard.py:277-339 | market: at most one BUY, present iff shares are given, with the price and fees; manual: the value is required, one value update then an optional BUY of the invested amount at 1.0 with no fees; all at creation time |
| DashboardRoutes.SharesNeedBuyPrice | app/routes/dashboard.py:286-288 | shares without a buy price are refused |
| DashboardRoutes.SeedRows | app/routes/dashboard.py:295-339 | one stored row per opening transaction |
| DashboardRoutes.InsertSeeds | app/routes/dashboard.py:295-339 | the opening transactions are stored in order under consecutive ids |
| DashboardRoutes.CreateAsset | app/routes/dashboard.py:217-347 | a refusal stores nothing, every table and counter restored; success stores the asset under the next id and its opening transactions |
| DashboardRoutes.Requested | app/routes/dashboard.py:373-375 | the requested symbols are exactly the stripped, upper-cased non-blank pieces |
| DashboardRoutes.KeepAllowed | app/routes/dashboard.py:362-378 | the kept pieces are exactly the requested ones that are active market symbols |
| DashboardRoutes.QuotedSymbols | app/routes/dashboard.py:362-378 | strictly increasing, and a symbol is listed iff it is requested and an active market symbol of the portfolio |
| DashboardRoutes.RequestedAreCanonical | app/routes/dashboard.py:374 | every requested symbol is already canonical |
| DashboardRoutes.Payload | app/routes/dashboard.py:379-388 | no quote: no price, no time, stale; a quote: its price, time and staleness |
| DashboardRoutes.Poll | app/routes/dashboard.py:377-388 | one entry per polled symbol, in order |
| DashboardRoutes.PollStep | app/routes/dashboard.py:378-388 | polling one more symbol is one more lookup against the cache the earlier ones left |
| DashboardRoutes.LookupReadsOneEntry | app/services/pricing.py:92-121 | a lookup reads only its own symbol's cache entry |
| DashboardRoutes.PollKeepsOtherEntries | app/routes/dashboard.py:378-379 | polling leaves the entries of unpolled symbols as they were |
| DashboardRoutes.PollAnswersFromStart | app/routes/dashboard.py:378-388 | distinct canonical symbols are each answered as a single lookup against the cache before the request |
| DashboardRoutes.QuotesAnswerFromStart | app/routes/dashboard.py:362-388 | every answered symbol is answered as a lookup against the original cache |
| DashboardRoutes.PollQuotes | app/routes/dashboard.py:378-388 | the loop calls the quote service once per symbol, in order, giving the specified entries, cache and provider requests |
| DashboardRoutes.ApiQuotes | app/routes/dashboard.py:350-391 | the endpoint polls exactly the quoted symbols, in increasing order |
| DashboardRoutes.ChartWindow | app/routes/dashboard.py:63-83 | default [today - 179, today]; a bad end date is reported over a bad start date; start after end is an error only when both read well; no error implies start at most end |
| DashboardRoutes.DefaultWindow | app/routes/dashboard.py:63-67 | without dates the range is the 180 days up to today, with no error |
| BasketRoutes.ReadWeight | app/routes/baskets.py:73-83 | a blank weight reads as none; a number at least 0 is kept as given; anything else is a bad weight |
| BasketRoutes.Members | app/routes/baskets.py:68-85 | the loop's only refusal is a bad weight |
| BasketRoutes.KeptIds | app/routes/baskets.py:68-71 | the kept ids are exactly the selected ids of assets of the portfolio |
| BasketRoutes.MembersAreKeptIds | app/routes/baskets.py:68-85 | the loop succeeds iff every kept id's weight reads, and then links the kept ids one to one in selection order with their weights |
| BasketRoutes.MembersMatchLinksFor | app/routes/baskets.py:68-85 | the loop's links equal the reference list: one link per kept id with its weight |
| BasketRoutes.RefusalPersists | app/routes/baskets.py:76-83 | once a weight fails, later selections do not revive the creation |
| BasketRoutes.BasketDecision | app/routes/baskets.py:57-87 | "name required" iff the stripped name is blank; accepted links are distinct, for the new basket, selected and of the portfolio |
| BasketRoutes.AddMembers | app/routes/baskets.py:68-85 | the loop stores the specified links and reports a bad weight |
| BasketRoutes.CreateBasket | app/routes/baskets.py:47-89 | refused exactly when the decision refuses, with every table and counter restored; otherwise the basket under the next id with the stripped name, and its links |

## Left out

- HTTP routing, redirects, templates, sessions, CSRF and flash messages: a refusal is the
  error value it would flash.
- Password hashing, configuration, database engine setup and the command line.
- `ensure_default_portfolio` and the `get_portfolio_*` queries: the one portfolio is
  `Store.Database.portfolioId`.
- The quote provider and its wrapper: its answer to each call is a parameter
  (`Pricing.FetchOutcome`, the `fetches` map, the daily histories).
- The clock: `now` and `today` are parameters. In the polling endpoint every lookup gets the
  same `now`, while the source reads the clock once per lookup.
- Timezone normalisation (`_as_utc`, `_parse_datetime_local`): timestamps are UTC instants.
  A date-time that does not parse is `None` in the form.
- Floating point and text-to-number parsing. Arithmetic is exact `real`, and a field arrives
  as blank, a number, or not a number. NaN and infinity are not modelled.
- Pricing.PricingService.GetQuote: a failure of the flush after a successful fetch is not
  modelled. In the source it falls into the failure handler with the cache row already
  updated.
- Pricing.PricingService.GetQuote: the warning text is the fixed prefix followed by the
  provider's message.
- The free-text note of a transaction.
- The route that archives an asset (a single flag assignment) and the read-only pages.
- The dashboard's calls to `allocation_by_group`, `allocation_by_asset` and the portfolio
  series: they are not defined in the service module, and only the date-range checks guarding
  them are modelled.
- A selected basket asset id that is not an integer makes `int()` raise (a server error) and
  is not modelled: selected ids are integers.
- BasketRoutes.CreateBasket: selecting one asset twice breaks the (basket, asset) uniqueness
  constraint at the commit. That is a server error in the source. The model returns
  `DuplicateMember` and rolls back, so nothing is stored either way. The check looks only at
  the new basket's links.
- DashboardRoutes.CreateAsset: all opening transactions are parsed before any is added,
  while the source adds the opening value update before it parses the invested amount. A
  refusal rolls everything back either way, so the stored outcome is the same.
- DashboardRoutes.Payload: a missing quote's entry has no "warning" key, while a present
  quote's entry has one that may be null. Both are modelled as `None`.
- Pricing.HistoricalDaily and BasketSeries.AssetHistory: the window is passed as day numbers
  (`today`, the number of days), not read from the clock.
- Snapshot.BuildDashboardSnapshot: the quote of each market asset is passed in by asset id,
  and the cache writes made while the snapshot is built are not part of its result.
- Text.Upper, Text.Lower and Text.CanonicalSymbol: case mapping covers the ASCII letters only.
  Python's Unicode case mapping (non-ASCII letters, and mappings that change the length, such
  as "ß" to "SS") is not modelled. `Text.Strip` removes exactly the characters Python's
  `str.isspace()` accepts.
- Text.CanonicalSymbolIdempotent: proved for the ASCII-only `Text.Upper`, not for Python's
  Unicode `str.upper()`.
- MarketPositions.MarketStep: a type other than the three stored ones is
  `Unsupported(tag)`; the database's enumeration never stores one.

## Findings

| source | as written | input that shows it | evidently intended | confidence | as-written member | corrected member |
|---|---|---|---|---|---|---|
| app/routes/assets.py:213-240 | when the asset has transactions, the edit skips the duplicate active-symbol check, and `is_archived` is still written | asset 1 "AAPL" archived with one transaction, asset 2 "AAPL" active; the edit un-archives asset 1 | the check that `create_asset` (app/routes/dashboard.py:253-262) and the same route's no-transaction branch make: an edit that leaves the asset active under a symbol another active asset holds is refused | not executed | AssetRoutes.EditAssetAsWritten, AssetRoutes.UnarchiveDuplicatesSymbol | AssetRoutes.EditAssetDecision, AssetRoutes.EditKeepsActiveSymbolsUnique |
