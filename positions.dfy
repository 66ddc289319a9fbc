/**
 * One dashboard row per asset (`compute_asset_position`) and the allocation shares
 * (`compute_allocation_percentages`). The quote a market row uses is the answer the quote
 * service gave for the asset's symbol, passed in.
 */
module Positions {
  import opened Wrappers
  import opened Ledger
  import opened TxOrder
  import opened MarketPositions
  import ManualPositions
  import Pricing

  datatype PositionRow = PositionRow(
    assetId: int,
    symbol: string,
    name: string,
    groupName: string,
    assetType: AssetType,
    quantity: Option<real>,
    avgCost: Option<real>,
    currentPrice: Option<real>,
    currentValue: real,
    unrealizedPnl: Option<real>,
    allocationPct: real,
    asOf: Option<int>,
    quoteStale: bool)

  /** A row, or the error the market replay raised while building it. */
  datatype RowOutcome = Row(row: PositionRow) | RowRefused(reason: InvalidTransaction)

  /** The group's name, or "Ungrouped" for an asset without one. */
  function RowGroupName(group: Option<Group>): string {
    match group
    case Some(g) => g.name
    case None => "Ungrouped"
  }

  /** Market value of a holding at a price. */
  function HoldingValue(quantity: real, price: real): real {
    quantity * price
  }

  /** Unrealised gain of a holding at a price over its average cost. */
  function HoldingGain(quantity: real, avgCost: real, price: real): real {
    (price - avgCost) * quantity
  }

  /** The gain is the value less the cost basis (quantity x average cost). */
  lemma GainIsValueLessBasis(quantity: real, avgCost: real, price: real)
    ensures HoldingGain(quantity, avgCost, price) == HoldingValue(quantity, price) - quantity * avgCost
  {
  }

  function MarketRow(asset: Asset, group: Option<Group>, m: MarketPosition, quote: Option<Pricing.QuoteResult>): PositionRow {
    var currentPrice := if quote.Some? then Some(quote.value.price) else None;
    PositionRow(
      asset.id, asset.symbol, asset.name, RowGroupName(group), asset.assetType,
      Some(m.quantity), Some(m.avgCost), currentPrice,
      if currentPrice.Some? then HoldingValue(m.quantity, currentPrice.value) else 0.0,
      if currentPrice.Some? then Some(HoldingGain(m.quantity, m.avgCost, currentPrice.value)) else None,
      0.0,
      if quote.Some? then Some(quote.value.fetchedAt) else None,
      if quote.Some? then quote.value.stale else true)
  }

  function ManualRow(asset: Asset, group: Option<Group>, m: ManualPositions.ManualPosition): PositionRow {
    PositionRow(
      asset.id, asset.symbol, asset.name, RowGroupName(group), asset.assetType,
      Some(1.0), if m.investedTotal > 0.0 then Some(m.investedTotal) else None, Some(m.currentValue),
      m.currentValue, m.unrealizedPnl, 0.0, m.asOf, false)
  }

  /**
   * `compute_asset_position`: a market asset is replayed and valued at the quote; a manual
   * asset reports its latest value. The allocation share is filled in later.
   */
  function AssetPosition(asset: Asset, group: Option<Group>, txs: seq<Tx>, quote: Option<Pricing.QuoteResult>): (r: RowOutcome)
    ensures r.Row? ==> r.row.assetId == asset.id && r.row.symbol == asset.symbol && r.row.assetType == asset.assetType
    ensures r.Row? ==> r.row.groupName == RowGroupName(group) && r.row.allocationPct == 0.0
    ensures r.RowRefused? <==> asset.assetType == Market && MarketReplay(SortTransactions(txs)).Rejected?
  {
    if asset.assetType == Market then
      match MarketReplay(SortTransactions(txs))
      case Rejected(e) => RowRefused(e)
      case Held(m) => Row(MarketRow(asset, group, m, quote))
    else
      Row(ManualRow(asset, group, ManualPositions.ManualReplay(SortTransactions(txs))))
  }

  /**
   * A market row with a quote is worth quantity x price, and its P&L is that value less the
   * cost basis; its staleness and time are the quote's.
   */
  lemma MarketRowWithQuote(asset: Asset, group: Option<Group>, txs: seq<Tx>, quote: Pricing.QuoteResult)
    requires asset.assetType == Market && MarketReplay(SortTransactions(txs)).Held?
    ensures var m := MarketReplay(SortTransactions(txs)).position;
      var r := AssetPosition(asset, group, txs, Some(quote));
      r.Row? && r.row.quantity == Some(m.quantity) && r.row.avgCost == Some(m.avgCost) &&
      r.row.currentPrice == Some(quote.price) &&
      r.row.currentValue == m.quantity * quote.price &&
      r.row.unrealizedPnl.Some? && r.row.unrealizedPnl.value == r.row.currentValue - m.quantity * m.avgCost &&
      r.row.quoteStale == quote.stale && r.row.asOf == Some(quote.fetchedAt)
  {
    var m := MarketReplay(SortTransactions(txs)).position;
    assert AssetPosition(asset, group, txs, Some(quote)) == Row(MarketRow(asset, group, m, Some(quote)));
    QuotedMarketRow(asset, group, m, quote);
  }

  lemma QuotedMarketRow(asset: Asset, group: Option<Group>, m: MarketPosition, quote: Pricing.QuoteResult)
    ensures var row := MarketRow(asset, group, m, Some(quote));
      row.quantity == Some(m.quantity) && row.avgCost == Some(m.avgCost) &&
      row.currentPrice == Some(quote.price) && row.currentValue == m.quantity * quote.price &&
      row.unrealizedPnl.Some? && row.unrealizedPnl.value == row.currentValue - m.quantity * m.avgCost &&
      row.quoteStale == quote.stale && row.asOf == Some(quote.fetchedAt)
  {
    GainIsValueLessBasis(m.quantity, m.avgCost, quote.price);
  }

  /** Without a quote a market row is worth 0, has no price and no P&L, and is stale. */
  lemma MarketRowWithoutQuote(asset: Asset, group: Option<Group>, txs: seq<Tx>)
    requires asset.assetType == Market && MarketReplay(SortTransactions(txs)).Held?
    ensures var r := AssetPosition(asset, group, txs, None);
      r.Row? && r.row.currentValue == 0.0 && r.row.currentPrice.None? && r.row.unrealizedPnl.None? &&
      r.row.quoteStale && r.row.asOf.None? &&
      r.row.quantity == Some(MarketReplay(SortTransactions(txs)).position.quantity)
  {
  }

  /**
   * A manual row holds quantity 1 at its latest value, reports the invested total as its
   * average cost only when positive, reports P&L exactly then, and is never stale.
   */
  lemma ManualRowShape(asset: Asset, group: Option<Group>, txs: seq<Tx>, quote: Option<Pricing.QuoteResult>)
    requires asset.assetType == Manual
    ensures var m := ManualPositions.ManualReplay(SortTransactions(txs));
      var r := AssetPosition(asset, group, txs, quote);
      r.Row? && r.row.quantity == Some(1.0) && r.row.currentPrice == Some(r.row.currentValue) &&
      r.row.currentValue == m.currentValue && !r.row.quoteStale &&
      (r.row.avgCost.Some? <==> m.investedTotal > 0.0) &&
      (r.row.avgCost.Some? ==> r.row.avgCost.value == m.investedTotal) &&
      (r.row.unrealizedPnl.Some? <==> m.investedTotal > 0.0) &&
      (r.row.unrealizedPnl.Some? ==> r.row.unrealizedPnl.value == r.row.currentValue - m.investedTotal)
  {
  }

  // ---------------------------------------------------------------------------------------------
  // Allocation shares.

  function SumValues<K>(entries: seq<(K, real)>): real {
    if entries == [] then 0.0 else SumValues(entries[..|entries| - 1]) + entries[|entries| - 1].1
  }

  /** One value's share of the total, in percent. */
  function Share(value: real, total: real): real
    requires total != 0.0
  {
    (value / total) * 100.0
  }

  /**
   * `compute_allocation_percentages` over entries with distinct keys, in their order: every
   * share is 0 when the total is not positive, otherwise value / total x 100.
   */
  function AllocationPercentages<K>(entries: seq<(K, real)>): (r: seq<(K, real)>)
    ensures |r| == |entries|
    ensures forall i :: 0 <= i < |r| ==> r[i].0 == entries[i].0
    ensures SumValues(entries) <= 0.0 ==> forall i :: 0 <= i < |r| ==> r[i].1 == 0.0
    ensures SumValues(entries) > 0.0 ==> forall i :: 0 <= i < |r| ==> r[i].1 == Share(entries[i].1, SumValues(entries))
  {
    var total := SumValues(entries);
    if total <= 0.0 then seq(|entries|, i requires 0 <= i < |entries| => (entries[i].0, 0.0))
    else seq(|entries|, i requires 0 <= i < |entries| => (entries[i].0, Share(entries[i].1, total)))
  }

  /** With a positive total the shares add up to 100. */
  lemma AllocationSumsTo100<K>(entries: seq<(K, real)>)
    requires SumValues(entries) > 0.0
    ensures SumValues(AllocationPercentages(entries)) == 100.0
  {
    var total := SumValues(entries);
    SharesSum(entries, total);
    ShareOfTotal(total);
  }

  lemma ShareOfTotal(total: real)
    requires total > 0.0
    ensures Share(total, total) == 100.0
  {
  }

  /** The shares of a prefix add up to the share of the prefix's sum. */
  lemma {:induction false} SharesSum<K>(entries: seq<(K, real)>, total: real)
    requires total > 0.0
    ensures SumValues(seq(|entries|, i requires 0 <= i < |entries| => (entries[i].0, Share(entries[i].1, total))))
      == Share(SumValues(entries), total)
  {
    var shares := seq(|entries|, i requires 0 <= i < |entries| => (entries[i].0, Share(entries[i].1, total)));
    if entries != [] {
      var prefix := entries[..|entries| - 1];
      SharesSum(prefix, total);
      assert shares[..|shares| - 1] == seq(|prefix|, i requires 0 <= i < |prefix| => (prefix[i].0, Share(prefix[i].1, total)));
      ShareAdds(SumValues(prefix), entries[|entries| - 1].1, total);
    }
  }

  lemma ShareAdds(a: real, b: real, total: real)
    requires total > 0.0
    ensures Share(a, total) + Share(b, total) == Share(a + b, total)
  {
  }

  /** With non-negative values and a positive total, each share lies between 0 and 100. */
  lemma {:induction false} ShareBounds<K>(entries: seq<(K, real)>, i: nat)
    requires SumValues(entries) > 0.0 && i < |entries|
    requires forall j :: 0 <= j < |entries| ==> entries[j].1 >= 0.0
    ensures 0.0 <= AllocationPercentages(entries)[i].1 <= 100.0
  {
    var total := SumValues(entries);
    ValueAtMostSum(entries, i);
    ShareMonotone(entries[i].1, total);
  }

  lemma {:induction false} ValueAtMostSum<K>(entries: seq<(K, real)>, i: nat)
    requires i < |entries|
    requires forall j :: 0 <= j < |entries| ==> entries[j].1 >= 0.0
    ensures entries[i].1 <= SumValues(entries)
  {
    var prefix := entries[..|entries| - 1];
    NonNegativeSum(prefix);
    if i < |entries| - 1 {
      ValueAtMostSum(prefix, i);
    }
  }

  lemma {:induction false} NonNegativeSum<K>(entries: seq<(K, real)>)
    requires forall j :: 0 <= j < |entries| ==> entries[j].1 >= 0.0
    ensures SumValues(entries) >= 0.0
  {
    if entries != [] {
      NonNegativeSum(entries[..|entries| - 1]);
    }
  }

  lemma ShareMonotone(value: real, total: real)
    requires 0.0 <= value <= total && total > 0.0
    ensures 0.0 <= Share(value, total) <= 100.0
  {
    assert value / total <= 1.0;
  }

  /** The worked example: 150, 50 and 300 are 30%, 10% and 60%. */
  lemma AllocationExample()
    ensures AllocationPercentages([(1, 150.0), (2, 50.0), (3, 300.0)]) == [(1, 30.0), (2, 10.0), (3, 60.0)]
  {
    var entries: seq<(int, real)> := [(1, 150.0), (2, 50.0), (3, 300.0)];
    assert entries[..2] == [(1, 150.0), (2, 50.0)];
    assert entries[..2][..1] == [(1, 150.0)];
    assert entries[..2][..1][..0] == [];
    assert SumValues(entries[..2][..1]) == 150.0;
    assert SumValues(entries[..2]) == 200.0;
    assert SumValues(entries) == 500.0;
  }
}
