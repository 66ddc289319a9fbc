/**
 * `build_dashboard_snapshot`: the portfolio's active assets in display order, one row each,
 * per-group and overall totals, and each row's allocation share. The database reads become
 * the sequences of assets, groups and stored transactions; the quote the service gave for
 * each market asset is passed in, keyed by asset id.
 */
module Snapshot {
  import opened Wrappers
  import opened Ledger
  import opened Text
  import opened Positions
  import MarketPositions
  import Pricing
  import Sorting
  import TxOrder

  datatype GroupTotal = GroupTotal(value: real, pnl: real)

  datatype DashboardSnapshot = DashboardSnapshot(
    positions: seq<PositionRow>,
    groupTotals: seq<(string, GroupTotal)>,
    totalValue: real,
    totalUnrealizedPnl: real)

  /** The snapshot, or the error a market replay raised while building it. */
  datatype SnapshotOutcome = Built(snapshot: DashboardSnapshot) | SnapshotRefused(reason: MarketPositions.InvalidTransaction)

  // ---------------------------------------------------------------------------------------------
  // Which assets, in which order.

  /** The asset's group (`asset.group`), if the group table has it. */
  function GroupOf(groups: seq<Group>, id: int): (r: Option<Group>)
    ensures r.Some? ==> r.value in groups && r.value.id == id
    ensures r.None? ==> forall g :: g in groups ==> g.id != id
  {
    if groups == [] then None
    else if groups[0].id == id then Some(groups[0])
    else GroupOf(groups[1..], id)
  }

  /** The display key: lower-cased group name ("" without a group), then lower-cased symbol. */
  function SortKey(groups: seq<Group>, a: Asset): (string, string) {
    var g := GroupOf(groups, a.groupId);
    (if g.Some? then Lower(g.value.name) else "", Lower(a.symbol))
  }

  /** Python's comparison of (str, str) tuples. */
  predicate KeyLe(x: (string, string), y: (string, string)) {
    Sorting.StrLt(x.0, y.0) || (x.0 == y.0 && Sorting.StrLe(x.1, y.1))
  }

  lemma KeyLeIsTotalPreorder()
    ensures forall x, y :: KeyLe(x, y) || KeyLe(y, x)
    ensures forall x, y, z :: KeyLe(x, y) && KeyLe(y, z) ==> KeyLe(x, z)
  {
    forall x: (string, string), y: (string, string) ensures KeyLe(x, y) || KeyLe(y, x) {
      Sorting.StrLeTotal(x.0, y.0);
      Sorting.StrLeTotal(x.1, y.1);
    }
    forall x: (string, string), y: (string, string), z: (string, string) | KeyLe(x, y) && KeyLe(y, z)
      ensures KeyLe(x, z)
    {
      if x.0 == y.0 && y.0 == z.0 {
        Sorting.StrLeTransitive(x.1, y.1, z.1);
      } else if x.0 == y.0 {
      } else if y.0 == z.0 {
      } else {
        Sorting.StrLtTransitive(x.0, y.0, z.0);
      }
    }
  }

  function AssetOrder(groups: seq<Group>): (Asset, Asset) -> bool {
    (a: Asset, b: Asset) => KeyLe(SortKey(groups, a), SortKey(groups, b))
  }

  lemma AssetOrderIsTotalPreorder(groups: seq<Group>)
    ensures Sorting.TotalPreorder(AssetOrder(groups))
  {
    KeyLeIsTotalPreorder();
  }

  /** The assets of the portfolio that are not archived, in stored order. */
  function ActiveAssets(assets: seq<Asset>, portfolioId: int): (r: seq<Asset>)
    ensures forall a :: a in r <==> a in assets && a.portfolioId == portfolioId && !a.archived
  {
    if assets == [] then []
    else
      var rest := ActiveAssets(assets[..|assets| - 1], portfolioId);
      var a := assets[|assets| - 1];
      assert forall b :: b in assets <==> b in assets[..|assets| - 1] || b == a;
      if a.portfolioId == portfolioId && !a.archived then rest + [a] else rest
  }

  /** The active assets, stably sorted by display key. */
  function DisplayOrder(assets: seq<Asset>, groups: seq<Group>, portfolioId: int): (r: seq<Asset>)
    ensures multiset(r) == multiset(ActiveAssets(assets, portfolioId))
    ensures forall i, j :: 0 <= i < j < |r| ==> KeyLe(SortKey(groups, r[i]), SortKey(groups, r[j]))
  {
    AssetOrderIsTotalPreorder(groups);
    Sorting.SortBySorted(ActiveAssets(assets, portfolioId), AssetOrder(groups));
    Sorting.SortBy(ActiveAssets(assets, portfolioId), AssetOrder(groups))
  }

  /** An asset's transactions in the portfolio, in stored order. */
  function AssetTxs(txRows: seq<TxRow>, portfolioId: int, assetId: int): (r: seq<Tx>)
    ensures |r| <= |txRows|
  {
    if txRows == [] then []
    else
      var row := txRows[|txRows| - 1];
      AssetTxs(txRows[..|txRows| - 1], portfolioId, assetId) +
        (if row.portfolioId == portfolioId && row.assetId == assetId then [row.tx] else [])
  }

  /** The asset's transactions are exactly the transactions of the portfolio's rows stored for it. */
  lemma {:induction false} AssetTxsMembers(txRows: seq<TxRow>, portfolioId: int, assetId: int)
    ensures forall t :: t in AssetTxs(txRows, portfolioId, assetId) <==>
      exists i :: 0 <= i < |txRows| && txRows[i].portfolioId == portfolioId && txRows[i].assetId == assetId && txRows[i].tx == t
  {
    if txRows != [] {
      var init := txRows[..|txRows| - 1];
      AssetTxsMembers(init, portfolioId, assetId);
      forall t
        ensures t in AssetTxs(txRows, portfolioId, assetId) <==>
          exists i :: 0 <= i < |txRows| && txRows[i].portfolioId == portfolioId && txRows[i].assetId == assetId && txRows[i].tx == t
      {
        if t in AssetTxs(init, portfolioId, assetId) {
          var i :| 0 <= i < |init| && init[i].portfolioId == portfolioId && init[i].assetId == assetId && init[i].tx == t;
          assert txRows[i] == init[i];
        }
        if i :| 0 <= i < |txRows| && txRows[i].portfolioId == portfolioId && txRows[i].assetId == assetId && txRows[i].tx == t {
          if i < |init| {
            assert init[i] == txRows[i];
          }
        }
      }
    }
  }

  function QuoteFor(quotes: map<int, Pricing.QuoteResult>, assetId: int): Option<Pricing.QuoteResult> {
    if assetId in quotes then Some(quotes[assetId]) else None
  }

  // ---------------------------------------------------------------------------------------------
  // Rows and totals.

  datatype RowsOutcome = Rows(rows: seq<PositionRow>) | RowsRefused(reason: MarketPositions.InvalidTransaction)

  /** The row of one asset: its group, its transactions and its quote looked up. */
  function RowOf(a: Asset, groups: seq<Group>, txRows: seq<TxRow>, portfolioId: int,
                 quotes: map<int, Pricing.QuoteResult>): RowOutcome {
    AssetPosition(a, GroupOf(groups, a.groupId), AssetTxs(txRows, portfolioId, a.id), QuoteFor(quotes, a.id))
  }

  /** One row per asset in order, stopping at the first replay error. */
  function PositionRows(assets: seq<Asset>, groups: seq<Group>, txRows: seq<TxRow>, portfolioId: int,
                        quotes: map<int, Pricing.QuoteResult>): (r: RowsOutcome)
  {
    if assets == [] then Rows([])
    else
      var prev := PositionRows(assets[..|assets| - 1], groups, txRows, portfolioId, quotes);
      var row := RowOf(assets[|assets| - 1], groups, txRows, portfolioId, quotes);
      if prev.RowsRefused? then prev
      else if row.RowRefused? then RowsRefused(row.reason)
      else Rows(prev.rows + [row.row])
  }

  /** The rows follow the assets one for one. */
  lemma {:induction false} RowsFollowAssets(assets: seq<Asset>, groups: seq<Group>, txRows: seq<TxRow>, portfolioId: int,
                                            quotes: map<int, Pricing.QuoteResult>)
    requires PositionRows(assets, groups, txRows, portfolioId, quotes).Rows?
    ensures var rows := PositionRows(assets, groups, txRows, portfolioId, quotes).rows;
      |rows| == |assets| && forall i :: 0 <= i < |assets| ==> RowOf(assets[i], groups, txRows, portfolioId, quotes) == Row(rows[i])
  {
    if assets != [] {
      var prefix := assets[..|assets| - 1];
      var prev := PositionRows(prefix, groups, txRows, portfolioId, quotes);
      var last := RowOf(assets[|assets| - 1], groups, txRows, portfolioId, quotes);
      assert prev.Rows? && last.Row?;
      RowsFollowAssets(prefix, groups, txRows, portfolioId, quotes);
      var rows := PositionRows(assets, groups, txRows, portfolioId, quotes).rows;
      assert rows == prev.rows + [last.row];
      forall i | 0 <= i < |assets|
        ensures RowOf(assets[i], groups, txRows, portfolioId, quotes) == Row(rows[i])
      {
        if i < |prefix| {
          assert assets[i] == prefix[i];
        }
      }
    }
  }

  /** A P&L that is absent counts as 0. */
  function PnlOrZero(row: PositionRow): real {
    row.unrealizedPnl.GetOr(0.0)
  }

  function TotalValue(rows: seq<PositionRow>): real {
    if rows == [] then 0.0 else TotalValue(rows[..|rows| - 1]) + rows[|rows| - 1].currentValue
  }

  function TotalPnl(rows: seq<PositionRow>): real {
    if rows == [] then 0.0 else TotalPnl(rows[..|rows| - 1]) + PnlOrZero(rows[|rows| - 1])
  }

  function GroupNames(totals: seq<(string, GroupTotal)>): seq<string> {
    seq(|totals|, i requires 0 <= i < |totals| => totals[i].0)
  }

  /** `totals_by_group[name]["value"] += value; ...["pnl"] += pnl` on an insertion-ordered dictionary. */
  function AddToGroup(totals: seq<(string, GroupTotal)>, name: string, value: real, pnl: real): (r: seq<(string, GroupTotal)>)
    ensures name in GroupNames(totals) ==> GroupNames(r) == GroupNames(totals)
    ensures name !in GroupNames(totals) ==> GroupNames(r) == GroupNames(totals) + [name]
  {
    if totals == [] then [(name, GroupTotal(value, pnl))]
    else if totals[0].0 == name then
      var r := [(name, GroupTotal(totals[0].1.value + value, totals[0].1.pnl + pnl))] + totals[1..];
      assert forall i :: 0 <= i < |r| ==> GroupNames(r)[i] == GroupNames(totals)[i];
      assert GroupNames(r) == GroupNames(totals) && GroupNames(totals)[0] == name;
      r
    else
      var rest := AddToGroup(totals[1..], name, value, pnl);
      assert GroupNames(totals) == [totals[0].0] + GroupNames(totals[1..]);
      assert GroupNames([totals[0]] + rest) == [totals[0].0] + GroupNames(rest);
      [totals[0]] + rest
  }

  function GroupTotals(rows: seq<PositionRow>): seq<(string, GroupTotal)> {
    if rows == [] then []
    else
      var row := rows[|rows| - 1];
      AddToGroup(GroupTotals(rows[..|rows| - 1]), row.groupName, row.currentValue, PnlOrZero(row))
  }

  /** The (asset id, value) entries handed to the allocation. */
  function ValueEntries(rows: seq<PositionRow>): (r: seq<(int, real)>)
    ensures |r| == |rows|
    ensures forall i :: 0 <= i < |rows| ==> r[i] == (rows[i].assetId, rows[i].currentValue)
  {
    seq(|rows|, i requires 0 <= i < |rows| => (rows[i].assetId, rows[i].currentValue))
  }

  /** `allocation_map.get(key, 0.0)` */
  function DictGet(entries: seq<(int, real)>, key: int): real {
    if entries == [] then 0.0 else if entries[0].0 == key then entries[0].1 else DictGet(entries[1..], key)
  }

  predicate DistinctIds(assets: seq<Asset>) {
    forall i, j :: 0 <= i < j < |assets| ==> assets[i].id != assets[j].id
  }

  /** The snapshot the source computes. */
  function SnapshotOf(assets: seq<Asset>, groups: seq<Group>, txRows: seq<TxRow>, portfolioId: int,
                      quotes: map<int, Pricing.QuoteResult>): SnapshotOutcome {
    match PositionRows(DisplayOrder(assets, groups, portfolioId), groups, txRows, portfolioId, quotes)
    case RowsRefused(e) => SnapshotRefused(e)
    case Rows(rows) =>
      Built(DashboardSnapshot(Allocated(rows), GroupTotals(rows), TotalValue(rows), TotalPnl(rows)))
  }

  // ---------------------------------------------------------------------------------------------
  // The method.

  method BuildDashboardSnapshot(assets: seq<Asset>, groups: seq<Group>, txRows: seq<TxRow>, portfolioId: int,
                                quotes: map<int, Pricing.QuoteResult>) returns (r: SnapshotOutcome)
    ensures r == SnapshotOf(assets, groups, txRows, portfolioId, quotes)
  {
    var ordered := DisplayOrder(assets, groups, portfolioId);
    var txByAsset := GroupTransactions(txRows, portfolioId);
    var outcome := ComputeRows(ordered, groups, txRows, portfolioId, quotes, txByAsset);
    if outcome.RowsRefused? {
      return SnapshotRefused(outcome.reason);
    }
    var positions := outcome.rows;
    var totalsByGroup, totalValue, totalUnrealized := AccumulateTotals(positions);
    var rows := AssignAllocation(positions);
    r := Built(DashboardSnapshot(rows, totalsByGroup, totalValue, totalUnrealized));
  }

  /** `tx_by_asset`: the portfolio's stored transactions grouped by asset, each list in stored order. */
  /** `tx_by_asset.get(asset.id, [])`. */
  function TxsOf(txByAsset: map<int, seq<Tx>>, assetId: int): seq<Tx> {
    if assetId in txByAsset then txByAsset[assetId] else []
  }

  method GroupTransactions(txRows: seq<TxRow>, portfolioId: int) returns (txByAsset: map<int, seq<Tx>>)
    ensures forall id :: TxsOf(txByAsset, id) == AssetTxs(txRows, portfolioId, id)
  {
    txByAsset := map[];
    for i := 0 to |txRows|
      invariant forall id :: TxsOf(txByAsset, id) == AssetTxs(txRows[..i], portfolioId, id)
    {
      assert txRows[..i + 1][..i] == txRows[..i];
      var row := txRows[i];
      ghost var before := txByAsset;
      if row.portfolioId == portfolioId {
        var existing := TxsOf(txByAsset, row.assetId);
        txByAsset := txByAsset[row.assetId := existing + [row.tx]];
      }
      forall id ensures TxsOf(txByAsset, id) == AssetTxs(txRows[..i + 1], portfolioId, id) {
        assert AssetTxs(txRows[..i + 1], portfolioId, id) == TxsOf(before, id) +
          (if row.portfolioId == portfolioId && row.assetId == id then [row.tx] else []);
      }
    }
    assert txRows[..|txRows|] == txRows;
  }

  /** The loop calling `compute_asset_position` for each asset in display order. */
  method ComputeRows(ordered: seq<Asset>, groups: seq<Group>, txRows: seq<TxRow>, portfolioId: int,
                     quotes: map<int, Pricing.QuoteResult>, txByAsset: map<int, seq<Tx>>) returns (r: RowsOutcome)
    requires forall id :: TxsOf(txByAsset, id) == AssetTxs(txRows, portfolioId, id)
    ensures r == PositionRows(ordered, groups, txRows, portfolioId, quotes)
  {
    var positions: seq<PositionRow> := [];
    for i := 0 to |ordered|
      invariant PositionRows(ordered[..i], groups, txRows, portfolioId, quotes) == Rows(positions)
    {
      assert ordered[..i + 1][..i] == ordered[..i];
      var asset := ordered[i];
      var txs := TxsOf(txByAsset, asset.id);
      var position := AssetPosition(asset, GroupOf(groups, asset.groupId), txs, QuoteFor(quotes, asset.id));
      assert position == RowOf(asset, groups, txRows, portfolioId, quotes);
      if position.RowRefused? {
        RowsRefusalPersists(ordered, i + 1, groups, txRows, portfolioId, quotes);
        return RowsRefused(position.reason);
      }
      positions := positions + [position.row];
    }
    assert ordered[..|ordered|] == ordered;
    r := Rows(positions);
  }

  /** The totals loop: per group and overall, an absent P&L counting as 0. */
  method AccumulateTotals(positions: seq<PositionRow>) returns (totalsByGroup: seq<(string, GroupTotal)>, totalValue: real, totalUnrealized: real)
    ensures totalsByGroup == GroupTotals(positions)
    ensures totalValue == TotalValue(positions) && totalUnrealized == TotalPnl(positions)
  {
    totalsByGroup := [];
    totalValue, totalUnrealized := 0.0, 0.0;
    for i := 0 to |positions|
      invariant totalsByGroup == GroupTotals(positions[..i])
      invariant totalValue == TotalValue(positions[..i]) && totalUnrealized == TotalPnl(positions[..i])
    {
      assert positions[..i + 1][..i] == positions[..i];
      var position := positions[i];
      var pnl := if position.unrealizedPnl.Some? then position.unrealizedPnl.value else 0.0;
      totalsByGroup := AddToGroup(totalsByGroup, position.groupName, position.currentValue, pnl);
      totalValue := totalValue + position.currentValue;
      totalUnrealized := totalUnrealized + pnl;
    }
    assert positions[..|positions|] == positions;
  }

  /** The last loop: each row takes its share from the allocation map (0 if absent). */
  method AssignAllocation(positions: seq<PositionRow>) returns (rows: seq<PositionRow>)
    ensures rows == Allocated(positions)
  {
    var allocationMap := AllocationPercentages(ValueEntries(positions));
    rows := positions;
    for i := 0 to |rows|
      invariant |rows| == |positions|
      invariant forall j :: 0 <= j < i ==> rows[j] == positions[j].(allocationPct := DictGet(allocationMap, positions[j].assetId))
      invariant forall j :: i <= j < |rows| ==> rows[j] == positions[j]
    {
      rows := rows[i := rows[i].(allocationPct := DictGet(allocationMap, rows[i].assetId))];
    }
  }

  lemma {:induction false} RowsRefusalPersists(assets: seq<Asset>, j: nat, groups: seq<Group>, txRows: seq<TxRow>,
                                               portfolioId: int, quotes: map<int, Pricing.QuoteResult>)
    requires j <= |assets| && PositionRows(assets[..j], groups, txRows, portfolioId, quotes).RowsRefused?
    ensures PositionRows(assets, groups, txRows, portfolioId, quotes) == PositionRows(assets[..j], groups, txRows, portfolioId, quotes)
    decreases |assets| - j
  {
    if j < |assets| {
      var prefix := assets[..|assets| - 1];
      assert prefix[..j] == assets[..j];
      RowsRefusalPersists(prefix, j, groups, txRows, portfolioId, quotes);
    } else {
      assert assets[..j] == assets;
    }
  }

  // ---------------------------------------------------------------------------------------------
  // Totals: the overall totals are the sums of the per-group totals, and each group's total is
  // the sum over the rows of that group.

  function SumGroupValues(totals: seq<(string, GroupTotal)>): real {
    if totals == [] then 0.0 else totals[0].1.value + SumGroupValues(totals[1..])
  }

  function SumGroupPnls(totals: seq<(string, GroupTotal)>): real {
    if totals == [] then 0.0 else totals[0].1.pnl + SumGroupPnls(totals[1..])
  }

  lemma {:induction false} AddToGroupSums(totals: seq<(string, GroupTotal)>, name: string, value: real, pnl: real)
    ensures SumGroupValues(AddToGroup(totals, name, value, pnl)) == SumGroupValues(totals) + value
    ensures SumGroupPnls(AddToGroup(totals, name, value, pnl)) == SumGroupPnls(totals) + pnl
  {
    if totals == [] {
      assert AddToGroup(totals, name, value, pnl)[1..] == [];
    } else if totals[0].0 == name {
      assert AddToGroup(totals, name, value, pnl)[1..] == totals[1..];
    } else {
      var rest := AddToGroup(totals[1..], name, value, pnl);
      AddToGroupSums(totals[1..], name, value, pnl);
      assert AddToGroup(totals, name, value, pnl)[1..] == rest;
    }
  }

  /** `total_value` is the sum of the group values, `total_unrealized_pnl` of the group P&Ls. */
  lemma {:induction false} GroupTotalsAddUp(rows: seq<PositionRow>)
    ensures SumGroupValues(GroupTotals(rows)) == TotalValue(rows)
    ensures SumGroupPnls(GroupTotals(rows)) == TotalPnl(rows)
  {
    if rows != [] {
      var row := rows[|rows| - 1];
      GroupTotalsAddUp(rows[..|rows| - 1]);
      AddToGroupSums(GroupTotals(rows[..|rows| - 1]), row.groupName, row.currentValue, PnlOrZero(row));
    }
  }

  /** `totals_by_group[name]`: the first entry for the name, zero if there is none. */
  function TotalOf(totals: seq<(string, GroupTotal)>, name: string): GroupTotal {
    if totals == [] then GroupTotal(0.0, 0.0)
    else if totals[0].0 == name then totals[0].1
    else TotalOf(totals[1..], name)
  }

  /** The value of the rows of one group. */
  function GroupValue(rows: seq<PositionRow>, name: string): real {
    if rows == [] then 0.0
    else GroupValue(rows[..|rows| - 1], name) + (if rows[|rows| - 1].groupName == name then rows[|rows| - 1].currentValue else 0.0)
  }

  /** The P&L of the rows of one group, an absent P&L counting as 0. */
  function GroupPnl(rows: seq<PositionRow>, name: string): real {
    if rows == [] then 0.0
    else GroupPnl(rows[..|rows| - 1], name) + (if rows[|rows| - 1].groupName == name then PnlOrZero(rows[|rows| - 1]) else 0.0)
  }

  lemma {:induction false} AddToGroupTotalOf(totals: seq<(string, GroupTotal)>, name: string, value: real, pnl: real, other: string)
    ensures other == name ==>
      TotalOf(AddToGroup(totals, name, value, pnl), other) == GroupTotal(TotalOf(totals, name).value + value, TotalOf(totals, name).pnl + pnl)
    ensures other != name ==> TotalOf(AddToGroup(totals, name, value, pnl), other) == TotalOf(totals, other)
  {
    if totals != [] && totals[0].0 != name {
      var rest := AddToGroup(totals[1..], name, value, pnl);
      AddToGroupTotalOf(totals[1..], name, value, pnl, other);
      assert AddToGroup(totals, name, value, pnl) == [totals[0]] + rest;
      assert ([totals[0]] + rest)[1..] == rest;
    } else if totals != [] {
      var r := AddToGroup(totals, name, value, pnl);
      assert r[1..] == totals[1..];
    }
  }

  /** Each group's entry holds the value and the P&L of exactly the rows of that group. */
  lemma {:induction false} GroupTotalsAreGroupSums(rows: seq<PositionRow>, name: string)
    ensures TotalOf(GroupTotals(rows), name) == GroupTotal(GroupValue(rows, name), GroupPnl(rows, name))
  {
    if rows != [] {
      var row := rows[|rows| - 1];
      GroupTotalsAreGroupSums(rows[..|rows| - 1], name);
      AddToGroupTotalOf(GroupTotals(rows[..|rows| - 1]), row.groupName, row.currentValue, PnlOrZero(row), name);
    }
  }

  predicate DistinctNames(names: seq<string>) {
    forall i, j :: 0 <= i < j < |names| ==> names[i] != names[j]
  }

  /**
   * The groups listed are exactly the groups of the rows, each once, in the order of their first
   * row.
   */
  lemma {:induction false} GroupNamesAreRowGroups(rows: seq<PositionRow>)
    ensures DistinctNames(GroupNames(GroupTotals(rows)))
    ensures forall name :: name in GroupNames(GroupTotals(rows)) <==> exists i :: 0 <= i < |rows| && rows[i].groupName == name
  {
    if rows != [] {
      var prefix := rows[..|rows| - 1];
      var row := rows[|rows| - 1];
      GroupNamesAreRowGroups(prefix);
      var before := GroupNames(GroupTotals(prefix));
      var after := GroupNames(GroupTotals(rows));
      assert after == before || (row.groupName !in before && after == before + [row.groupName]);
      forall name | name in after ensures exists i :: 0 <= i < |rows| && rows[i].groupName == name {
        if name == row.groupName {
          assert rows[|rows| - 1].groupName == name;
        } else {
          assert name in before;
          var i :| 0 <= i < |prefix| && prefix[i].groupName == name;
          assert rows[i] == prefix[i];
        }
      }
      forall name | exists i :: 0 <= i < |rows| && rows[i].groupName == name ensures name in after {
        var i :| 0 <= i < |rows| && rows[i].groupName == name;
        if i < |prefix| {
          assert prefix[i] == rows[i];
          assert name in before;
        }
      }
    }
  }

  // ---------------------------------------------------------------------------------------------
  // Allocation shares of the snapshot.

  predicate DistinctKeys(entries: seq<(int, real)>) {
    forall i, j :: 0 <= i < j < |entries| ==> entries[i].0 != entries[j].0
  }

  /** With distinct keys, a key's lookup finds its own entry. */
  lemma {:induction false} DictGetAt(entries: seq<(int, real)>, i: nat)
    requires DistinctKeys(entries) && i < |entries|
    ensures DictGet(entries, entries[i].0) == entries[i].1
  {
    if i > 0 {
      assert entries[0].0 != entries[i].0;
      assert entries[1..][i - 1] == entries[i];
      DictGetAt(entries[1..], i - 1);
    }
  }

  function SumPct(rows: seq<PositionRow>): real {
    if rows == [] then 0.0 else SumPct(rows[..|rows| - 1]) + rows[|rows| - 1].allocationPct
  }

  lemma {:induction false} TotalValueIsSumOfEntries(rows: seq<PositionRow>)
    ensures SumValues(ValueEntries(rows)) == TotalValue(rows)
  {
    if rows != [] {
      TotalValueIsSumOfEntries(rows[..|rows| - 1]);
      assert ValueEntries(rows)[..|rows| - 1] == ValueEntries(rows[..|rows| - 1]);
    }
  }

  lemma {:induction false} SumPctIsSumValues(rows: seq<PositionRow>, shares: seq<(int, real)>)
    requires |rows| == |shares|
    requires forall i :: 0 <= i < |rows| ==> rows[i].allocationPct == shares[i].1
    ensures SumPct(rows) == SumValues(shares)
  {
    if rows != [] {
      SumPctIsSumValues(rows[..|rows| - 1], shares[..|shares| - 1]);
    }
  }

  /** The rows with their shares filled in from the allocation map. */
  function Allocated(rows: seq<PositionRow>): (r: seq<PositionRow>)
    ensures |r| == |rows|
  {
    seq(|rows|, i requires 0 <= i < |rows| => rows[i].(allocationPct := DictGet(AllocationPercentages(ValueEntries(rows)), rows[i].assetId)))
  }

  /**
   * For rows of distinct assets: with a positive total the shares add up to 100 and each is the
   * row's value over the total; otherwise every share is 0.
   */
  lemma AllocatedShares(rows: seq<PositionRow>)
    requires forall i, j :: 0 <= i < j < |rows| ==> rows[i].assetId != rows[j].assetId
    ensures TotalValue(rows) > 0.0 ==> SumPct(Allocated(rows)) == 100.0
    ensures TotalValue(rows) > 0.0 ==> forall i :: 0 <= i < |rows| ==>
      Allocated(rows)[i].allocationPct == Share(rows[i].currentValue, TotalValue(rows))
    ensures TotalValue(rows) <= 0.0 ==> forall i :: 0 <= i < |rows| ==> Allocated(rows)[i].allocationPct == 0.0
  {
    var entries := ValueEntries(rows);
    var shares := AllocationPercentages(entries);
    var out := Allocated(rows);
    TotalValueIsSumOfEntries(rows);
    assert DistinctKeys(shares);
    forall i | 0 <= i < |rows| ensures out[i].allocationPct == shares[i].1 {
      DictGetAt(shares, i);
    }
    if TotalValue(rows) > 0.0 {
      SumPctIsSumValues(out, shares);
      AllocationSumsTo100(entries);
    }
  }

  // ---------------------------------------------------------------------------------------------
  // Distinct asset ids survive the filter and the sort.

  lemma {:induction false} ActiveAssetsDistinct(assets: seq<Asset>, portfolioId: int)
    requires DistinctIds(assets)
    ensures DistinctIds(ActiveAssets(assets, portfolioId))
  {
    if assets != [] {
      var prefix := assets[..|assets| - 1];
      var a := assets[|assets| - 1];
      assert DistinctIds(prefix) by {
        forall i, j | 0 <= i < j < |prefix| ensures prefix[i].id != prefix[j].id {
          assert prefix[i] == assets[i] && prefix[j] == assets[j];
        }
      }
      ActiveAssetsDistinct(prefix, portfolioId);
      var rest := ActiveAssets(prefix, portfolioId);
      forall b | b in rest ensures b.id != a.id {
        var k :| 0 <= k < |prefix| && prefix[k] == b;
        assert assets[k] == b;
      }
      if a.portfolioId == portfolioId && !a.archived {
        var r := rest + [a];
        forall i, j | 0 <= i < j < |r| ensures r[i].id != r[j].id {
          if j == |rest| {
            assert r[i] in rest;
          } else {
            assert r[i] == rest[i] && r[j] == rest[j];
          }
        }
      }
    }
  }

  lemma {:induction false} DistinctIdsRemove(a: seq<Asset>, k: nat)
    requires DistinctIds(a) && k < |a|
    ensures DistinctIds(a[..k] + a[k + 1..])
  {
    var r := a[..k] + a[k + 1..];
    forall i, j | 0 <= i < j < |r| ensures r[i].id != r[j].id {
      var i' := if i < k then i else i + 1;
      var j' := if j < k then j else j + 1;
      assert r[i] == a[i'] && r[j] == a[j'];
    }
  }

  /** What is left after removing entry k of a list of distinct ids has no entry with k's id. */
  lemma OthersDifferFromRemoved(a: seq<Asset>, k: nat, others: seq<Asset>)
    requires DistinctIds(a) && k < |a|
    requires multiset(others) == multiset(a[..k] + a[k + 1..])
    ensures forall i :: 0 <= i < |others| ==> others[i].id != a[k].id
  {
    var rest := a[..k] + a[k + 1..];
    forall i | 0 <= i < |others| ensures others[i].id != a[k].id {
      assert others[i] in multiset(rest);
      var m :| 0 <= m < |rest| && rest[m] == others[i];
      if m < k {
        assert rest[m] == a[m];
      } else {
        assert rest[m] == a[m + 1];
      }
    }
  }

  lemma {:induction false} DistinctIdsPermutation(a: seq<Asset>, b: seq<Asset>)
    requires multiset(a) == multiset(b) && DistinctIds(a)
    ensures DistinctIds(b)
    decreases |b|
  {
    if b != [] {
      var x := b[|b| - 1];
      var b' := b[..|b| - 1];
      assert b == b' + [x];
      assert x in multiset(a);
      var k, a' := Sorting.Extract(a, x);
      assert multiset(a') == multiset(b');
      DistinctIdsRemove(a, k);
      DistinctIdsPermutation(a', b');
      OthersDifferFromRemoved(a, k, b');
      forall i, j | 0 <= i < j < |b| ensures b[i].id != b[j].id {
        if j < |b'| {
          assert b[i] == b'[i] && b[j] == b'[j];
        } else {
          assert b[i] == b'[i];
        }
      }
    }
  }

  // ---------------------------------------------------------------------------------------------
  // The snapshot as a whole.

  /** The rows are the displayed assets, one for one and in display order. */
  lemma SnapshotRowsInDisplayOrder(assets: seq<Asset>, groups: seq<Group>, txRows: seq<TxRow>, portfolioId: int,
                                   quotes: map<int, Pricing.QuoteResult>)
    requires SnapshotOf(assets, groups, txRows, portfolioId, quotes).Built?
    ensures var positions := SnapshotOf(assets, groups, txRows, portfolioId, quotes).snapshot.positions;
      var ordered := DisplayOrder(assets, groups, portfolioId);
      |positions| == |ordered| &&
      forall i :: 0 <= i < |ordered| ==>
        positions[i].assetId == ordered[i].id && positions[i].symbol == ordered[i].symbol &&
        positions[i].groupName == RowGroupName(GroupOf(groups, ordered[i].groupId))
  {
    var ordered := DisplayOrder(assets, groups, portfolioId);
    RowsFollowAssets(ordered, groups, txRows, portfolioId, quotes);
  }

  /**
   * The snapshot's overall totals are the sums of its group totals, and each group total is the
   * sum over that group's rows.
   */
  lemma SnapshotTotals(assets: seq<Asset>, groups: seq<Group>, txRows: seq<TxRow>, portfolioId: int,
                       quotes: map<int, Pricing.QuoteResult>, name: string)
    requires SnapshotOf(assets, groups, txRows, portfolioId, quotes).Built?
    ensures var s := SnapshotOf(assets, groups, txRows, portfolioId, quotes).snapshot;
      s.totalValue == SumGroupValues(s.groupTotals) && s.totalUnrealizedPnl == SumGroupPnls(s.groupTotals) &&
      TotalOf(s.groupTotals, name) == GroupTotal(GroupValue(s.positions, name), GroupPnl(s.positions, name))
  {
    var rows := PositionRows(DisplayOrder(assets, groups, portfolioId), groups, txRows, portfolioId, quotes).rows;
    GroupTotalsAddUp(rows);
    GroupTotalsAreGroupSums(rows, name);
    GroupSumsIgnoreAllocation(rows, Allocated(rows), name);
  }

  lemma {:induction false} GroupSumsIgnoreAllocation(rows: seq<PositionRow>, other: seq<PositionRow>, name: string)
    requires |rows| == |other|
    requires forall i :: 0 <= i < |rows| ==> other[i] == rows[i].(allocationPct := other[i].allocationPct)
    ensures GroupValue(other, name) == GroupValue(rows, name) && GroupPnl(other, name) == GroupPnl(rows, name)
  {
    if rows != [] {
      GroupSumsIgnoreAllocation(rows[..|rows| - 1], other[..|other| - 1], name);
    }
  }

  /**
   * The allocation of a snapshot (asset ids being distinct): with a positive total value the
   * shares add up to 100, otherwise they are all 0.
   */
  lemma SnapshotAllocation(assets: seq<Asset>, groups: seq<Group>, txRows: seq<TxRow>, portfolioId: int,
                           quotes: map<int, Pricing.QuoteResult>)
    requires DistinctIds(assets)
    requires SnapshotOf(assets, groups, txRows, portfolioId, quotes).Built?
    ensures var s := SnapshotOf(assets, groups, txRows, portfolioId, quotes).snapshot;
      (s.totalValue > 0.0 ==> SumPct(s.positions) == 100.0) &&
      (s.totalValue <= 0.0 ==> forall i :: 0 <= i < |s.positions| ==> s.positions[i].allocationPct == 0.0)
  {
    var ordered := DisplayOrder(assets, groups, portfolioId);
    ActiveAssetsDistinct(assets, portfolioId);
    DistinctIdsPermutation(ActiveAssets(assets, portfolioId), ordered);
    RowsFollowAssets(ordered, groups, txRows, portfolioId, quotes);
    var rows := PositionRows(ordered, groups, txRows, portfolioId, quotes).rows;
    forall i, j | 0 <= i < j < |rows| ensures rows[i].assetId != rows[j].assetId {
      assert rows[i].assetId == ordered[i].id && rows[j].assetId == ordered[j].id;
    }
    AllocatedShares(rows);
  }

  /** A position row of a displayed asset is refused iff it is a market asset whose replay raises. */
  lemma {:induction false} RefusedRowsHaveRefusedAsset(assets: seq<Asset>, groups: seq<Group>, txRows: seq<TxRow>, portfolioId: int,
                                                       quotes: map<int, Pricing.QuoteResult>)
    requires PositionRows(assets, groups, txRows, portfolioId, quotes).RowsRefused?
    ensures exists k :: 0 <= k < |assets| && RowOf(assets[k], groups, txRows, portfolioId, quotes).RowRefused?
  {
    var prefix := assets[..|assets| - 1];
    if PositionRows(prefix, groups, txRows, portfolioId, quotes).RowsRefused? {
      RefusedRowsHaveRefusedAsset(prefix, groups, txRows, portfolioId, quotes);
      var k :| 0 <= k < |prefix| && RowOf(prefix[k], groups, txRows, portfolioId, quotes).RowRefused?;
      assert assets[k] == prefix[k];
    } else {
      assert RowOf(assets[|assets| - 1], groups, txRows, portfolioId, quotes).RowRefused?;
    }
  }

  predicate ReplayRaises(txRows: seq<TxRow>, portfolioId: int, a: Asset) {
    a.assetType == Market && MarketPositions.MarketReplay(TxOrder.SortTransactions(AssetTxs(txRows, portfolioId, a.id))).Rejected?
  }

  /** No snapshot is built exactly when the replay of some active market asset raises. */
  lemma SnapshotRefusedIffReplayRaises(assets: seq<Asset>, groups: seq<Group>, txRows: seq<TxRow>, portfolioId: int,
                                       quotes: map<int, Pricing.QuoteResult>)
    ensures SnapshotOf(assets, groups, txRows, portfolioId, quotes).SnapshotRefused? <==>
      exists a :: a in ActiveAssets(assets, portfolioId) && ReplayRaises(txRows, portfolioId, a)
  {
    var ordered := DisplayOrder(assets, groups, portfolioId);
    var outcome := PositionRows(ordered, groups, txRows, portfolioId, quotes);
    if outcome.RowsRefused? {
      RefusedRowsHaveRefusedAsset(ordered, groups, txRows, portfolioId, quotes);
      var k :| 0 <= k < |ordered| && RowOf(ordered[k], groups, txRows, portfolioId, quotes).RowRefused?;
      assert ordered[k] in multiset(ordered);
      assert ReplayRaises(txRows, portfolioId, ordered[k]);
    } else {
      RowsFollowAssets(ordered, groups, txRows, portfolioId, quotes);
      forall a | a in ActiveAssets(assets, portfolioId) ensures !ReplayRaises(txRows, portfolioId, a) {
        assert a in multiset(ordered);
        var k :| 0 <= k < |ordered| && ordered[k] == a;
        assert RowOf(ordered[k], groups, txRows, portfolioId, quotes).Row?;
      }
    }
  }
}
