/**
 * Replay of a MANUAL asset's history: BUYs accumulate the invested amount, and the most
 * recent MANUAL_VALUE_UPDATE (in canonical order) gives the current value. SELLs and the
 * `invested_override` column are not read by this replay.
 */
module ManualPositions {
  import opened Wrappers
  import opened Ledger
  import opened TxOrder
  import MarketPositions
  import Sorting

  /** The replay's result. `unrealizedPnl` is None unless something was invested. */
  datatype ManualPosition = ManualPosition(
    currentValue: real,
    investedTotal: real,
    unrealizedPnl: Option<real>,
    asOf: Option<int>)

  /** The loop's accumulators: invested total, and the latest manual value with its time. */
  datatype ManualAcc = ManualAcc(invested: real, latestValue: Option<real>, latestAt: Option<int>)

  /** One iteration of the replay loop; any other type is skipped. */
  function ManualStep(acc: ManualAcc, tx: Tx): ManualAcc {
    match tx.kind
    case Buy => acc.(invested := acc.invested + MarketPositions.LotCost(tx))
    case ManualValueUpdate => acc.(latestValue := Some(tx.ManualAmount()), latestAt := Some(tx.timestamp))
    case _ => acc
  }

  /** The fold over an ordered history. A latest value is known exactly when its time is. */
  function ManualFold(s: seq<Tx>): (r: ManualAcc)
    ensures r.latestValue.Some? <==> r.latestAt.Some?
  {
    if s == [] then ManualAcc(0.0, None, None)
    else ManualStep(ManualFold(s[..|s| - 1]), s[|s| - 1])
  }

  /** The lines after the loop: no update means value 0; P&L only when something was invested. */
  function Settle(acc: ManualAcc): (r: ManualPosition)
    ensures r.investedTotal == acc.invested && r.asOf == acc.latestAt
    ensures acc.latestValue.None? ==> r.currentValue == 0.0
    ensures acc.latestValue.Some? ==> r.currentValue == acc.latestValue.value
    ensures r.unrealizedPnl.Some? <==> acc.invested > 0.0
    ensures r.unrealizedPnl.Some? ==> r.unrealizedPnl.value == r.currentValue - r.investedTotal
  {
    var current := acc.latestValue.GetOr(0.0);
    ManualPosition(current, acc.invested, if acc.invested > 0.0 then Some(current - acc.invested) else None, acc.latestAt)
  }

  function ManualReplay(s: seq<Tx>): ManualPosition {
    Settle(ManualFold(s))
  }

  /** `compute_manual_position`: sort, then fold. It never refuses a history. */
  method ComputeManualPosition(txs: seq<Tx>) returns (r: ManualPosition)
    ensures r == ManualReplay(SortTransactions(txs))
  {
    var ordered := SortTransactions(txs);
    var investedTotal := 0.0;
    var latestValue: Option<real> := None;
    var latestValueAt: Option<int> := None;
    for i := 0 to |ordered|
      invariant ManualFold(ordered[..i]) == ManualAcc(investedTotal, latestValue, latestValueAt)
    {
      assert ordered[..i + 1][..i] == ordered[..i];
      investedTotal, latestValue, latestValueAt := ApplyManualTx(investedTotal, latestValue, latestValueAt, ordered[i]);
    }
    assert ordered[..|ordered|] == ordered;
    var currentValue := if latestValue.Some? then latestValue.value else 0.0;
    var unrealized := if investedTotal > 0.0 then Some(currentValue - investedTotal) else None;
    r := ManualPosition(currentValue, investedTotal, unrealized, latestValueAt);
  }

  /** The body of the replay loop. */
  method ApplyManualTx(investedTotal: real, latestValue: Option<real>, latestValueAt: Option<int>, tx: Tx)
    returns (investedTotal': real, latestValue': Option<real>, latestValueAt': Option<int>)
    ensures ManualAcc(investedTotal', latestValue', latestValueAt') ==
      ManualStep(ManualAcc(investedTotal, latestValue, latestValueAt), tx)
  {
    investedTotal', latestValue', latestValueAt' := investedTotal, latestValue, latestValueAt;
    match tx.kind {
      case Buy =>
        investedTotal' := investedTotal + (tx.Qty() * tx.Px() + tx.fees);
      case ManualValueUpdate =>
        latestValue' := Some(tx.ManualAmount());
        latestValueAt' := Some(tx.timestamp);
      case _ =>
    }
  }

  // ---------------------------------------------------------------------------------------------
  // The invested total: the cost of every BUY, whatever the order.

  /** Cost of the BUYs of a history, summed from the front. */
  function BoughtCost(s: seq<Tx>): real {
    if s == [] then 0.0
    else BuyCost(s[0]) + BoughtCost(s[1..])
  }

  function BuyCost(tx: Tx): real {
    if tx.kind == Buy then MarketPositions.LotCost(tx) else 0.0
  }

  lemma {:induction false} BoughtCostAppend(s: seq<Tx>, t: seq<Tx>)
    ensures BoughtCost(s + t) == BoughtCost(s) + BoughtCost(t)
    decreases |s|
  {
    if s == [] {
      assert s + t == t;
    } else {
      assert (s + t)[1..] == s[1..] + t;
      BoughtCostAppend(s[1..], t);
    }
  }

  /** The invested total does not depend on the order of the history. */
  lemma {:induction false} BoughtCostPermutation(s: seq<Tx>, t: seq<Tx>)
    requires multiset(s) == multiset(t)
    ensures BoughtCost(s) == BoughtCost(t)
    decreases |s|
  {
    if s != [] {
      var k, rest := Sorting.Extract(t, s[0]);
      assert s == [s[0]] + s[1..];
      BoughtCostPermutation(s[1..], rest);
      BoughtCostRemove(t, k);
    }
  }

  /** Taking one transaction out of a history takes its cost out of the sum. */
  lemma BoughtCostRemove(t: seq<Tx>, k: nat)
    requires k < |t|
    ensures BoughtCost(t) == BoughtCost(t[..k] + t[k + 1..]) + BuyCost(t[k])
  {
    assert t == t[..k] + ([t[k]] + t[k + 1..]);
    BoughtCostAppend(t[..k], [t[k]] + t[k + 1..]);
    BoughtCostAppend(t[..k], t[k + 1..]);
    assert ([t[k]] + t[k + 1..])[1..] == t[k + 1..];
  }

  /** The loop's invested total is the cost of the history's BUYs. */
  lemma {:induction false} InvestedIsBoughtCost(s: seq<Tx>)
    ensures ManualFold(s).invested == BoughtCost(s)
  {
    if s != [] {
      var s', tx := s[..|s| - 1], s[|s| - 1];
      InvestedIsBoughtCost(s');
      assert s == s' + [tx];
      BoughtCostAppend(s', [tx]);
      assert [tx][1..] == [];
    }
  }

  /** So `compute_manual_position` invests the cost of every BUY it was given, in any order. */
  lemma ManualInvestedTotal(txs: seq<Tx>)
    ensures ManualReplay(SortTransactions(txs)).investedTotal == BoughtCost(txs)
  {
    InvestedIsBoughtCost(SortTransactions(txs));
    BoughtCostPermutation(SortTransactions(txs), txs);
  }

  // ---------------------------------------------------------------------------------------------
  // The current value: the last MANUAL_VALUE_UPDATE of the ordered history.

  /**
   * The latest value comes from the last MANUAL_VALUE_UPDATE: k is its index, or -1 when there
   * is none, in which case there is no value and no time.
   */
  lemma {:induction false} LatestUpdate(s: seq<Tx>) returns (k: int)
    ensures -1 <= k < |s|
    ensures forall j :: k < j < |s| ==> s[j].kind != ManualValueUpdate
    ensures k == -1 ==> ManualFold(s).latestValue.None? && ManualFold(s).latestAt.None?
    ensures k >= 0 ==> s[k].kind == ManualValueUpdate
    ensures k >= 0 ==> ManualFold(s).latestValue == Some(s[k].ManualAmount()) && ManualFold(s).latestAt == Some(s[k].timestamp)
  {
    if s == [] {
      k := -1;
    } else if s[|s| - 1].kind == ManualValueUpdate {
      k := |s| - 1;
    } else {
      k := LatestUpdate(s[..|s| - 1]);
    }
  }

  // ---------------------------------------------------------------------------------------------
  // What the replay does not read.

  /** The history as the manual replay sees it: SELLs and other types dropped, overrides cleared. */
  function Relevant(s: seq<Tx>): (r: seq<Tx>)
    ensures |r| <= |s|
    ensures forall i :: 0 <= i < |r| ==> (r[i].kind == Buy || r[i].kind == ManualValueUpdate) && r[i].investedOverride == None
  {
    if s == [] then []
    else
      var tx := s[|s| - 1];
      Relevant(s[..|s| - 1]) +
        (if tx.kind == Buy || tx.kind == ManualValueUpdate then [tx.(investedOverride := None)] else [])
  }

  /** Removing SELLs and clearing `invested_override` does not change the replay. */
  lemma {:induction false} OnlyRelevantCounts(s: seq<Tx>)
    ensures ManualFold(s) == ManualFold(Relevant(s))
  {
    if s != [] {
      var s', tx := s[..|s| - 1], s[|s| - 1];
      OnlyRelevantCounts(s');
      var r' := Relevant(s');
      assert s[..|s| - 1] == s';
      if tx.kind == Buy || tx.kind == ManualValueUpdate {
        var x := tx.(investedOverride := None);
        assert Relevant(s) == r' + [x];
        assert (r' + [x])[..|r'|] == r';
        StepIgnoresOverride(ManualFold(s'), tx);
      } else {
        assert Relevant(s) == r' + [] == r';
      }
    }
  }

  lemma StepIgnoresOverride(acc: ManualAcc, tx: Tx)
    ensures ManualStep(acc, tx.(investedOverride := None)) == ManualStep(acc, tx)
  {
    assert MarketPositions.LotCost(tx.(investedOverride := None)) == MarketPositions.LotCost(tx);
  }

  // ---------------------------------------------------------------------------------------------
  // Worked examples.

  function ValueUpdateTx(id: int, value: real, investedOverride: Option<real>): Tx {
    Tx(Some(id), ManualValueUpdate, id, None, None, 0.0, Some(value), investedOverride)
  }

  /** Invested 6500 (as a BUY of 6500 at 1.0), valued at 7000: P&L 500. */
  lemma InvestedAndValueExample()
    ensures var txs := [MarketPositions.BuyTx(1, 6500.0, 1.0, 0.0), ValueUpdateTx(2, 7000.0, None)];
      ManualReplay(SortTransactions(txs)) == ManualPosition(7000.0, 6500.0, Some(500.0), Some(2))
  {
    var t0, t1 := MarketPositions.BuyTx(1, 6500.0, 1.0, 0.0), ValueUpdateTx(2, 7000.0, None);
    MarketPositions.OrderedHistoryUnchanged([t0, t1]);
    assert [t0, t1][..1] == [t0];
    assert [t0][..0] == [];
    assert t0.Qty() == 6500.0 && t0.Px() == 1.0;
    assert ManualFold([t0]) == ManualAcc(6500.0, None, None);
    assert ManualFold([t0, t1]) == ManualAcc(6500.0, Some(7000.0), Some(2));
  }

  /** A value update alone: value 5000, nothing invested, so no P&L. */
  lemma ValueOnlyExample()
    ensures ManualReplay(SortTransactions([ValueUpdateTx(1, 5000.0, None)])) ==
      ManualPosition(5000.0, 0.0, None, Some(1))
  {
    var t0 := ValueUpdateTx(1, 5000.0, None);
    MarketPositions.OrderedHistoryUnchanged([t0]);
    assert [t0][..0] == [];
    assert ManualFold([t0]) == ManualAcc(0.0, Some(5000.0), Some(1));
  }

  /**
   * BUY 100000 at 1.0, value 100000, SELL 20000 at 20000, value 80000: the SELL is not read,
   * so 100000 stays invested and the P&L is -20000.
   */
  lemma ManualSellNotReadExample()
    ensures var txs := [MarketPositions.BuyTx(1, 100000.0, 1.0, 0.0), ValueUpdateTx(2, 100000.0, None),
                        MarketPositions.SellTx(3, 20000.0, 20000.0), ValueUpdateTx(4, 80000.0, None)];
      ManualReplay(SortTransactions(txs)) == ManualPosition(80000.0, 100000.0, Some(-20000.0), Some(4))
  {
    var t0, t1 := MarketPositions.BuyTx(1, 100000.0, 1.0, 0.0), ValueUpdateTx(2, 100000.0, None);
    var t2, t3 := MarketPositions.SellTx(3, 20000.0, 20000.0), ValueUpdateTx(4, 80000.0, None);
    MarketPositions.OrderedHistoryUnchanged([t0, t1, t2, t3]);
    ManualSellNotReadFold(t0, t1, t2, t3);
  }

  lemma ManualSellNotReadFold(t0: Tx, t1: Tx, t2: Tx, t3: Tx)
    requires t0 == MarketPositions.BuyTx(1, 100000.0, 1.0, 0.0) && t1 == ValueUpdateTx(2, 100000.0, None)
    requires t2 == MarketPositions.SellTx(3, 20000.0, 20000.0) && t3 == ValueUpdateTx(4, 80000.0, None)
    ensures ManualFold([t0, t1, t2, t3]) == ManualAcc(100000.0, Some(80000.0), Some(4))
  {
    assert [t0, t1, t2, t3][..3] == [t0, t1, t2];
    assert [t0, t1, t2][..2] == [t0, t1];
    assert [t0, t1][..1] == [t0];
    assert [t0][..0] == [];
    assert t0.Qty() == 100000.0 && t0.Px() == 1.0;
    assert ManualFold([t0]) == ManualAcc(100000.0, None, None);
    assert ManualFold([t0, t1, t2]) == ManualAcc(100000.0, Some(100000.0), Some(2));
  }

  /** An update carrying `invested_override` 162811 leaves the BUY's 166054 invested. */
  lemma OverrideNotReadExample()
    ensures var txs := [MarketPositions.BuyTx(1, 1.0, 166054.0, 0.0), ValueUpdateTx(2, 162811.0, Some(162811.0))];
      ManualReplay(SortTransactions(txs)) == ManualPosition(162811.0, 166054.0, Some(-3243.0), Some(2))
  {
    var t0, t1 := MarketPositions.BuyTx(1, 1.0, 166054.0, 0.0), ValueUpdateTx(2, 162811.0, Some(162811.0));
    MarketPositions.OrderedHistoryUnchanged([t0, t1]);
    assert [t0, t1][..1] == [t0];
    assert [t0][..0] == [];
    assert t0.Qty() == 1.0 && t0.Px() == 166054.0;
    assert ManualFold([t0]) == ManualAcc(166054.0, None, None);
    assert ManualFold([t0, t1]) == ManualAcc(166054.0, Some(162811.0), Some(2));
  }
}
