/**
 * Replay of a MARKET asset's history into a running quantity and a weighted-average cost.
 * `MarketReplay` is the fold over an already ordered history; `ComputeMarketPosition` is the
 * engine's loop, which first puts the history into the canonical order.
 */
module MarketPositions {
  import opened Wrappers
  import opened Ledger
  import opened TxOrder
  import Sorting

  /** Tolerance for overselling, and below which a remaining quantity counts as zero. */
  const Epsilon: real := 0.000000001

  datatype MarketPosition = MarketPosition(quantity: real, avgCost: real)

  /** The reasons the engine raises `InvalidTransaction`. */
  datatype InvalidTransaction =
    | NonPositiveBuyQuantity
    | NonPositiveSellQuantity
    | Oversell
    | UnsupportedType(tag: string)
    | ManualUpdateOnMarket
    | SellOnManual

  /** The outcome of a replay: the position held, or the reason the history was refused. */
  datatype MarketOutcome = Held(position: MarketPosition) | Rejected(reason: InvalidTransaction)

  /** What a BUY lot costs: quantity x price + fees. */
  function LotCost(tx: Tx): real {
    tx.Qty() * tx.Px() + tx.fees
  }

  /** Cost per unit of a holding. */
  function AverageCost(cost: real, quantity: real): real
    requires quantity != 0.0
  {
    cost / quantity
  }

  /** One iteration of the replay loop. */
  function MarketStep(p: MarketPosition, tx: Tx): MarketOutcome {
    match tx.kind
    case ManualValueUpdate => Held(p)
    case Buy =>
      if tx.Qty() <= 0.0 then Rejected(NonPositiveBuyQuantity)
      else
        var costTotal := p.quantity * p.avgCost + LotCost(tx);
        var q := p.quantity + tx.Qty();
        Held(MarketPosition(q, if q > 0.0 then AverageCost(costTotal, q) else 0.0))
    case Sell =>
      if tx.Qty() <= 0.0 then Rejected(NonPositiveSellQuantity)
      else if tx.Qty() - p.quantity > Epsilon then Rejected(Oversell)
      else
        var q := p.quantity - tx.Qty();
        if q <= Epsilon then Held(MarketPosition(0.0, 0.0)) else Held(MarketPosition(q, p.avgCost))
    case Unsupported(tag) => Rejected(UnsupportedType(tag))
  }

  /**
   * The replay of an ordered history, stopping at the first refused transaction.
   * A successful replay never holds a negative quantity, and an empty position has
   * average cost zero.
   */
  function MarketReplay(s: seq<Tx>): (r: MarketOutcome)
    ensures r.Held? ==> r.position.quantity >= 0.0
    ensures r.Held? && r.position.quantity == 0.0 ==> r.position.avgCost == 0.0
  {
    if s == [] then Held(MarketPosition(0.0, 0.0))
    else
      match MarketReplay(s[..|s| - 1])
      case Rejected(e) => Rejected(e)
      case Held(p) => MarketStep(p, s[|s| - 1])
  }

  /** `compute_market_position`: sort, then fold BUY/SELL into quantity and average cost. */
  method ComputeMarketPosition(txs: seq<Tx>) returns (r: MarketOutcome)
    ensures r == MarketReplay(SortTransactions(txs))
  {
    var ordered := SortTransactions(txs);
    var qty, avgCost := 0.0, 0.0;
    for i := 0 to |ordered|
      invariant MarketReplay(ordered[..i]) == Held(MarketPosition(qty, avgCost))
    {
      assert ordered[..i + 1][..i] == ordered[..i];
      var step := ApplyMarketTx(qty, avgCost, ordered[i]);
      match step {
        case Rejected(e) =>
          RejectionPersists(ordered, i + 1);
          return Rejected(e);
        case Held(p) =>
          qty, avgCost := p.quantity, p.avgCost;
      }
    }
    assert ordered[..|ordered|] == ordered;
    r := Held(MarketPosition(qty, avgCost));
  }

  /** The body of the replay loop: one transaction applied to the running quantity and average cost. */
  method ApplyMarketTx(qty: real, avgCost: real, tx: Tx) returns (r: MarketOutcome)
    ensures r == MarketStep(MarketPosition(qty, avgCost), tx)
  {
    match tx.kind {
      case ManualValueUpdate =>
        r := Held(MarketPosition(qty, avgCost));
      case Buy =>
        var quantity, price, fees := tx.Qty(), tx.Px(), tx.fees;
        if quantity <= 0.0 {
          return Rejected(NonPositiveBuyQuantity);
        }
        var newCostTotal := qty * avgCost + (quantity * price + fees);
        var newQty := qty + quantity;
        r := Held(MarketPosition(newQty, if newQty > 0.0 then newCostTotal / newQty else 0.0));
      case Sell =>
        var quantity := tx.Qty();
        if quantity <= 0.0 {
          return Rejected(NonPositiveSellQuantity);
        }
        if quantity - qty > Epsilon {
          return Rejected(Oversell);
        }
        var newQty := qty - quantity;
        if newQty <= Epsilon {
          r := Held(MarketPosition(0.0, 0.0));
        } else {
          r := Held(MarketPosition(newQty, avgCost));
        }
      case Unsupported(tag) =>
        r := Rejected(UnsupportedType(tag));
    }
  }

  /** Replaying one more transaction is one more step, unless the history was already refused. */
  lemma ReplayAppend(s: seq<Tx>, tx: Tx)
    ensures MarketReplay(s).Rejected? ==> MarketReplay(s + [tx]) == MarketReplay(s)
    ensures MarketReplay(s).Held? ==> MarketReplay(s + [tx]) == MarketStep(MarketReplay(s).position, tx)
  {
    assert (s + [tx])[..|s|] == s;
  }

  /** Once a prefix is refused, the whole history is refused with the same reason. */
  lemma {:induction false} RejectionPersists(s: seq<Tx>, j: nat)
    requires j <= |s| && MarketReplay(s[..j]).Rejected?
    ensures MarketReplay(s) == MarketReplay(s[..j])
    decreases |s| - j
  {
    if j < |s| {
      var s' := s[..|s| - 1];
      assert s'[..j] == s[..j];
      RejectionPersists(s', j);
    } else {
      assert s[..j] == s;
    }
  }

  /** A transaction that no state accepts: a BUY or SELL without a positive quantity, or an unknown type. */
  predicate AlwaysRejected(tx: Tx) {
    ((tx.kind.Buy? || tx.kind.Sell?) && tx.Qty() <= 0.0) || tx.kind.Unsupported?
  }

  /** A history containing an always-refused transaction anywhere is refused. */
  lemma RejectsAlwaysRejected(s: seq<Tx>, k: nat)
    requires k < |s| && AlwaysRejected(s[k])
    ensures MarketReplay(s).Rejected?
  {
    assert s[..k + 1][..k] == s[..k];
    RejectionPersists(s, k + 1);
  }

  /** A SELL of more than the quantity held at that point (beyond Epsilon) refuses the history. */
  lemma RejectsOversell(s: seq<Tx>, k: nat)
    requires k < |s| && MarketReplay(s[..k]).Held?
    requires s[k].kind == Sell && s[k].Qty() > 0.0 && s[k].Qty() - MarketReplay(s[..k]).position.quantity > Epsilon
    ensures MarketReplay(s) == Rejected(Oversell)
  {
    assert s[..k + 1][..k] == s[..k];
    RejectionPersists(s, k + 1);
  }

  /**
   * Every refusal has a cause: a point k where the prefix before it replayed and the
   * transaction at k was refused, being always-refused or an oversell.
   */
  lemma {:induction false} RejectionPoint(s: seq<Tx>) returns (k: nat)
    requires MarketReplay(s).Rejected?
    ensures k < |s| && MarketReplay(s[..k]).Held?
    ensures MarketReplay(s) == MarketStep(MarketReplay(s[..k]).position, s[k])
    ensures AlwaysRejected(s[k]) ||
      (s[k].kind == Sell && s[k].Qty() - MarketReplay(s[..k]).position.quantity > Epsilon)
  {
    var s' := s[..|s| - 1];
    if MarketReplay(s').Rejected? {
      k := RejectionPoint(s');
      assert s'[..k] == s[..k];
      RejectionPersists(s, |s| - 1);
    } else {
      k := |s| - 1;
    }
  }

  /**
   * SELL within the held quantity always succeeds. It keeps the average cost, unless
   * at most Epsilon remains, in which case quantity and average cost both become exactly 0.
   */
  lemma SellOutcome(s: seq<Tx>, tx: Tx)
    requires MarketReplay(s).Held?
    requires tx.kind == Sell && tx.Qty() > 0.0 && tx.Qty() - MarketReplay(s).position.quantity <= Epsilon
    ensures var p := MarketReplay(s).position;
      p.quantity - tx.Qty() <= Epsilon ==> MarketReplay(s + [tx]) == Held(MarketPosition(0.0, 0.0))
    ensures var p := MarketReplay(s).position;
      p.quantity - tx.Qty() > Epsilon ==> MarketReplay(s + [tx]) == Held(MarketPosition(p.quantity - tx.Qty(), p.avgCost))
  {
    ReplayAppend(s, tx);
  }

  /** A BUY adds its quantity and folds quantity x price + fees into the weighted average. */
  lemma BuyOutcome(s: seq<Tx>, tx: Tx)
    requires MarketReplay(s).Held?
    requires tx.kind == Buy && tx.Qty() > 0.0
    ensures var p := MarketReplay(s).position;
      p.quantity + tx.Qty() > 0.0 &&
      MarketReplay(s + [tx]) ==
        Held(MarketPosition(p.quantity + tx.Qty(), AverageCost(p.quantity * p.avgCost + LotCost(tx), p.quantity + tx.Qty())))
  {
    ReplayAppend(s, tx);
    BuyStep(MarketReplay(s).position, tx);
  }

  lemma BuyStep(p: MarketPosition, tx: Tx)
    requires p.quantity >= 0.0 && tx.kind == Buy && tx.Qty() > 0.0
    ensures MarketStep(p, tx) ==
      Held(MarketPosition(p.quantity + tx.Qty(), AverageCost(p.quantity * p.avgCost + LotCost(tx), p.quantity + tx.Qty())))
  {
  }

  // ---------------------------------------------------------------------------------------------
  // BUY-only histories: quantity is the sum of quantities, average cost is total cost / quantity.

  predicate BuyOnly(s: seq<Tx>) {
    forall i :: 0 <= i < |s| ==> s[i].kind == Buy && s[i].Qty() > 0.0
  }

  function TotalQuantity(s: seq<Tx>): real {
    if s == [] then 0.0 else TotalQuantity(s[..|s| - 1]) + s[|s| - 1].Qty()
  }

  /** Sum of the lots' costs. */
  function TotalCost(s: seq<Tx>): real {
    if s == [] then 0.0 else TotalCost(s[..|s| - 1]) + LotCost(s[|s| - 1])
  }

  /**
   * For a history of BUYs only, the quantity is the total bought and the average cost is
   * the total cost, fees included, divided by that quantity.
   */
  lemma {:induction false} BuyOnlyAverage(s: seq<Tx>)
    requires BuyOnly(s) && s != []
    ensures TotalQuantity(s) > 0.0
    ensures MarketReplay(s) == Held(MarketPosition(TotalQuantity(s), AverageCost(TotalCost(s), TotalQuantity(s))))
  {
    var s', tx := s[..|s| - 1], s[|s| - 1];
    assert s == s' + [tx];
    if s' == [] {
      assert s == [] + [tx];
      BuyOutcome([], tx);
    } else {
      assert BuyOnly(s') by {
        forall i | 0 <= i < |s'| ensures s'[i].kind == Buy && s'[i].Qty() > 0.0 { assert s'[i] == s[i]; }
      }
      BuyOnlyAverage(s');
      NextBuy(s', tx, TotalQuantity(s'), TotalCost(s'));
    }
  }

  /** The inductive step: one more BUY on a position holding `quantity` bought for `cost`. */
  lemma NextBuy(s: seq<Tx>, tx: Tx, quantity: real, cost: real)
    requires quantity > 0.0 && MarketReplay(s) == Held(MarketPosition(quantity, AverageCost(cost, quantity)))
    requires tx.kind == Buy && tx.Qty() > 0.0
    ensures MarketReplay(s + [tx]) ==
      Held(MarketPosition(quantity + tx.Qty(), AverageCost(cost + LotCost(tx), quantity + tx.Qty())))
  {
    ReplayAppend(s, tx);
    var p := MarketPosition(quantity, AverageCost(cost, quantity));
    BuyStep(p, tx);
    AverageAfterBuy(quantity, cost, tx.Qty(), LotCost(tx));
  }

  /** Re-expressing the running average after a BUY as total cost over total quantity. */
  lemma AverageAfterBuy(quantity: real, cost: real, bought: real, lotCost: real)
    requires quantity > 0.0 && bought > 0.0
    ensures AverageCost(quantity * AverageCost(cost, quantity) + lotCost, quantity + bought)
         == AverageCost(cost + lotCost, quantity + bought)
  {
    CostOfAverage(cost, quantity);
  }

  /** Quantity x average cost gives back the cost. */
  lemma CostOfAverage(cost: real, quantity: real)
    requires quantity > 0.0
    ensures quantity * AverageCost(cost, quantity) == cost
  {
  }

  // ---------------------------------------------------------------------------------------------
  // Worked examples from the test suite.

  function BuyTx(id: int, quantity: real, price: real, fees: real): Tx {
    Tx(Some(id), Buy, id, Some(quantity), Some(price), fees, None, None)
  }

  function SellTx(id: int, quantity: real, price: real): Tx {
    Tx(Some(id), Sell, id, Some(quantity), Some(price), 0.0, None, None)
  }

  /** An input already in canonical order is left as it is by the sort. */
  lemma OrderedHistoryUnchanged(txs: seq<Tx>)
    requires forall i :: 0 <= i < |txs| - 1 ==> txs[i].timestamp < txs[i + 1].timestamp
    ensures SortTransactions(txs) == txs
  {
    TxLeIsTotalPreorder();
    forall i, j | 0 <= i < j < |txs| ensures TxLe(txs[i], txs[j]) {
      StepsIncrease(txs, i, j);
    }
    Sorting.SortedIsFixedPoint(txs, TxLe);
  }

  lemma {:induction false} StepsIncrease(txs: seq<Tx>, i: nat, j: nat)
    requires forall i :: 0 <= i < |txs| - 1 ==> txs[i].timestamp < txs[i + 1].timestamp
    requires i < j < |txs|
    ensures txs[i].timestamp < txs[j].timestamp
    decreases j - i
  {
    if i + 1 < j {
      StepsIncrease(txs, i + 1, j);
    }
  }

  /** 10 @ 100 (fee 5), 5 @ 120 (fee 2), SELL 3: 12 held at (1005 + 602) / 15. */
  lemma WeightedAverageExample()
    ensures var txs := [BuyTx(1, 10.0, 100.0, 5.0), BuyTx(2, 5.0, 120.0, 2.0), SellTx(3, 3.0, 130.0)];
      MarketReplay(SortTransactions(txs)) == Held(MarketPosition(12.0, 1607.0 / 15.0))
  {
    var t0, t1, t2 := BuyTx(1, 10.0, 100.0, 5.0), BuyTx(2, 5.0, 120.0, 2.0), SellTx(3, 3.0, 130.0);
    OrderedHistoryUnchanged([t0, t1, t2]);
    WeightedAverageFirstBuys(t0, t1);
    SellOutcome([t0, t1], t2);
    assert [t0, t1] + [t2] == [t0, t1, t2];
  }

  lemma WeightedAverageFirstBuys(t0: Tx, t1: Tx)
    requires t0 == BuyTx(1, 10.0, 100.0, 5.0) && t1 == BuyTx(2, 5.0, 120.0, 2.0)
    ensures MarketReplay([t0, t1]) == Held(MarketPosition(15.0, 1607.0 / 15.0))
  {
    BuyOnlyAverage([t0, t1]);
    assert [t0, t1][..1] == [t0];
    assert [t0][..0] == [];
    assert TotalQuantity([t0]) == 10.0 && TotalCost([t0]) == 1005.0;
    assert TotalQuantity([t0, t1]) == 15.0 && TotalCost([t0, t1]) == 1607.0;
  }

  /** 0.5 @ -1000 then 0.5 @ 500: a negative price lowers the basis, giving 1.0 @ -250. */
  lemma NegativePriceExample()
    ensures var txs := [BuyTx(1, 0.5, -1000.0, 0.0), BuyTx(2, 0.5, 500.0, 0.0)];
      MarketReplay(SortTransactions(txs)) == Held(MarketPosition(1.0, -250.0))
  {
    var t0, t1 := BuyTx(1, 0.5, -1000.0, 0.0), BuyTx(2, 0.5, 500.0, 0.0);
    OrderedHistoryUnchanged([t0, t1]);
    ReplayAppend([], t0);
    assert [] + [t0] == [t0];
    assert MarketReplay([t0]) == Held(MarketPosition(0.5, -1000.0));
    ReplayAppend([t0], t1);
    assert [t0] + [t1] == [t0, t1];
  }

  /** BUY 2 then SELL 3 oversells. */
  lemma OversellExample()
    ensures MarketReplay(SortTransactions([BuyTx(1, 2.0, 100.0, 0.0), SellTx(2, 3.0, 120.0)])) == Rejected(Oversell)
  {
    var t0, t1 := BuyTx(1, 2.0, 100.0, 0.0), SellTx(2, 3.0, 120.0);
    OrderedHistoryUnchanged([t0, t1]);
    ReplayAppend([], t0);
    assert [] + [t0] == [t0];
    ReplayAppend([t0], t1);
    assert [t0] + [t1] == [t0, t1];
  }
}
