/**
 * `validate_asset_transactions`: the gate every write to the ledger passes. A history is
 * accepted or refused as a whole.
 */
module Validation {
  import opened Ledger
  import opened TxOrder
  import opened MarketPositions
  import ManualPositions

  datatype Verdict = Accepted | Refused(reason: InvalidTransaction)

  predicate HasKind(txs: seq<Tx>, k: TxKind) {
    exists i :: 0 <= i < |txs| && txs[i].kind == k
  }

  /**
   * A market history must replay without error and must not contain a MANUAL_VALUE_UPDATE
   * (which the replay itself skips); a manual history must not contain a SELL.
   */
  function HistoryVerdict(assetType: AssetType, txs: seq<Tx>): (r: Verdict)
    ensures assetType == Market && MarketReplay(SortTransactions(txs)).Rejected? ==>
      r == Refused(MarketReplay(SortTransactions(txs)).reason)
    ensures assetType == Market && MarketReplay(SortTransactions(txs)).Held? ==>
      (r.Accepted? <==> !HasKind(txs, ManualValueUpdate))
    ensures assetType == Manual ==> (r.Accepted? <==> !HasKind(txs, Sell))
  {
    match assetType
    case Market =>
      (match MarketReplay(SortTransactions(txs))
       case Rejected(e) => Refused(e)
       case Held(_) => if HasKind(txs, ManualValueUpdate) then Refused(ManualUpdateOnMarket) else Accepted)
    case Manual =>
      if HasKind(txs, Sell) then Refused(SellOnManual) else Accepted
  }

  /** The gate, as the source runs it: the replay first, then a scan of the list. */
  method ValidateAssetTransactions(assetType: AssetType, txs: seq<Tx>) returns (r: Verdict)
    ensures r == HistoryVerdict(assetType, txs)
  {
    if assetType == Market {
      var replay := ComputeMarketPosition(txs);
      if replay.Rejected? {
        return Refused(replay.reason);
      }
      for i := 0 to |txs|
        invariant forall j :: 0 <= j < i ==> txs[j].kind != ManualValueUpdate
      {
        if txs[i].kind == ManualValueUpdate {
          return Refused(ManualUpdateOnMarket);
        }
      }
      r := Accepted;
    } else {
      for i := 0 to |txs|
        invariant forall j :: 0 <= j < i ==> txs[j].kind != Sell
      {
        if txs[i].kind == Sell {
          return Refused(SellOnManual);
        }
      }
      var _ := ManualPositions.ComputeManualPosition(txs);
      r := Accepted;
    }
  }

  /**
   * Every transaction of an accepted market history is a BUY or a SELL of a positive
   * quantity, and its replay holds a non-negative quantity.
   */
  lemma AcceptedMarketHistory(txs: seq<Tx>)
    requires HistoryVerdict(Market, txs) == Accepted
    ensures forall i :: 0 <= i < |txs| ==> (txs[i].kind == Buy || txs[i].kind == Sell) && txs[i].Qty() > 0.0
    ensures MarketReplay(SortTransactions(txs)).Held? && MarketReplay(SortTransactions(txs)).position.quantity >= 0.0
  {
    var ordered := SortTransactions(txs);
    forall i | 0 <= i < |txs|
      ensures (txs[i].kind == Buy || txs[i].kind == Sell) && txs[i].Qty() > 0.0
    {
      assert txs[i] in multiset(ordered);
      var k :| 0 <= k < |ordered| && ordered[k] == txs[i];
      if AlwaysRejected(ordered[k]) {
        RejectsAlwaysRejected(ordered, k);
      }
    }
  }

  /** Whether a history contains a type does not depend on its order. */
  lemma HasKindPermutation(txs: seq<Tx>, other: seq<Tx>, k: TxKind)
    requires multiset(txs) == multiset(other)
    ensures HasKind(txs, k) ==> HasKind(other, k)
  {
    if HasKind(txs, k) {
      var i :| 0 <= i < |txs| && txs[i].kind == k;
      var x := txs[i];
      assert x in multiset(txs);
      assert x in other;
      var j :| 0 <= j < |other| && other[j] == x;
    }
  }

  /** The manual verdict does not depend on the order of the history. */
  lemma ManualVerdictOrderFree(txs: seq<Tx>, other: seq<Tx>)
    requires multiset(txs) == multiset(other)
    ensures HistoryVerdict(Manual, txs) == HistoryVerdict(Manual, other)
  {
    HasKindPermutation(txs, other, Sell);
    HasKindPermutation(other, txs, Sell);
  }
}
