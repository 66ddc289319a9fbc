/**
 * The one canonical order in which every replay walks a transaction history:
 * timestamp ascending, then id ascending, a missing id counting as 0.
 */
module TxOrder {
  import opened Wrappers
  import opened Ledger
  import Sorting

  /** `int(tx.id or 0)` */
  function SortId(tx: Tx): int {
    tx.id.GetOr(0)
  }

  /** The sort key (timestamp, id) compared as a Python tuple. */
  predicate TxLe(a: Tx, b: Tx) {
    a.timestamp < b.timestamp || (a.timestamp == b.timestamp && SortId(a) <= SortId(b))
  }

  lemma TxLeIsTotalPreorder()
    ensures Sorting.TotalPreorder(TxLe)
  {
  }

  /**
   * `sorted(transactions, key=lambda tx: (tx.timestamp, tx.id or 0))`: a permutation of the
   * input, ascending by timestamp and, among equal timestamps, by id.
   */
  function SortTransactions(txs: seq<Tx>): (r: seq<Tx>)
    ensures multiset(r) == multiset(txs)
  {
    Sorting.SortBy(txs, TxLe)
  }

  /** The sorted history is ascending by timestamp and, among equal timestamps, by id. */
  lemma SortTransactionsOrdered(txs: seq<Tx>)
    ensures var r := SortTransactions(txs);
      forall i, j :: 0 <= i < j < |r| ==>
        r[i].timestamp < r[j].timestamp || (r[i].timestamp == r[j].timestamp && SortId(r[i]) <= SortId(r[j]))
  {
    TxLeIsTotalPreorder();
    Sorting.SortBySorted(txs, TxLe);
  }
}
