/**
 * The database tables the routes read and write, for the one default portfolio, and the
 * queries they issue. Ids are handed out by per-table counters, as the database's
 * autoincrement does; a rollback puts everything back, counters included.
 */
module Store {
  import opened Wrappers
  import opened Ledger
  import TxOrder

  /** Stored transactions carry an id, each one different and below the next one handed out. */
  predicate TxIdsFresh(rows: seq<TxRow>, nextTxId: int) {
    (forall i :: 0 <= i < |rows| ==> rows[i].tx.id.Some? && rows[i].tx.id.value < nextTxId) &&
    (forall i, j :: 0 <= i < j < |rows| ==> rows[i].tx.id != rows[j].tx.id)
  }

  /** Asset ids differ from each other and are below the next one handed out. */
  predicate AssetIdsFresh(assets: seq<Asset>, nextAssetId: int) {
    (forall i :: 0 <= i < |assets| ==> assets[i].id < nextAssetId) &&
    (forall i, j :: 0 <= i < j < |assets| ==> assets[i].id != assets[j].id)
  }

  predicate BasketIdsFresh(baskets: seq<Basket>, nextBasketId: int) {
    forall i :: 0 <= i < |baskets| ==> baskets[i].id < nextBasketId
  }

  /** A row appended with the next id keeps the ids distinct and fresh once the counter moves on. */
  lemma AppendedRowKeepsIds(rows: seq<TxRow>, row: TxRow, nextTxId: int)
    requires TxIdsFresh(rows, nextTxId) && row.tx.id == Some(nextTxId)
    ensures TxIdsFresh(rows + [row], nextTxId + 1)
  {
    var grown := rows + [row];
    assert forall i :: 0 <= i < |rows| ==> grown[i] == rows[i];
  }

  /** The contents of every table and counter, as a rollback restores them. */
  datatype Tables = Tables(
    groups: seq<Group>,
    assets: seq<Asset>,
    txRows: seq<TxRow>,
    baskets: seq<Basket>,
    links: seq<BasketLink>,
    nextAssetId: int,
    nextTxId: int,
    nextBasketId: int)

  predicate TablesValid(t: Tables) {
    TxIdsFresh(t.txRows, t.nextTxId) && AssetIdsFresh(t.assets, t.nextAssetId) && BasketIdsFresh(t.baskets, t.nextBasketId)
  }

  class Database {
    /** The default portfolio every route works in. */
    const portfolioId: int
    var groups: seq<Group>
    var assets: seq<Asset>
    var txRows: seq<TxRow>
    var baskets: seq<Basket>
    var links: seq<BasketLink>
    var nextAssetId: int
    var nextTxId: int
    var nextBasketId: int

    ghost predicate Valid()
      reads this
    {
      TxIdsFresh(txRows, nextTxId) && AssetIdsFresh(assets, nextAssetId) && BasketIdsFresh(baskets, nextBasketId)
    }

    constructor (portfolioId: int, groups: seq<Group>)
      ensures Valid()
      ensures this.portfolioId == portfolioId && this.groups == groups
      ensures assets == [] && txRows == [] && baskets == [] && links == []
    {
      this.portfolioId := portfolioId;
      this.groups := groups;
      assets := [];
      txRows := [];
      baskets := [];
      links := [];
      nextAssetId := 1;
      nextTxId := 1;
      nextBasketId := 1;
    }

    /** What a rollback would bring back. */
    function Saved(): (t: Tables)
      reads this
      ensures Valid() ==> TablesValid(t)
    {
      Tables(groups, assets, txRows, baskets, links, nextAssetId, nextTxId, nextBasketId)
    }

    /** `db.rollback()`: every table and counter goes back to the saved state. */
    method Rollback(saved: Tables)
      requires TablesValid(saved)
      modifies this
      ensures Valid() && Saved() == saved
    {
      groups := saved.groups;
      assets := saved.assets;
      txRows := saved.txRows;
      baskets := saved.baskets;
      links := saved.links;
      nextAssetId := saved.nextAssetId;
      nextTxId := saved.nextTxId;
      nextBasketId := saved.nextBasketId;
    }

    /** `db.add(basket)`: the basket is stored under the next id. */
    method InsertBasket(name: string) returns (stored: Basket)
      requires Valid()
      modifies this
      ensures Valid()
      ensures stored == Basket(old(nextBasketId), portfolioId, name) && nextBasketId == old(nextBasketId) + 1
      ensures baskets == old(baskets) + [stored]
      ensures groups == old(groups) && assets == old(assets) && txRows == old(txRows) && links == old(links)
      ensures nextAssetId == old(nextAssetId) && nextTxId == old(nextTxId)
    {
      stored := Basket(nextBasketId, portfolioId, name);
      baskets := baskets + [stored];
      nextBasketId := nextBasketId + 1;
    }

    /** `db.add(BasketAsset(...))` */
    method InsertLink(link: BasketLink)
      requires Valid()
      modifies this
      ensures Valid()
      ensures links == old(links) + [link]
      ensures groups == old(groups) && assets == old(assets) && txRows == old(txRows) && baskets == old(baskets)
      ensures nextAssetId == old(nextAssetId) && nextTxId == old(nextTxId) && nextBasketId == old(nextBasketId)
    {
      links := links + [link];
    }

    /** `db.add(tx)`: the transaction is stored under the next id. */
    method InsertTx(assetId: int, tx: Tx) returns (stored: Tx)
      requires Valid()
      modifies this
      ensures Valid()
      ensures stored == tx.(id := Some(old(nextTxId))) && nextTxId == old(nextTxId) + 1
      ensures txRows == old(txRows) + [TxRow(portfolioId, assetId, stored)]
      ensures groups == old(groups) && assets == old(assets) && baskets == old(baskets) && links == old(links)
      ensures nextAssetId == old(nextAssetId) && nextBasketId == old(nextBasketId)
    {
      stored := tx.(id := Some(nextTxId));
      AppendedRowKeepsIds(txRows, TxRow(portfolioId, assetId, stored), nextTxId);
      txRows := txRows + [TxRow(portfolioId, assetId, stored)];
      nextTxId := nextTxId + 1;
    }

    /** Assigning the fields of the stored transaction at position `k`; its id stays. */
    method SetTx(k: nat, tx: Tx)
      requires Valid() && k < |txRows| && tx.id == txRows[k].tx.id
      modifies this
      ensures Valid()
      ensures txRows == old(txRows)[k := old(txRows)[k].(tx := tx)]
      ensures groups == old(groups) && assets == old(assets) && baskets == old(baskets) && links == old(links)
      ensures nextAssetId == old(nextAssetId) && nextTxId == old(nextTxId) && nextBasketId == old(nextBasketId)
    {
      var updated := txRows[k := txRows[k].(tx := tx)];
      assert forall i :: 0 <= i < |txRows| ==> updated[i].tx.id == txRows[i].tx.id;
      txRows := updated;
    }

    /** `db.delete(tx)` for the transaction at position `k`. */
    method DeleteTxAt(k: nat)
      requires Valid() && k < |txRows|
      modifies this
      ensures Valid()
      ensures txRows == old(txRows)[..k] + old(txRows)[k + 1..]
      ensures groups == old(groups) && assets == old(assets) && baskets == old(baskets) && links == old(links)
      ensures nextAssetId == old(nextAssetId) && nextTxId == old(nextTxId) && nextBasketId == old(nextBasketId)
    {
      var rest := txRows[..k] + txRows[k + 1..];
      assert forall i :: 0 <= i < |rest| ==> rest[i] == if i < k then txRows[i] else txRows[i + 1];
      txRows := rest;
    }

    /** `db.add(asset)`: the asset is stored under the next id. */
    method InsertAsset(asset: Asset) returns (stored: Asset)
      requires Valid()
      modifies this
      ensures Valid()
      ensures stored == asset.(id := old(nextAssetId)) && nextAssetId == old(nextAssetId) + 1
      ensures assets == old(assets) + [stored]
      ensures groups == old(groups) && txRows == old(txRows) && baskets == old(baskets) && links == old(links)
      ensures nextTxId == old(nextTxId) && nextBasketId == old(nextBasketId)
    {
      stored := asset.(id := nextAssetId);
      var grown := assets + [stored];
      assert forall i :: 0 <= i < |assets| ==> grown[i] == assets[i];
      assets := grown;
      nextAssetId := nextAssetId + 1;
    }

    /** Assigning the fields of the asset at position `k`; its id stays. */
    method SetAsset(k: nat, asset: Asset)
      requires Valid() && k < |assets| && asset.id == assets[k].id
      modifies this
      ensures Valid()
      ensures assets == old(assets)[k := asset]
      ensures groups == old(groups) && txRows == old(txRows) && baskets == old(baskets) && links == old(links)
      ensures nextAssetId == old(nextAssetId) && nextTxId == old(nextTxId) && nextBasketId == old(nextBasketId)
    {
      var updated := assets[k := asset];
      assert forall i :: 0 <= i < |assets| ==> updated[i].id == assets[i].id;
      assets := updated;
    }

    /** `db.delete(asset)` for the asset at position `k`; its basket links are deleted with it. */
    method DeleteAssetAt(k: nat)
      requires Valid() && k < |assets|
      modifies this
      ensures Valid()
      ensures assets == old(assets)[..k] + old(assets)[k + 1..]
      ensures links == LinksWithout(old(links), old(assets)[k].id)
      ensures groups == old(groups) && txRows == old(txRows) && baskets == old(baskets)
      ensures nextAssetId == old(nextAssetId) && nextTxId == old(nextTxId) && nextBasketId == old(nextBasketId)
    {
      var rest := assets[..k] + assets[k + 1..];
      assert forall i :: 0 <= i < |rest| ==> rest[i] == if i < k then assets[i] else assets[i + 1];
      links := LinksWithout(links, assets[k].id);
      assets := rest;
    }
  }

  /** The basket links left once those of the asset are deleted. */
  function LinksWithout(links: seq<BasketLink>, assetId: int): (r: seq<BasketLink>)
    ensures forall l :: l in r <==> l in links && l.assetId != assetId
  {
    if links == [] then []
    else
      var last := links[|links| - 1];
      assert forall l :: l in links <==> l in links[..|links| - 1] || l == last;
      LinksWithout(links[..|links| - 1], assetId) + (if last.assetId != assetId then [last] else [])
  }

  /** `select(Asset).where(Asset.id == id)`: the first asset with that id. */
  function FindAsset(assets: seq<Asset>, id: int): (r: Option<Asset>)
    ensures r.Some? ==> r.value in assets && r.value.id == id
    ensures r.None? <==> forall a :: a in assets ==> a.id != id
  {
    if assets == [] then None
    else if assets[0].id == id then Some(assets[0])
    else FindAsset(assets[1..], id)
  }

  /** Where the asset with that id sits. */
  function AssetIndex(assets: seq<Asset>, id: int): (k: nat)
    requires exists a :: a in assets && a.id == id
    ensures k < |assets| && assets[k].id == id && Some(assets[k]) == FindAsset(assets, id)
  {
    if assets[0].id == id then 0
    else
      assert exists a :: a in assets[1..] && a.id == id by {
        var a :| a in assets && a.id == id;
        var k :| 0 <= k < |assets| && assets[k] == a;
        assert k > 0 && assets[1..][k - 1] == a;
      }
      1 + AssetIndex(assets[1..], id)
  }

  /** `select(Group).where(Group.id == id, Group.portfolio_id == portfolio_id)` */
  function FindGroup(groups: seq<Group>, id: int, portfolioId: int): (r: Option<Group>)
    ensures r.Some? ==> r.value in groups && r.value.id == id && r.value.portfolioId == portfolioId
    ensures r.None? <==> forall g :: g in groups ==> !(g.id == id && g.portfolioId == portfolioId)
  {
    if groups == [] then None
    else if groups[0].id == id && groups[0].portfolioId == portfolioId then Some(groups[0])
    else FindGroup(groups[1..], id, portfolioId)
  }

  /** An asset of the portfolio that is not archived holds the symbol. */
  predicate ActiveSymbolTaken(assets: seq<Asset>, portfolioId: int, symbol: string) {
    exists a :: a in assets && a.portfolioId == portfolioId && a.symbol == symbol && !a.archived
  }

  /** Every transaction stored for the asset, in stored order. */
  function AssetRows(rows: seq<TxRow>, assetId: int): (r: seq<Tx>)
    ensures |r| <= |rows|
  {
    if rows == [] then []
    else
      var last := rows[|rows| - 1];
      AssetRows(rows[..|rows| - 1], assetId) + (if last.assetId == assetId then [last.tx] else [])
  }

  /** The asset's transactions are exactly the transactions of the rows stored for it. */
  lemma {:induction false} AssetRowsMembers(rows: seq<TxRow>, assetId: int)
    ensures forall t :: t in AssetRows(rows, assetId) <==>
      exists i :: 0 <= i < |rows| && rows[i].assetId == assetId && rows[i].tx == t
  {
    if rows != [] {
      var init := rows[..|rows| - 1];
      AssetRowsMembers(init, assetId);
      forall t
        ensures t in AssetRows(rows, assetId) <==> exists i :: 0 <= i < |rows| && rows[i].assetId == assetId && rows[i].tx == t
      {
        if t in AssetRows(init, assetId) {
          var i :| 0 <= i < |init| && init[i].assetId == assetId && init[i].tx == t;
          assert rows[i] == init[i];
        }
        if i :| 0 <= i < |rows| && rows[i].assetId == assetId && rows[i].tx == t {
          if i < |init| {
            assert init[i] == rows[i];
          }
        }
      }
    }
  }

  /** `select(Transaction).where(asset_id == id).order_by(timestamp, id)` */
  function StoredHistory(rows: seq<TxRow>, assetId: int): seq<Tx> {
    TxOrder.SortTransactions(AssetRows(rows, assetId))
  }

  /** `_tx_count`: how many transactions the asset has. */
  function TxCount(rows: seq<TxRow>, assetId: int): (n: nat)
    ensures n == |AssetRows(rows, assetId)|
  {
    if rows == [] then 0
    else TxCount(rows[..|rows| - 1], assetId) + (if rows[|rows| - 1].assetId == assetId then 1 else 0)
  }

  /** The asset has a stored transaction exactly when its count is not 0. */
  lemma {:induction false} TxCountZeroIffNoRow(rows: seq<TxRow>, assetId: int)
    ensures TxCount(rows, assetId) == 0 <==> forall i :: 0 <= i < |rows| ==> rows[i].assetId != assetId
  {
    if rows != [] {
      var prefix := rows[..|rows| - 1];
      TxCountZeroIffNoRow(prefix, assetId);
      assert forall i :: 0 <= i < |prefix| ==> prefix[i] == rows[i];
    }
  }

  /** `select(Transaction).where(id == tx_id, asset_id == asset_id)` */
  function FindTx(rows: seq<TxRow>, txId: int, assetId: int): (r: Option<Tx>)
    ensures r.Some? <==> exists i :: 0 <= i < |rows| && rows[i].tx.id == Some(txId) && rows[i].assetId == assetId
    ensures r.Some? ==> exists i :: 0 <= i < |rows| && rows[i].tx.id == Some(txId) && rows[i].assetId == assetId && r.value == rows[i].tx
  {
    if rows == [] then None
    else if rows[0].tx.id == Some(txId) && rows[0].assetId == assetId then Some(rows[0].tx)
    else
      var r := FindTx(rows[1..], txId, assetId);
      assert forall i :: 1 <= i < |rows| ==> rows[1..][i - 1] == rows[i];
      r
  }
}
