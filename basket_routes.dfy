/**
 * Creating a basket: a name and the selected assets, each with an optional weight. The basket
 * and its member links are stored together or not at all.
 */
module BasketRoutes {
  import opened Wrappers
  import opened Ledger
  import opened Forms
  import opened Store
  import Text

  /** Why `create_basket` stored nothing. */
  datatype BasketRefusal =
    | NameRequired
    | BadWeight
      /** The same asset selected twice: the (basket, asset) pair is unique, so the commit fails. */
    | DuplicateMember

  /** `select(Asset).where(Asset.id == id, Asset.portfolio_id == portfolio_id)` finds an asset. */
  predicate InPortfolio(assets: seq<Asset>, portfolioId: int, id: int) {
    exists a :: a in assets && a.id == id && a.portfolioId == portfolioId
  }

  /** The `weight_<id>` field; a missing one reads as the empty string. */
  function WeightField(weights: map<int, Field>, id: int): Field {
    if id in weights then weights[id] else Empty
  }

  /** A blank weight means none; otherwise it must be a number that is not negative. */
  function ReadWeight(f: Field): (r: Result<Option<real>, BasketRefusal>)
    ensures r.Ok? <==> Blank(f) || (f.Numeral? && f.value >= 0.0)
    ensures r.Err? ==> r.error == BadWeight
    ensures r.Ok? ==> (r.value.None? <==> Blank(f)) && (r.value.Some? ==> r.value.value == f.value >= 0.0)
  {
    if Blank(f) then Ok(None)
    else if f.Numeral? && !(f.value < 0.0) then Ok(Some(f.value))
    else Err(BadWeight)
  }

  /**
   * The loop of `create_basket`: selected ids outside the portfolio are skipped, every other one
   * becomes a link carrying its weight; the first unreadable weight stops everything.
   */
  function Members(assets: seq<Asset>, portfolioId: int, basketId: int, selected: seq<int>, weights: map<int, Field>): (r: Result<seq<BasketLink>, BasketRefusal>)
    ensures r.Err? ==> r.error == BadWeight
  {
    if selected == [] then Ok([])
    else
      var id := selected[|selected| - 1];
      match Members(assets, portfolioId, basketId, selected[..|selected| - 1], weights)
      case Err(e) => Err(e)
      case Ok(links) =>
        if !InPortfolio(assets, portfolioId, id) then Ok(links)
        else
          match ReadWeight(WeightField(weights, id))
          case Err(e) => Err(e)
          case Ok(weight) => Ok(links + [BasketLink(basketId, id, weight)])
  }

  /** The selected ids that name an asset of the portfolio, in order, repeats kept. */
  function KeptIds(assets: seq<Asset>, portfolioId: int, selected: seq<int>): (r: seq<int>)
    ensures forall id :: id in r <==> id in selected && InPortfolio(assets, portfolioId, id)
  {
    if selected == [] then []
    else
      var id := selected[|selected| - 1];
      assert forall x :: x in selected <==> x in selected[..|selected| - 1] || x == id;
      KeptIds(assets, portfolioId, selected[..|selected| - 1]) + if InPortfolio(assets, portfolioId, id) then [id] else []
  }

  /** Every kept id has a readable weight. */
  predicate WeightsReadable(assets: seq<Asset>, portfolioId: int, selected: seq<int>, weights: map<int, Field>) {
    forall i :: 0 <= i < |selected| && InPortfolio(assets, portfolioId, selected[i]) ==> ReadWeight(WeightField(weights, selected[i])).Ok?
  }

  /** One link per kept id, in the same order, with the weight its field gives. */
  function LinksFor(basketId: int, kept: seq<int>, weights: map<int, Field>): (r: seq<BasketLink>)
    requires forall k :: 0 <= k < |kept| ==> ReadWeight(WeightField(weights, kept[k])).Ok?
  {
    seq(|kept|, k requires 0 <= k < |kept| => BasketLink(basketId, kept[k], ReadWeight(WeightField(weights, kept[k])).value))
  }

  /**
   * The loop accepts exactly when every kept id has a readable weight, and then links the
   * kept ids one to one, in the order they were selected.
   */
  lemma {:induction false} MembersAreKeptIds(assets: seq<Asset>, portfolioId: int, basketId: int, selected: seq<int>, weights: map<int, Field>)
    ensures var r := Members(assets, portfolioId, basketId, selected, weights);
      r.Ok? <==> WeightsReadable(assets, portfolioId, selected, weights)
    ensures var r := Members(assets, portfolioId, basketId, selected, weights);
      var kept := KeptIds(assets, portfolioId, selected);
      r.Ok? ==>
        |r.value| == |kept| &&
        (forall k :: 0 <= k < |kept| ==>
          r.value[k].basketId == basketId && r.value[k].assetId == kept[k] &&
          ReadWeight(WeightField(weights, kept[k])) == Ok(r.value[k].weight))
  {
    if selected != [] {
      var prefix := selected[..|selected| - 1];
      var id := selected[|selected| - 1];
      MembersAreKeptIds(assets, portfolioId, basketId, prefix, weights);
      assert forall i :: 0 <= i < |prefix| ==> prefix[i] == selected[i];
      if WeightsReadable(assets, portfolioId, prefix, weights) && !WeightsReadable(assets, portfolioId, selected, weights) {
        assert InPortfolio(assets, portfolioId, id) && ReadWeight(WeightField(weights, id)).Err?;
      }
    }
  }

  /** The links the loop stores, as the reference definition: one per kept id. */
  lemma MembersMatchLinksFor(assets: seq<Asset>, portfolioId: int, basketId: int, selected: seq<int>, weights: map<int, Field>)
    requires WeightsReadable(assets, portfolioId, selected, weights)
    ensures forall k :: 0 <= k < |KeptIds(assets, portfolioId, selected)| ==> ReadWeight(WeightField(weights, KeptIds(assets, portfolioId, selected)[k])).Ok?
    ensures Members(assets, portfolioId, basketId, selected, weights) == Ok(LinksFor(basketId, KeptIds(assets, portfolioId, selected), weights))
  {
    MembersAreKeptIds(assets, portfolioId, basketId, selected, weights);
    var kept := KeptIds(assets, portfolioId, selected);
    forall k | 0 <= k < |kept|
      ensures ReadWeight(WeightField(weights, kept[k])).Ok?
    {
      assert kept[k] in kept;
    }
    var links := Members(assets, portfolioId, basketId, selected, weights).value;
    var reference := LinksFor(basketId, kept, weights);
    forall k | 0 <= k < |kept|
      ensures links[k] == reference[k]
    {
      assert ReadWeight(WeightField(weights, kept[k])) == Ok(links[k].weight);
    }
    assert links == reference;
  }

  /** Once the loop has stopped at an unreadable weight, further selections do not revive it. */
  lemma {:induction false} RefusalPersists(assets: seq<Asset>, portfolioId: int, basketId: int, selected: seq<int>, weights: map<int, Field>, i: nat)
    requires i <= |selected|
    requires Members(assets, portfolioId, basketId, selected[..i], weights).Err?
    ensures Members(assets, portfolioId, basketId, selected, weights).Err?
    decreases |selected| - i
  {
    if i < |selected| {
      assert selected[..i + 1][..i] == selected[..i];
      RefusalPersists(assets, portfolioId, basketId, selected, weights, i + 1);
    } else {
      assert selected[..i] == selected;
    }
  }

  /** No asset is linked twice. */
  predicate DistinctMembers(links: seq<BasketLink>) {
    forall i, j :: 0 <= i < j < |links| ==> links[i].assetId != links[j].assetId
  }

  /** `create_basket` up to the commit: the links to store, or why nothing is stored. */
  function BasketDecision(assets: seq<Asset>, portfolioId: int, basketId: int, name: string, selected: seq<int>, weights: map<int, Field>): (r: Result<seq<BasketLink>, BasketRefusal>)
    ensures r == Err(NameRequired) <==> Text.Strip(name) == []
    ensures r.Ok? ==> DistinctMembers(r.value)
    ensures r.Ok? ==> forall l :: l in r.value ==> l.basketId == basketId && l.assetId in selected && InPortfolio(assets, portfolioId, l.assetId)
  {
    if Text.Strip(name) == [] then Err(NameRequired)
    else
      match Members(assets, portfolioId, basketId, selected, weights)
      case Err(e) => Err(e)
      case Ok(links) =>
        if !DistinctMembers(links) then Err(DuplicateMember)
        else
          MembersAreKeptIds(assets, portfolioId, basketId, selected, weights);
          var kept := KeptIds(assets, portfolioId, selected);
          assert forall k :: 0 <= k < |links| ==> kept[k] in kept;
          Ok(links)
  }

  /** The `db.add(BasketAsset(...))` of the loop; false at the first unreadable weight. */
  method AddMembers(db: Database, basketId: int, selected: seq<int>, weights: map<int, Field>) returns (ok: bool)
    requires db.Valid()
    modifies db
    ensures db.Valid()
    ensures ok <==> Members(db.assets, db.portfolioId, basketId, selected, weights).Ok?
    ensures ok ==> db.links == old(db.links) + Members(db.assets, db.portfolioId, basketId, selected, weights).value
    ensures db.groups == old(db.groups) && db.assets == old(db.assets) && db.txRows == old(db.txRows) && db.baskets == old(db.baskets)
    ensures db.nextAssetId == old(db.nextAssetId) && db.nextTxId == old(db.nextTxId) && db.nextBasketId == old(db.nextBasketId)
  {
    for i := 0 to |selected|
      invariant db.Valid()
      invariant Members(db.assets, db.portfolioId, basketId, selected[..i], weights).Ok?
      invariant db.links == old(db.links) + Members(db.assets, db.portfolioId, basketId, selected[..i], weights).value
      invariant db.groups == old(db.groups) && db.assets == old(db.assets) && db.txRows == old(db.txRows) && db.baskets == old(db.baskets)
      invariant db.nextAssetId == old(db.nextAssetId) && db.nextTxId == old(db.nextTxId) && db.nextBasketId == old(db.nextBasketId)
    {
      var id := selected[i];
      assert selected[..i + 1][..i] == selected[..i];
      if InPortfolio(db.assets, db.portfolioId, id) {
        var weight := ReadWeight(WeightField(weights, id));
        if weight.Err? {
          RefusalPersists(db.assets, db.portfolioId, basketId, selected, weights, i + 1);
          return false;
        }
        db.InsertLink(BasketLink(basketId, id, weight.value));
      }
    }
    assert selected[..|selected|] == selected;
    ok := true;
  }

  /**
   * `create_basket`: the basket is stored under the next id with its member links, or nothing
   * is stored and every table and counter is as before.
   */
  method CreateBasket(db: Database, name: string, selected: seq<int>, weights: map<int, Field>) returns (r: Result<Basket, BasketRefusal>)
    requires db.Valid()
    modifies db
    ensures db.Valid()
    ensures var d := BasketDecision(old(db.assets), db.portfolioId, old(db.nextBasketId), name, selected, weights);
      (r.Err? <==> d.Err?) && (r.Err? ==> r.error == d.error && db.Saved() == old(db.Saved()))
    ensures var d := BasketDecision(old(db.assets), db.portfolioId, old(db.nextBasketId), name, selected, weights);
      r.Ok? && d.Ok? ==>
        r.value == Basket(old(db.nextBasketId), db.portfolioId, Text.Strip(name)) &&
        db.baskets == old(db.baskets) + [r.value] && db.links == old(db.links) + d.value &&
        db.nextBasketId == old(db.nextBasketId) + 1 &&
        db.groups == old(db.groups) && db.assets == old(db.assets) && db.txRows == old(db.txRows) &&
        db.nextAssetId == old(db.nextAssetId) && db.nextTxId == old(db.nextTxId)
  {
    var clean := Text.Strip(name);
    if clean == [] {
      return Err(NameRequired);
    }
    var saved := db.Saved();
    var basket := db.InsertBasket(clean);
    var ok := AddMembers(db, basket.id, selected, weights);
    if !ok {
      db.Rollback(saved);
      return Err(BadWeight);
    }
    var added := db.links[|saved.links|..];
    assert added == Members(saved.assets, db.portfolioId, basket.id, selected, weights).value;
    if !DistinctMembers(added) {
      db.Rollback(saved);
      return Err(DuplicateMember);
    }
    r := Ok(basket);
  }
}
