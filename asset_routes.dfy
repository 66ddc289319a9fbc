/**
 * The write paths of the asset pages: adding, editing and deleting a transaction, editing and
 * deleting an asset. Every transaction write builds the history the asset would have and
 * writes only if `validate_asset_transactions` accepts it; a refused request writes nothing.
 */
module AssetRoutes {
  import opened Wrappers
  import opened Ledger
  import opened Forms
  import opened Store
  import Text
  import MarketPositions
  import Validation

  /** Why a request was refused (the flashed error). */
  datatype Refusal =
    | AssetNotFound
    | TxNotFound
    | InvalidTxType
    | TypeNotAllowed
    | BadTimestamp
    | BadNumber(error: ParseError)
    | Invalid(reason: MarketPositions.InvalidTransaction)
    | CannotDelete(reason: MarketPositions.InvalidTransaction)
    | NameRequired
    | GroupRequired
    | InvalidGroup
    | InvalidAssetType
    | SymbolAndTypeLocked
    | DuplicateSymbol
    | HasTransactions

  /** `_parse_float`: the number, or why the field was refused. */
  function ParseFloat(f: Field, fieldName: string, allowZero: bool, allowNegative: bool): (r: Result<real, ParseError>)
    ensures r.Ok? <==> f.Numeral? && Admissible(f.value, allowZero, allowNegative)
    ensures r.Ok? ==> r.value == f.value
    ensures r.Err? ==> r.error.field == fieldName && (r.error.failure == NotANumber <==> !f.Numeral?)
  {
    if !f.Numeral? then Err(ParseError(fieldName, NotANumber))
    else
      var number := f.value;
      if allowNegative then
        if !allowZero && number == 0.0 then Err(ParseError(fieldName, MustBeNonZero)) else Ok(number)
      else if !allowZero && number <= 0.0 then Err(ParseError(fieldName, MustBePositive))
      else if allowZero && number < 0.0 then Err(ParseError(fieldName, CannotBeNegative))
      else Ok(number)
  }

  /** `TransactionType(raw.strip().upper())`: only the three stored values name a type. */
  function ParseTxType(raw: string): (r: Option<TxKind>)
    ensures r.Some? ==> !r.value.Unsupported? && TxKindValue(r.value) == Text.Upper(Text.Strip(raw))
    ensures r.None? <==> Text.Upper(Text.Strip(raw)) !in {"BUY", "SELL", "MANUAL_VALUE_UPDATE"}
  {
    var value := Text.Upper(Text.Strip(raw));
    if value == "BUY" then Some(Buy)
    else if value == "SELL" then Some(Sell)
    else if value == "MANUAL_VALUE_UPDATE" then Some(ManualValueUpdate)
    else None
  }

  /** `_allowed_tx_types`: a market asset takes buys and sells, a manual one value updates as well. */
  function AllowedTxTypes(t: AssetType): (r: seq<TxKind>)
    ensures Buy in r && Sell in r && (ManualValueUpdate in r <==> t.Manual?)
    ensures forall k :: k in r ==> !k.Unsupported?
  {
    match t
    case Market => [Buy, Sell]
    case Manual => [Buy, Sell, ManualValueUpdate]
  }

  /**
   * The transaction form. `timestamp` is None when the date-time text does not parse; the
   * free-text note is not modelled.
   */
  datatype TxForm = TxForm(
    txType: string,
    timestamp: Option<int>,
    fees: Field,
    quantity: Field,
    price: Field,
    manualValue: Field,
    investedOverride: Field)

  /** The id the add route gives the candidate while it validates the history (`10**9`). */
  const PlaceholderId: int := 1_000_000_000

  /**
   * The candidate transaction the add and edit routes build from the form: a buy or sell needs a
   * positive quantity, a sell a positive price while a buy's price may be any number, fees are
   * never negative, and a value update carries a non-negative value and optional override and
   * neither quantity nor price.
   */
  function Candidate(kind: TxKind, form: TxForm, id: int): (r: Result<Tx, Refusal>)
    ensures r.Ok? ==> r.value.id == Some(id) && r.value.kind == kind && Some(r.value.timestamp) == form.timestamp
    ensures r.Ok? ==> r.value.fees >= 0.0
    ensures r.Ok? && (kind == Buy || kind == Sell) ==>
      r.value.quantity.Some? && r.value.quantity.value > 0.0 && r.value.price.Some? &&
      r.value.manualValue.None? && r.value.investedOverride.None?
    ensures r.Ok? && kind == Sell ==> r.value.price.value > 0.0
    ensures r.Ok? && kind == ManualValueUpdate ==>
      r.value.quantity.None? && r.value.price.None? && r.value.manualValue.Some? && r.value.manualValue.value >= 0.0 &&
      (r.value.investedOverride.Some? ==> r.value.investedOverride.value >= 0.0) &&
      (r.value.investedOverride.None? <==> Blank(form.investedOverride))
    ensures r.Ok? <==>
      form.timestamp.Some? && (form.fees.Empty? || (form.fees.Numeral? && form.fees.value >= 0.0)) &&
      ((kind == Buy || kind == Sell) ==>
        form.quantity.Numeral? && form.quantity.value > 0.0 && form.price.Numeral? && (kind == Sell ==> form.price.value > 0.0)) &&
      (kind == ManualValueUpdate ==>
        form.manualValue.Numeral? && form.manualValue.value >= 0.0 &&
        (Blank(form.investedOverride) || (form.investedOverride.Numeral? && form.investedOverride.value >= 0.0)))
    ensures r.Ok? ==> r.value.fees == (if form.fees.Empty? then 0.0 else form.fees.value)
    ensures r.Ok? && (kind == Buy || kind == Sell) ==>
      r.value.quantity == Some(form.quantity.value) && r.value.price == Some(form.price.value)
    ensures r.Ok? && kind == ManualValueUpdate ==>
      r.value.manualValue == Some(form.manualValue.value) &&
      r.value.investedOverride == (if Blank(form.investedOverride) then None else Some(form.investedOverride.value))
    ensures r.Ok? && kind.Unsupported? ==>
      r.value.quantity.None? && r.value.price.None? && r.value.manualValue.None? && r.value.investedOverride.None?
  {
    if form.timestamp.None? then Err(BadTimestamp)
    else
      var timestamp := form.timestamp.value;
      var fees := if form.fees.Empty? then Ok(0.0) else ParseFloat(form.fees, "Fees", true, false);
      if fees.Err? then Err(BadNumber(fees.error))
      else if kind == Buy || kind == Sell then
        var quantity := ParseFloat(form.quantity, "Quantity", false, false);
        var price := if kind == Buy then ParseFloat(form.price, "Price", true, true) else ParseFloat(form.price, "Price", false, false);
        if quantity.Err? then Err(BadNumber(quantity.error))
        else if price.Err? then Err(BadNumber(price.error))
        else Ok(Tx(Some(id), kind, timestamp, Some(quantity.value), Some(price.value), fees.value, None, None))
      else if kind == ManualValueUpdate then
        var manualValue := ParseFloat(form.manualValue, "Manual value", true, false);
        var invested := ParseFloat(form.investedOverride, "Manual invested override", true, false);
        if manualValue.Err? then Err(BadNumber(manualValue.error))
        else if Blank(form.investedOverride) then
          Ok(Tx(Some(id), kind, timestamp, None, None, fees.value, Some(manualValue.value), None))
        else if invested.Err? then Err(BadNumber(invested.error))
        else Ok(Tx(Some(id), kind, timestamp, None, None, fees.value, Some(manualValue.value), Some(invested.value)))
      else Ok(Tx(Some(id), kind, timestamp, None, None, fees.value, None, None))
  }

  /** A buy's price may be negative or zero: with a valid date, fees and quantity the candidate is built. */
  lemma BuyPriceMayBeAnyNumber(form: TxForm, id: int, price: real)
    requires form.timestamp.Some? && form.quantity.Numeral? && form.quantity.value > 0.0
    requires form.fees.Empty? || (form.fees.Numeral? && form.fees.value >= 0.0)
    requires form.price == Numeral(price)
    ensures Candidate(Buy, form, id).Ok? && Candidate(Buy, form, id).value.price == Some(price)
  {
  }

  /** A sell at a price of 0 or below is refused. */
  lemma SellPriceMustBePositive(form: TxForm, id: int)
    requires form.price.Numeral? && form.price.value <= 0.0
    ensures Candidate(Sell, form, id).Err?
  {
  }

  // ---------------------------------------------------------------------------------------------
  // Adding a transaction.

  /**
   * `add_transaction` up to the commit: the candidate (with the placeholder id) when the asset
   * exists, the type is one the asset takes, the form is valid and the stored history with the
   * candidate appended is accepted; otherwise the refusal.
   */
  function AddDecision(assets: seq<Asset>, rows: seq<TxRow>, assetId: int, form: TxForm): Result<Tx, Refusal> {
    match FindAsset(assets, assetId)
    case None => Err(AssetNotFound)
    case Some(asset) =>
      match ParseTxType(form.txType)
      case None => Err(InvalidTxType)
      case Some(kind) =>
        if kind !in AllowedTxTypes(asset.assetType) then Err(TypeNotAllowed)
        else
          (match Candidate(kind, form, PlaceholderId)
           case Err(e) => Err(e)
           case Ok(candidate) =>
             (match Validation.HistoryVerdict(asset.assetType, StoredHistory(rows, assetId) + [candidate])
              case Refused(reason) => Err(Invalid(reason))
              case Accepted => Ok(candidate)))
  }

  /**
   * A transaction is added only if the history it would join, with it appended, is accepted;
   * a type the asset does not take is refused before the form or the history is looked at.
   */
  lemma AddGate(assets: seq<Asset>, rows: seq<TxRow>, assetId: int, form: TxForm)
    ensures var d := AddDecision(assets, rows, assetId, form);
      d.Ok? ==>
        FindAsset(assets, assetId).Some? && d.value.id == Some(PlaceholderId) &&
        Validation.HistoryVerdict(FindAsset(assets, assetId).value.assetType, StoredHistory(rows, assetId) + [d.value]).Accepted?
    ensures var d := AddDecision(assets, rows, assetId, form);
      (FindAsset(assets, assetId).Some? && ParseTxType(form.txType).Some? &&
       ParseTxType(form.txType).value !in AllowedTxTypes(FindAsset(assets, assetId).value.assetType)) ==>
        d == Err(TypeNotAllowed)
  {
    var d := AddDecision(assets, rows, assetId, form);
    if d.Ok? {
      var asset := FindAsset(assets, assetId).value;
      var kind := ParseTxType(form.txType).value;
      assert Candidate(kind, form, PlaceholderId) == Ok(d.value);
    }
  }

  /** The checks of `add_transaction`, in the route's order, with the history validated by the replay. */
  method CheckAddition(assets: seq<Asset>, rows: seq<TxRow>, assetId: int, form: TxForm) returns (d: Result<Tx, Refusal>)
    ensures d == AddDecision(assets, rows, assetId, form)
  {
    var found := FindAsset(assets, assetId);
    if found.None? {
      return Err(AssetNotFound);
    }
    var asset := found.value;
    var kind := ParseTxType(form.txType);
    if kind.None? {
      return Err(InvalidTxType);
    }
    if kind.value !in AllowedTxTypes(asset.assetType) {
      return Err(TypeNotAllowed);
    }
    var candidate := Candidate(kind.value, form, PlaceholderId);
    if candidate.Err? {
      return Err(candidate.error);
    }
    var existing := StoredHistory(rows, assetId);
    var verdict := Validation.ValidateAssetTransactions(asset.assetType, existing + [candidate.value]);
    if verdict.Refused? {
      return Err(Invalid(verdict.reason));
    }
    d := Ok(candidate.value);
  }

  /** `add_transaction`: a refused request writes nothing; an accepted one stores the candidate under the next id. */
  method AddTransaction(db: Database, assetId: int, form: TxForm) returns (r: Result<Tx, Refusal>)
    requires db.Valid()
    modifies db
    ensures db.Valid()
    ensures var d := AddDecision(old(db.assets), old(db.txRows), assetId, form);
      d.Err? ==> r == d && db.txRows == old(db.txRows) && db.nextTxId == old(db.nextTxId)
    ensures var d := AddDecision(old(db.assets), old(db.txRows), assetId, form);
      d.Ok? ==>
        r == Ok(d.value.(id := Some(old(db.nextTxId)))) &&
        db.txRows == old(db.txRows) + [TxRow(db.portfolioId, assetId, r.value)] && db.nextTxId == old(db.nextTxId) + 1
    ensures db.assets == old(db.assets) && db.groups == old(db.groups) && db.baskets == old(db.baskets) && db.links == old(db.links)
    ensures db.nextAssetId == old(db.nextAssetId) && db.nextBasketId == old(db.nextBasketId)
  {
    var d := CheckAddition(db.assets, db.txRows, assetId, form);
    if d.Err? {
      return d;
    }
    var stored := db.InsertTx(assetId, d.value);
    r := Ok(stored);
  }

  // ---------------------------------------------------------------------------------------------
  // Editing a transaction.

  /** No two transactions share an id. */
  predicate DistinctTxIds(txs: seq<Tx>) {
    forall i, j :: 0 <= i < j < |txs| ==> txs[i].id != txs[j].id
  }

  /** The `merged` list: the history with every entry of that id swapped for the candidate. */
  function Replaced(txs: seq<Tx>, txId: int, candidate: Tx): (r: seq<Tx>)
    ensures |r| == |txs|
  {
    if txs == [] then []
    else
      var last := txs[|txs| - 1];
      Replaced(txs[..|txs| - 1], txId, candidate) + [if last.id == Some(txId) then candidate else last]
  }

  lemma {:induction false} ReplacedAt(txs: seq<Tx>, txId: int, candidate: Tx, i: nat)
    requires i < |txs|
    ensures Replaced(txs, txId, candidate)[i] == if txs[i].id == Some(txId) then candidate else txs[i]
  {
    if i < |txs| - 1 {
      ReplacedAt(txs[..|txs| - 1], txId, candidate, i);
    }
  }

  /**
   * With distinct ids, the merged list is the history with exactly the entry of that id
   * replaced: same length, same position, everything else untouched.
   */
  lemma ReplacedExactlyOne(txs: seq<Tx>, txId: int, candidate: Tx, k: nat)
    requires DistinctTxIds(txs) && k < |txs| && txs[k].id == Some(txId)
    ensures Replaced(txs, txId, candidate) == txs[k := candidate]
  {
    forall i | 0 <= i < |txs| ensures Replaced(txs, txId, candidate)[i] == txs[k := candidate][i] {
      ReplacedAt(txs, txId, candidate, i);
    }
  }

  /** The append loop that builds `merged`. */
  method MergeCandidate(existing: seq<Tx>, txId: int, candidate: Tx) returns (merged: seq<Tx>)
    ensures merged == Replaced(existing, txId, candidate)
  {
    merged := [];
    for i := 0 to |existing|
      invariant merged == Replaced(existing[..i], txId, candidate)
    {
      assert existing[..i + 1][..i] == existing[..i];
      merged := merged + [if existing[i].id == Some(txId) then candidate else existing[i]];
    }
    assert existing[..|existing|] == existing;
  }

  /** `edit_transaction` up to the field assignments: the candidate (with the edited id), or the refusal. */
  function EditDecision(assets: seq<Asset>, rows: seq<TxRow>, assetId: int, txId: int, form: TxForm): Result<Tx, Refusal> {
    match FindAsset(assets, assetId)
    case None => Err(TxNotFound)
    case Some(asset) =>
      if FindTx(rows, txId, assetId).None? then Err(TxNotFound)
      else
        (match ParseTxType(form.txType)
         case None => Err(InvalidTxType)
         case Some(kind) =>
           if kind !in AllowedTxTypes(asset.assetType) then Err(TypeNotAllowed)
           else
             (match Candidate(kind, form, txId)
              case Err(e) => Err(e)
              case Ok(candidate) =>
                (match Validation.HistoryVerdict(asset.assetType, Replaced(StoredHistory(rows, assetId), txId, candidate))
                 case Refused(reason) => Err(Invalid(reason))
                 case Accepted => Ok(candidate))))
  }

  /** An edit is accepted only for a transaction stored under that asset. */
  lemma EditFindsStoredTx(assets: seq<Asset>, rows: seq<TxRow>, assetId: int, txId: int, form: TxForm)
    requires EditDecision(assets, rows, assetId, txId, form).Ok?
    ensures FindTx(rows, txId, assetId).Some? && EditDecision(assets, rows, assetId, txId, form).value.id == Some(txId)
  {
    var asset := FindAsset(assets, assetId).value;
    var kind := ParseTxType(form.txType).value;
    assert Candidate(kind, form, txId).Ok?;
  }

  /** The stored rows after the edited transaction's fields are assigned. */
  function UpdatedRows(rows: seq<TxRow>, txId: int, tx: Tx): (r: seq<TxRow>)
    ensures |r| == |rows|
    ensures forall i :: 0 <= i < |rows| ==> r[i] == if rows[i].tx.id == Some(txId) then rows[i].(tx := tx) else rows[i]
  {
    seq(|rows|, i requires 0 <= i < |rows| => if rows[i].tx.id == Some(txId) then rows[i].(tx := tx) else rows[i])
  }

  /** With distinct ids the update touches exactly the row that holds the id. */
  lemma UpdatedRowsTouchOne(rows: seq<TxRow>, txId: int, tx: Tx, nextTxId: int, k: nat)
    requires TxIdsFresh(rows, nextTxId) && k < |rows| && rows[k].tx.id == Some(txId)
    ensures UpdatedRows(rows, txId, tx) == rows[k := rows[k].(tx := tx)]
  {
    var updated := UpdatedRows(rows, txId, tx);
    forall i | 0 <= i < |rows| ensures updated[i] == rows[k := rows[k].(tx := tx)][i] {
      if i != k {
        assert rows[i].tx.id != rows[k].tx.id;
      }
    }
  }

  /** Where the transaction with that id and asset sits. */
  function TxIndex(rows: seq<TxRow>, txId: int, assetId: int): (k: nat)
    requires FindTx(rows, txId, assetId).Some?
    ensures k < |rows| && rows[k].tx.id == Some(txId) && rows[k].assetId == assetId
  {
    if rows[0].tx.id == Some(txId) && rows[0].assetId == assetId then 0
    else 1 + TxIndex(rows[1..], txId, assetId)
  }

  /** The checks of `edit_transaction`, in the route's order, with the merged history validated by the replay. */
  method CheckEdit(assets: seq<Asset>, rows: seq<TxRow>, assetId: int, txId: int, form: TxForm) returns (d: Result<Tx, Refusal>)
    ensures d == EditDecision(assets, rows, assetId, txId, form)
  {
    var found := FindAsset(assets, assetId);
    if found.None? || FindTx(rows, txId, assetId).None? {
      return Err(TxNotFound);
    }
    var asset := found.value;
    var kind := ParseTxType(form.txType);
    if kind.None? {
      return Err(InvalidTxType);
    }
    if kind.value !in AllowedTxTypes(asset.assetType) {
      return Err(TypeNotAllowed);
    }
    var candidate := Candidate(kind.value, form, txId);
    if candidate.Err? {
      return Err(candidate.error);
    }
    var existing := StoredHistory(rows, assetId);
    var merged := MergeCandidate(existing, txId, candidate.value);
    var verdict := Validation.ValidateAssetTransactions(asset.assetType, merged);
    if verdict.Refused? {
      return Err(Invalid(verdict.reason));
    }
    d := Ok(candidate.value);
  }

  /** `edit_transaction`: the stored transaction takes the candidate's fields only if the merged history is accepted. */
  method EditTransaction(db: Database, assetId: int, txId: int, form: TxForm) returns (r: Result<Tx, Refusal>)
    requires db.Valid()
    modifies db
    ensures db.Valid()
    ensures r == EditDecision(old(db.assets), old(db.txRows), assetId, txId, form)
    ensures db.txRows == if r.Ok? then UpdatedRows(old(db.txRows), txId, r.value) else old(db.txRows)
    ensures db.assets == old(db.assets) && db.groups == old(db.groups) && db.baskets == old(db.baskets) && db.links == old(db.links)
    ensures db.nextAssetId == old(db.nextAssetId) && db.nextTxId == old(db.nextTxId) && db.nextBasketId == old(db.nextBasketId)
  {
    r := CheckEdit(db.assets, db.txRows, assetId, txId, form);
    if r.Err? {
      return;
    }
    EditFindsStoredTx(db.assets, db.txRows, assetId, txId, form);
    var k := TxIndex(db.txRows, txId, assetId);
    UpdatedRowsTouchOne(db.txRows, txId, r.value, db.nextTxId, k);
    db.SetTx(k, r.value);
  }

  // ---------------------------------------------------------------------------------------------
  // Deleting a transaction.

  /** `[row for row in existing if row.id != tx.id]` */
  function Remaining(txs: seq<Tx>, txId: int): (r: seq<Tx>)
    ensures |r| <= |txs|
  {
    if txs == [] then []
    else
      var last := txs[|txs| - 1];
      Remaining(txs[..|txs| - 1], txId) + (if last.id != Some(txId) then [last] else [])
  }

  /** What remains is what was there, less the entries with that id. */
  lemma {:induction false} RemainingMembers(txs: seq<Tx>, txId: int)
    ensures forall t :: t in Remaining(txs, txId) <==> t in txs && t.id != Some(txId)
  {
    if txs != [] {
      var prefix := txs[..|txs| - 1];
      RemainingMembers(prefix, txId);
      assert txs == prefix + [txs[|txs| - 1]];
    }
  }

  /** With distinct ids, the remaining list is the history with exactly that entry taken out. */
  lemma {:induction false} RemainingDropsOne(txs: seq<Tx>, txId: int, k: nat)
    requires DistinctTxIds(txs) && k < |txs| && txs[k].id == Some(txId)
    ensures Remaining(txs, txId) == txs[..k] + txs[k + 1..]
  {
    var prefix := txs[..|txs| - 1];
    var last := txs[|txs| - 1];
    if k == |txs| - 1 {
      RemainingUntouched(prefix, txId);
    } else {
      assert DistinctTxIds(prefix);
      assert last.id != Some(txId);
      RemainingDropsOne(prefix, txId, k);
      assert prefix[..k] == txs[..k];
      assert prefix[k + 1..] + [last] == txs[k + 1..];
    }
  }

  lemma {:induction false} RemainingUntouched(txs: seq<Tx>, txId: int)
    requires forall i :: 0 <= i < |txs| ==> txs[i].id != Some(txId)
    ensures Remaining(txs, txId) == txs
  {
    if txs != [] {
      RemainingUntouched(txs[..|txs| - 1], txId);
    }
  }

  /** `delete_transaction` up to the delete: allowed only if what remains is accepted. */
  function DeleteDecision(assets: seq<Asset>, rows: seq<TxRow>, assetId: int, txId: int): Result<(), Refusal> {
    match FindAsset(assets, assetId)
    case None => Err(TxNotFound)
    case Some(asset) =>
      if FindTx(rows, txId, assetId).None? then Err(TxNotFound)
      else
        (match Validation.HistoryVerdict(asset.assetType, Remaining(StoredHistory(rows, assetId), txId))
         case Refused(reason) => Err(CannotDelete(reason))
         case Accepted => Ok(()))
  }

  /** `delete_transaction`: the row goes only if the remaining history is accepted. */
  method DeleteTransaction(db: Database, assetId: int, txId: int) returns (r: Result<(), Refusal>)
    requires db.Valid()
    modifies db
    ensures db.Valid()
    ensures r == DeleteDecision(old(db.assets), old(db.txRows), assetId, txId)
    ensures r.Err? ==> db.txRows == old(db.txRows)
    ensures r.Ok? ==> FindTx(old(db.txRows), txId, assetId).Some?
    ensures r.Ok? ==>
      var k := TxIndex(old(db.txRows), txId, assetId);
      db.txRows == old(db.txRows)[..k] + old(db.txRows)[k + 1..]
    ensures db.assets == old(db.assets) && db.groups == old(db.groups) && db.baskets == old(db.baskets) && db.links == old(db.links)
    ensures db.nextAssetId == old(db.nextAssetId) && db.nextTxId == old(db.nextTxId) && db.nextBasketId == old(db.nextBasketId)
  {
    r := CheckDeletion(db.assets, db.txRows, assetId, txId);
    if r.Err? {
      return;
    }
    var k := TxIndex(db.txRows, txId, assetId);
    db.DeleteTxAt(k);
  }

  /** The checks of `delete_transaction`, with the remaining history validated by the replay. */
  method CheckDeletion(assets: seq<Asset>, rows: seq<TxRow>, assetId: int, txId: int) returns (d: Result<(), Refusal>)
    ensures d == DeleteDecision(assets, rows, assetId, txId)
    ensures d.Ok? ==> FindTx(rows, txId, assetId).Some?
  {
    var found := FindAsset(assets, assetId);
    if found.None? || FindTx(rows, txId, assetId).None? {
      return Err(TxNotFound);
    }
    var existing := StoredHistory(rows, assetId);
    var remaining := Remaining(existing, txId);
    var verdict := Validation.ValidateAssetTransactions(found.value.assetType, remaining);
    if verdict.Refused? {
      return Err(CannotDelete(verdict.reason));
    }
    d := Ok(());
  }

  // ---------------------------------------------------------------------------------------------
  // Editing and deleting an asset.

  /**
   * The asset form. `symbol` and `assetType` are None when the field is absent (the asset's own
   * value is then used); `groupId` is what `int()` makes of the stripped text.
   */
  datatype AssetForm = AssetForm(name: string, symbol: Option<string>, assetType: Option<string>, groupId: IntField, archived: string)

  /** `raw.strip().lower() in {"on", "1", "true", "yes"}` */
  predicate ArchivedFlag(raw: string) {
    Text.Lower(Text.Strip(raw)) in {"on", "1", "true", "yes"}
  }

  /** Another active asset of the portfolio already holds the symbol. */
  predicate OtherActiveSymbol(assets: seq<Asset>, assetId: int, portfolioId: int, symbol: string) {
    exists a :: a in assets && a.id != assetId && a.portfolioId == portfolioId && a.symbol == symbol && !a.archived
  }

  /** What the edit form asks for once read: text stripped, symbol upper-cased, type lower-cased. */
  datatype AssetEdit = AssetEdit(name: string, symbol: string, typeRaw: string, groupId: IntField, archived: bool)

  /**
   * The reading at the top of `asset_edit_submit`. An absent symbol or type field stands for
   * the asset's current value, and a symbol that strips to nothing keeps the current one.
   */
  function ReadAssetForm(asset: Asset, form: AssetForm): AssetEdit {
    var symbol := Text.Upper(Text.Strip(form.symbol.GetOr(asset.symbol)));
    AssetEdit(
      Text.Strip(form.name),
      if symbol == [] then asset.symbol else symbol,
      Text.Lower(Text.Strip(form.assetType.GetOr(AssetTypeValue(asset.assetType)))),
      form.groupId,
      ArchivedFlag(form.archived))
  }

  /** `AssetType(raw)`: the type whose stored value is the text, if any. */
  function ParseAssetType(raw: string): (r: Option<AssetType>)
    ensures r.Some? <==> raw == "market" || raw == "manual"
    ensures r.Some? ==> AssetTypeValue(r.value) == raw
  {
    if raw == "market" then Some(Market) else if raw == "manual" then Some(Manual) else None
  }

  /**
   * The rules of `asset_edit_submit` as written: the asset as it is written back, or the
   * refusal. With transactions, symbol and type are locked and no duplicate check is made, so
   * un-archiving can leave two active assets with one symbol; it differs from
   * `EditAssetDecision` exactly there.
   */
  function EditAssetAsWritten(asset: Asset, assets: seq<Asset>, groups: seq<Group>, txCount: nat, portfolioId: int, edit: AssetEdit): (r: Result<Asset, Refusal>)
    ensures r.Ok? ==> r.value.id == asset.id && r.value.portfolioId == asset.portfolioId && r.value.name == edit.name != []
    ensures r.Ok? ==>
      edit.groupId.IntValue? && r.value.groupId == edit.groupId.n &&
      FindGroup(groups, r.value.groupId, portfolioId).Some? && r.value.archived == edit.archived
    ensures r.Ok? && txCount > 0 ==> r.value.symbol == asset.symbol && r.value.assetType == asset.assetType
    ensures r.Ok? && txCount == 0 ==> r.value.symbol == edit.symbol && ParseAssetType(edit.typeRaw) == Some(r.value.assetType)
    ensures r != EditAssetDecision(asset, assets, groups, txCount, portfolioId, edit) <==>
      r.Ok? && txCount > 0 && !edit.archived && OtherActiveSymbol(assets, asset.id, portfolioId, asset.symbol)
  {
    if edit.name == [] then Err(NameRequired)
    else if !edit.groupId.IntValue? then Err(GroupRequired)
    else
      var group := FindGroup(groups, edit.groupId.n, portfolioId);
      if group.None? then Err(InvalidGroup)
      else if ParseAssetType(edit.typeRaw).None? then Err(InvalidAssetType)
      else
        var kept := asset.(name := edit.name, groupId := group.value.id, archived := edit.archived);
        if txCount > 0 then
          if edit.symbol != asset.symbol || edit.typeRaw != AssetTypeValue(asset.assetType) then Err(SymbolAndTypeLocked)
          else Ok(kept)
        else if OtherActiveSymbol(assets, asset.id, portfolioId, edit.symbol) then Err(DuplicateSymbol)
        else Ok(kept.(symbol := edit.symbol, assetType := ParseAssetType(edit.typeRaw).value))
  }

  /** An asset of the portfolio that is not archived. */
  predicate Active(a: Asset, portfolioId: int) {
    a.portfolioId == portfolioId && !a.archived
  }

  /** No two active assets of the portfolio share a symbol. */
  predicate UniqueActiveSymbols(assets: seq<Asset>, portfolioId: int) {
    forall i, j :: 0 <= i < j < |assets| && Active(assets[i], portfolioId) && Active(assets[j], portfolioId) ==>
      assets[i].symbol != assets[j].symbol
  }

  /**
   * Un-archiving an asset that has transactions, while another active asset holds its symbol,
   * is accepted as written and leaves two active assets with that symbol.
   */
  lemma UnarchiveDuplicatesSymbol()
    ensures var held := Asset(1, 1, "AAPL", "Apple", Market, 1, true);
      var other := Asset(2, 1, "AAPL", "Apple again", Market, 1, false);
      var edit := AssetEdit("Apple", "AAPL", "market", IntValue(1), false);
      var r := EditAssetAsWritten(held, [held, other], [Group(1, 1, "Stocks")], 1, 1, edit);
      UniqueActiveSymbols([held, other], 1) && r.Ok? && !UniqueActiveSymbols([r.value, other], 1)
  {
    var held := Asset(1, 1, "AAPL", "Apple", Market, 1, true);
    var other := Asset(2, 1, "AAPL", "Apple again", Market, 1, false);
    var edit := AssetEdit("Apple", "AAPL", "market", IntValue(1), false);
    var r := EditAssetAsWritten(held, [held, other], [Group(1, 1, "Stocks")], 1, 1, edit);
    assert FindGroup([Group(1, 1, "Stocks")], 1, 1).Some?;
    assert r == Ok(held.(archived := false));
    var after := [r.value, other];
    assert Active(after[0], 1) && Active(after[1], 1) && after[0].symbol == after[1].symbol;
  }

  /**
   * The rules of `asset_edit_submit` with the duplicate check the route evidently intends:
   * besides the rules as written, an edit that leaves the asset active is refused while
   * another active asset of the portfolio holds its symbol. Once the asset has transactions
   * its symbol and type stay as they are.
   */
  function EditAssetDecision(asset: Asset, assets: seq<Asset>, groups: seq<Group>, txCount: nat, portfolioId: int, edit: AssetEdit): (r: Result<Asset, Refusal>)
    ensures r.Ok? ==> r.value.id == asset.id && r.value.portfolioId == asset.portfolioId && r.value.name == edit.name != []
    ensures r.Ok? ==>
      edit.groupId.IntValue? && r.value.groupId == edit.groupId.n &&
      FindGroup(groups, r.value.groupId, portfolioId).Some? && r.value.archived == edit.archived
    ensures r.Ok? && txCount > 0 ==> r.value.symbol == asset.symbol && r.value.assetType == asset.assetType
    ensures r.Ok? && txCount == 0 ==> r.value.symbol == edit.symbol && ParseAssetType(edit.typeRaw) == Some(r.value.assetType)
    ensures r.Ok? && !r.value.archived ==> !OtherActiveSymbol(assets, asset.id, portfolioId, r.value.symbol)
  {
    if edit.name == [] then Err(NameRequired)
    else if !edit.groupId.IntValue? then Err(GroupRequired)
    else
      var group := FindGroup(groups, edit.groupId.n, portfolioId);
      if group.None? then Err(InvalidGroup)
      else if ParseAssetType(edit.typeRaw).None? then Err(InvalidAssetType)
      else
        var kept := asset.(name := edit.name, groupId := group.value.id, archived := edit.archived);
        if txCount > 0 then
          if edit.symbol != asset.symbol || edit.typeRaw != AssetTypeValue(asset.assetType) then Err(SymbolAndTypeLocked)
          else if !edit.archived && OtherActiveSymbol(assets, asset.id, portfolioId, asset.symbol) then Err(DuplicateSymbol)
          else Ok(kept)
        else if OtherActiveSymbol(assets, asset.id, portfolioId, edit.symbol) then Err(DuplicateSymbol)
        else Ok(kept.(symbol := edit.symbol, assetType := ParseAssetType(edit.typeRaw).value))
  }

  /** An accepted edit keeps the active symbols of the portfolio unique. */
  lemma EditKeepsActiveSymbolsUnique(asset: Asset, assets: seq<Asset>, groups: seq<Group>, txCount: nat, portfolioId: int, edit: AssetEdit, k: nat)
    requires UniqueActiveSymbols(assets, portfolioId)
    requires forall i, j :: 0 <= i < j < |assets| ==> assets[i].id != assets[j].id
    requires k < |assets| && assets[k] == asset
    requires EditAssetDecision(asset, assets, groups, txCount, portfolioId, edit).Ok?
    ensures UniqueActiveSymbols(assets[k := EditAssetDecision(asset, assets, groups, txCount, portfolioId, edit).value], portfolioId)
  {
    var edited := EditAssetDecision(asset, assets, groups, txCount, portfolioId, edit).value;
    var after := assets[k := edited];
    forall i, j | 0 <= i < j < |after| && Active(after[i], portfolioId) && Active(after[j], portfolioId)
      ensures after[i].symbol != after[j].symbol
    {
      if i == k || j == k {
        var other := if i == k then j else i;
        assert assets[other].id != asset.id;
        assert after[other] == assets[other] && assets[other] in assets;
      }
    }
  }

  /** With transactions, asking for another symbol or type is refused (the form being otherwise valid). */
  lemma SymbolLockedAfterTransactions(asset: Asset, assets: seq<Asset>, groups: seq<Group>, txCount: nat, portfolioId: int, edit: AssetEdit)
    requires txCount > 0 && edit.name != [] && edit.groupId.IntValue?
    requires FindGroup(groups, edit.groupId.n, portfolioId).Some? && ParseAssetType(edit.typeRaw).Some?
    requires edit.symbol != asset.symbol || ParseAssetType(edit.typeRaw) != Some(asset.assetType)
    ensures EditAssetAsWritten(asset, assets, groups, txCount, portfolioId, edit) == Err(SymbolAndTypeLocked)
    ensures EditAssetDecision(asset, assets, groups, txCount, portfolioId, edit) == Err(SymbolAndTypeLocked)
  {
  }

  /** Without transactions, a symbol another active asset of the portfolio holds is refused. */
  lemma DuplicateRefusedWithoutTransactions(asset: Asset, assets: seq<Asset>, groups: seq<Group>, portfolioId: int, edit: AssetEdit, other: Asset)
    requires edit.name != [] && edit.groupId.IntValue?
    requires FindGroup(groups, edit.groupId.n, portfolioId).Some? && ParseAssetType(edit.typeRaw).Some?
    requires other in assets && other.id != asset.id && other.portfolioId == portfolioId && other.symbol == edit.symbol && !other.archived
    ensures EditAssetAsWritten(asset, assets, groups, 0, portfolioId, edit) == Err(DuplicateSymbol)
    ensures EditAssetDecision(asset, assets, groups, 0, portfolioId, edit) == Err(DuplicateSymbol)
  {
  }

  /**
   * `asset_edit_submit` up to the commit, following the rules as written: the asset as it is
   * written back, or the refusal.
   */
  function EditAssetOutcome(assets: seq<Asset>, groups: seq<Group>, rows: seq<TxRow>, portfolioId: int, assetId: int, form: AssetForm): Result<Asset, Refusal> {
    match FindAsset(assets, assetId)
    case None => Err(AssetNotFound)
    case Some(asset) => EditAssetAsWritten(asset, assets, groups, TxCount(rows, assetId), portfolioId, ReadAssetForm(asset, form))
  }

  /** `asset_edit_submit`: the asset is rewritten in place when the rules as written accept the edit. */
  method EditAsset(db: Database, assetId: int, form: AssetForm) returns (r: Result<Asset, Refusal>)
    requires db.Valid()
    modifies db
    ensures db.Valid()
    ensures r == EditAssetOutcome(old(db.assets), old(db.groups), old(db.txRows), db.portfolioId, assetId, form)
    ensures r.Err? ==> db.assets == old(db.assets)
    ensures r.Ok? ==> db.assets == old(db.assets)[AssetIndex(old(db.assets), assetId) := r.value]
    ensures db.txRows == old(db.txRows) && db.groups == old(db.groups) && db.baskets == old(db.baskets) && db.links == old(db.links)
    ensures db.nextAssetId == old(db.nextAssetId) && db.nextTxId == old(db.nextTxId) && db.nextBasketId == old(db.nextBasketId)
  {
    var found := FindAsset(db.assets, assetId);
    if found.None? {
      return Err(AssetNotFound);
    }
    var edit := ReadAssetForm(found.value, form);
    r := EditAssetAsWritten(found.value, db.assets, db.groups, TxCount(db.txRows, assetId), db.portfolioId, edit);
    if r.Ok? {
      var k := AssetIndex(db.assets, assetId);
      db.SetAsset(k, r.value);
    }
  }

  /**
   * `delete_asset`: refused while the asset has transactions; otherwise the asset goes, and its
   * basket links with it.
   */
  method DeleteAsset(db: Database, assetId: int) returns (r: Result<(), Refusal>)
    requires db.Valid()
    modifies db
    ensures db.Valid()
    ensures r == Err(AssetNotFound) <==> FindAsset(old(db.assets), assetId).None?
    ensures r == Err(HasTransactions) <==> FindAsset(old(db.assets), assetId).Some? && TxCount(old(db.txRows), assetId) > 0
    ensures r.Ok? <==> FindAsset(old(db.assets), assetId).Some? && TxCount(old(db.txRows), assetId) == 0
    ensures r.Err? ==> db.assets == old(db.assets) && db.links == old(db.links)
    ensures r.Ok? ==> var k := AssetIndex(old(db.assets), assetId);
      db.assets == old(db.assets)[..k] + old(db.assets)[k + 1..] && db.links == LinksWithout(old(db.links), assetId) &&
      forall i :: 0 <= i < |db.txRows| ==> db.txRows[i].assetId != assetId
    ensures db.txRows == old(db.txRows) && db.groups == old(db.groups) && db.baskets == old(db.baskets)
    ensures db.nextAssetId == old(db.nextAssetId) && db.nextTxId == old(db.nextTxId) && db.nextBasketId == old(db.nextBasketId)
  {
    var found := FindAsset(db.assets, assetId);
    if found.None? {
      return Err(AssetNotFound);
    }
    if TxCount(db.txRows, assetId) > 0 {
      return Err(HasTransactions);
    }
    TxCountZeroIffNoRow(db.txRows, assetId);
    var k := AssetIndex(db.assets, assetId);
    db.DeleteAssetAt(k);
    r := Ok(());
  }
}
