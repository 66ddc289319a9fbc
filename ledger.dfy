/**
 * The records of the transaction ledger and of the portfolio's assets, groups and baskets,
 * as the ORM declares them (only the fields the engine and the routes read or write).
 */
module Ledger {
  import opened Wrappers

  datatype AssetType = Market | Manual

  /** The stored enumeration value of an asset type ("market" / "manual"). */
  function AssetTypeValue(t: AssetType): string {
    match t
    case Market => "market"
    case Manual => "manual"
  }

  /**
   * A transaction's type. The replay functions accept any object with a `type`
   * attribute, so a type outside the enumeration is representable: `Unsupported`.
   */
  datatype TxKind = Buy | Sell | ManualValueUpdate | Unsupported(tag: string)

  /** The stored enumeration value of a transaction type. */
  function TxKindValue(k: TxKind): string {
    match k
    case Buy => "BUY"
    case Sell => "SELL"
    case ManualValueUpdate => "MANUAL_VALUE_UPDATE"
    case Unsupported(tag) => tag
  }

  /**
   * One ledger fact as the replay sees it. Nullable columns are `Option`s;
   * `id` is absent on a transaction that was never stored.
   * Timestamps are UTC instants in seconds.
   */
  datatype Tx = Tx(
    id: Option<int>,
    kind: TxKind,
    timestamp: int,
    quantity: Option<real>,
    price: Option<real>,
    fees: real,
    manualValue: Option<real>,
    investedOverride: Option<real>)
  {
    /** `float(quantity or 0.0)`: a missing quantity reads as zero. */
    function Qty(): real { quantity.GetOr(0.0) }
    /** `float(price or 0.0)` */
    function Px(): real { price.GetOr(0.0) }
    /** `float(manual_value or 0.0)` */
    function ManualAmount(): real { manualValue.GetOr(0.0) }
  }

  datatype Asset = Asset(
    id: int,
    portfolioId: int,
    symbol: string,
    name: string,
    assetType: AssetType,
    groupId: int,
    archived: bool)

  datatype Group = Group(id: int, portfolioId: int, name: string)

  /** A stored transaction: the fact plus the portfolio and asset it belongs to. */
  datatype TxRow = TxRow(portfolioId: int, assetId: int, tx: Tx)

  datatype Basket = Basket(id: int, portfolioId: int, name: string)

  /** A basket member; `weight` is None when the user left it blank. */
  datatype BasketLink = BasketLink(basketId: int, assetId: int, weight: Option<real>)
}
