/** The records the components receive from the data store, as the
    application's shared type declarations describe them. */
module Types {
  import opened Common

  /** The kinds of holding a user tracks. */
  datatype AssetType =
    | SpendingAccount | Cash | Investment | Crypto | Property | Receivable | Debt | Other

  /** The string the data store holds for each kind. */
  function AssetTypeName(t: AssetType): string {
    match t
    case SpendingAccount => "spending_account"
    case Cash => "cash"
    case Investment => "investment"
    case Crypto => "crypto"
    case Property => "property"
    case Receivable => "receivable"
    case Debt => "debt"
    case Other => "other"
  }

  /** The direction of a transaction, and the kind of a category. */
  datatype TxType = Income | Expense

  datatype Category = Category(id: string, name: string, kind: TxType)

  /** The filter `c => c.type === kind` the category lists use. */
  function CategoryOfKind(kind: TxType): Category -> bool {
    (c: Category) => c.kind == kind
  }

  /** A holding: an asset, a receivable or a debt. */
  datatype Asset = Asset(
    id: string,
    name: string,
    kind: AssetType,
    value: real,
    quantity: Option<real>,
    buyPrice: Option<real>,
    currentPrice: Option<real>,
    coinId: Option<string>,
    description: Option<string>,
    updatedAt: string)

  /** `!!asset.coin_id`: the holding is denominated in units of a coin. */
  predicate HasCoin(a: Asset) {
    a.coinId.Some? && a.coinId.value != ""
  }

  /** A transaction row, with the category the list page joins to it. */
  datatype Transaction = Transaction(
    id: string,
    kind: TxType,
    amount: real,
    categoryId: Option<string>,
    assetId: Option<string>,
    description: Option<string>,
    date: string,
    category: Option<Category>)

  /** Σ amount over the transactions: `reduce((sum, t) => sum + Number(t.amount), 0)`. */
  function Amounts(txs: seq<Transaction>): real {
    if txs == [] then 0.0 else txs[0].amount + Amounts(txs[1..])
  }

  lemma {:induction false} AmountsAppend(a: seq<Transaction>, b: seq<Transaction>)
    ensures Amounts(a + b) == Amounts(a) + Amounts(b)
  {
    if a == [] {
      assert a + b == b;
    } else {
      assert (a + b)[1..] == a[1..] + b;
      AmountsAppend(a[1..], b);
    }
  }
}
