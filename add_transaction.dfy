/** The add-transaction dialog: when the add button is enabled, the
    categories offered for the chosen type, the submit guard, the row that is
    inserted and the reset that follows. */
module AddTransaction {
  import opened Common
  import opened Types
  import opened Seqs

  /** `categories.some((c) => c.type === kind)`. */
  predicate AnyOfKind(cs: seq<Category>, kind: TxType) {
    cs != [] && (cs[0].kind == kind || AnyOfKind(cs[1..], kind))
  }

  lemma {:induction false} AnyOfKindIff(cs: seq<Category>, kind: TxType)
    ensures AnyOfKind(cs, kind) <==> exists i :: 0 <= i < |cs| && cs[i].kind == kind
  {
    if cs != [] {
      AnyOfKindIff(cs[1..], kind);
      if exists i :: 0 <= i < |cs| && cs[i].kind == kind {
        var i :| 0 <= i < |cs| && cs[i].kind == kind;
        if i > 0 {
          assert cs[1..][i - 1].kind == kind;
        }
      }
      if AnyOfKind(cs[1..], kind) {
        var i :| 0 <= i < |cs[1..]| && cs[1..][i].kind == kind;
        assert cs[i + 1].kind == kind;
      }
    }
  }

  /** `canAddTransaction`. */
  predicate CanAdd(cs: seq<Category>, assets: seq<Asset>) {
    AnyOfKind(cs, Income) && AnyOfKind(cs, Expense) && |assets| > 0
  }

  /** Adding is possible exactly when there is an income category, an
      expense category and at least one asset. */
  lemma CanAddIff(cs: seq<Category>, assets: seq<Asset>)
    ensures CanAdd(cs, assets) <==>
      (exists i :: 0 <= i < |cs| && cs[i].kind == Income)
      && (exists i :: 0 <= i < |cs| && cs[i].kind == Expense)
      && assets != []
  {
    AnyOfKindIff(cs, Income);
    AnyOfKindIff(cs, Expense);
  }

  /** `filteredCategories`. */
  function FilteredCategories(cs: seq<Category>, kind: TxType): seq<Category> {
    Filter(cs, CategoryOfKind(kind))
  }

  /** The category select offers exactly the categories of the chosen type,
      in their order. */
  lemma FilteredCategoriesSpec(cs: seq<Category>, kind: TxType)
    ensures Subseq(FilteredCategories(cs, kind), cs)
    ensures forall c :: c in FilteredCategories(cs, kind) <==> c in cs && c.kind == kind
  {
    var r := FilteredCategories(cs, kind);
    forall c | c in r
      ensures c.kind == kind
    {
      var i :| 0 <= i < |r| && r[i] == c;
      assert CategoryOfKind(kind)(r[i]);
    }
    forall c | c in cs && c.kind == kind
      ensures c in r
    {
      var i :| 0 <= i < |cs| && cs[i] == c;
      assert CategoryOfKind(kind)(cs[i]);
    }
  }

  /** The row sent to the `transactions` table. */
  datatype NewTransaction = NewTransaction(
    userId: string,
    kind: TxType,
    amount: real,
    categoryId: string,
    assetId: string,
    description: Option<string>,
    date: string)

  /** The inserted row: the chosen type, category and asset, the typed
      amount, and `description || null`. */
  function RowFor(userId: string, kind: TxType, amount: real, categoryId: string,
                  assetId: string, description: string, date: string): (r: NewTransaction)
    ensures r.kind == kind && r.categoryId == categoryId && r.assetId == assetId
    ensures r.amount == amount && r.userId == userId && r.date == date
    ensures r.description.None? <==> description == ""
    ensures r.description.Some? ==> r.description.value == description
  {
    NewTransaction(userId, kind, amount, categoryId, assetId,
      if description == "" then None else Some(description), date)
  }

  /** A row the transactions table accepts names a category and an asset. */
  predicate SentRowComplete(r: NewTransaction) {
    r.categoryId != "" && r.assetId != ""
  }

  /** The dialog's form state. */
  class AddTransactionForm {
    const categories: seq<Category>
    var open: bool
    var loading: bool
    var kind: TxType
    var amount: NumberField
    var categoryId: string
    var assetId: string
    var assets: seq<Asset>
    var description: string
    var date: string

    /** The initial state: a closed, empty expense form dated today, with no
        assets loaded yet, so adding is not yet possible. */
    constructor(categories: seq<Category>, today: string)
      ensures this.categories == categories
      ensures !open && !loading && kind == Expense && amount == Blank
      ensures categoryId == "" && assetId == "" && assets == [] && description == "" && date == today
      ensures !CanAddTransaction()
    {
      this.categories := categories;
      open := false;
      loading := false;
      kind := Expense;
      amount := Blank;
      categoryId := "";
      assetId := "";
      assets := [];
      description := "";
      date := today;
    }

    predicate CanAddTransaction()
      reads this
    {
      CanAdd(categories, assets)
    }

    /** The categories the select offers: those of the chosen type. */
    function Offered(): seq<Category>
      reads this
    {
      FilteredCategories(categories, kind)
    }

    /** The submit button is disabled while saving, and while no category or
        no asset is chosen: while it is enabled, the row the form would send,
        for any user, has both. */
    predicate SubmitDisabled(): (r: bool)
      reads this
      ensures !r ==> forall u: string ::
        SentRowComplete(RowFor(u, kind, NumberOrZero(amount), categoryId, assetId, description, date))
    {
      loading || categoryId == "" || assetId == ""
    }

    /** Opening the dialog fetches the assets, ordered by name; the list is
        replaced only when the query returned data. */
    method Open(fetched: Option<seq<Asset>>)
      modifies this
      ensures open
      ensures assets == (if fetched.Some? then fetched.value else old(assets))
      ensures loading == old(loading) && kind == old(kind) && amount == old(amount)
      ensures categoryId == old(categoryId) && assetId == old(assetId)
      ensures description == old(description) && date == old(date)
    {
      open := true;
      if fetched.Some? {
        assets := fetched.value;
      }
    }

    /** The "Pemasukan" / "Pengeluaran" buttons: switch the type and clear the
        chosen category, which may not be of the new type. */
    method SelectType(k: TxType)
      modifies this
      ensures kind == k && categoryId == ""
      ensures Offered() == FilteredCategories(categories, k)
      ensures open == old(open) && loading == old(loading) && amount == old(amount)
      ensures assetId == old(assetId) && assets == old(assets)
      ensures description == old(description) && date == old(date)
    {
      kind := k;
      categoryId := "";
    }

    /** `resetForm`. */
    method ResetForm(today: string)
      modifies this
      ensures kind == Expense && amount == Blank && categoryId == "" && assetId == ""
      ensures description == "" && date == today
      ensures open == old(open) && loading == old(loading) && assets == old(assets)
    {
      kind := Expense;
      amount := Blank;
      categoryId := "";
      assetId := "";
      description := "";
      date := today;
    }

    /** `handleSubmit`. The browser refuses to submit while the required
        amount or date is empty. Then a missing category or asset stops the
        submit before anything is sent; so does a missing session, which
        leaves `loading` set. Otherwise the row is sent; when the insert
        succeeds the dialog closes and the form resets. */
    method Submit(user: Option<string>, today: string, insertFails: bool)
      returns (sent: Option<NewTransaction>)
      modifies this
      ensures old(!Filled(amount) || date == "" || categoryId == "" || assetId == "") ==>
        sent.None? && open == old(open) && loading == old(loading) && kind == old(kind)
        && amount == old(amount) && categoryId == old(categoryId) && assetId == old(assetId)
        && description == old(description) && date == old(date)
      ensures old(Filled(amount) && date != "" && categoryId != "" && assetId != "") && user.None? ==>
        sent.None? && loading && open == old(open) && kind == old(kind)
        && amount == old(amount) && categoryId == old(categoryId) && assetId == old(assetId)
        && description == old(description) && date == old(date)
      ensures old(Filled(amount) && date != "" && categoryId != "" && assetId != "") && user.Some? ==>
        sent == Some(RowFor(user.value, old(kind), old(NumberOrZero(amount)), old(categoryId),
                            old(assetId), old(description), old(date)))
        && !loading
      ensures old(Filled(amount) && date != "" && categoryId != "" && assetId != "") && user.Some? && insertFails ==>
        open == old(open) && kind == old(kind) && amount == old(amount) && categoryId == old(categoryId)
        && assetId == old(assetId) && description == old(description) && date == old(date)
      ensures old(Filled(amount) && date != "" && categoryId != "" && assetId != "") && user.Some? && !insertFails ==>
        !open && kind == Expense && amount == Blank && categoryId == "" && assetId == ""
        && description == "" && date == today
      ensures assets == old(assets)
      ensures old(SubmitDisabled()) && !old(loading) ==> sent.None?
      ensures old(!SubmitDisabled() && Filled(amount) && date != "") && user.Some? ==> sent.Some?
    {
      sent := None;
      if !Filled(amount) || date == "" {
        return;
      }
      if categoryId == "" || assetId == "" {
        return;
      }
      loading := true;
      if user.None? {
        return;
      }
      sent := Some(RowFor(user.value, kind, NumberOrZero(amount), categoryId, assetId, description, date));
      if !insertFails {
        open := false;
        ResetForm(today);
      }
      loading := false;
    }
  }

  /** Whatever reaches the table has a category and an asset. */
  lemma SentRowIsComplete(userId: string, kind: TxType, amount: real, categoryId: string,
                          assetId: string, description: string, date: string)
    requires categoryId != "" && assetId != ""
    ensures RowFor(userId, kind, amount, categoryId, assetId, description, date).categoryId != ""
    ensures RowFor(userId, kind, amount, categoryId, assetId, description, date).assetId != ""
  {
  }
}
