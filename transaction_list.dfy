/** The transaction list's filter: a text search over description and
    category name, a type filter and a category filter, all three combined. */
module TransactionList {
  import opened Common
  import opened Types
  import opened Seqs

  /** The type select: "all", or one type. */
  datatype TypeFilter = AllTypes | OnlyType(kind: TxType)

  /** The category select: "all", or one category id. */
  datatype CategoryFilter = AllCategories | OnlyCategory(id: string)

  /** `description?.toLowerCase().includes(q) || category?.name.toLowerCase()
      .includes(q)`, with `q` the lower-cased search text. A missing field
      matches nothing, not even the empty search. */
  predicate MatchesSearch(t: Transaction, search: string) {
    (t.description.Some? && Contains(Lower(t.description.value), Lower(search)))
    || (t.category.Some? && Contains(Lower(t.category.value.name), Lower(search)))
  }

  predicate MatchesType(t: Transaction, f: TypeFilter) {
    f.AllTypes? || t.kind == f.kind
  }

  /** `category_id === categoryFilter`: a transaction without a category
      matches no chosen category. */
  predicate MatchesCategory(t: Transaction, f: CategoryFilter) {
    f.AllCategories? || t.categoryId == Some(f.id)
  }

  predicate Keep(t: Transaction, search: string, tf: TypeFilter, cf: CategoryFilter) {
    MatchesSearch(t, search) && MatchesType(t, tf) && MatchesCategory(t, cf)
  }

  function KeepFn(search: string, tf: TypeFilter, cf: CategoryFilter): Transaction -> bool {
    (t: Transaction) => Keep(t, search, tf, cf)
  }

  /** `filteredTransactions`. */
  function Filtered(txs: seq<Transaction>, search: string, tf: TypeFilter, cf: CategoryFilter): seq<Transaction> {
    Filter(txs, KeepFn(search, tf, cf))
  }

  /** The result is an order-preserving sub-list of the input holding exactly
      the transactions that pass all three filters. */
  lemma FilteredSpec(txs: seq<Transaction>, search: string, tf: TypeFilter, cf: CategoryFilter)
    ensures Subseq(Filtered(txs, search, tf, cf), txs)
    ensures forall t :: t in Filtered(txs, search, tf, cf) <==> t in txs && Keep(t, search, tf, cf)
  {
    var r := Filtered(txs, search, tf, cf);
    forall t | t in r
      ensures t in txs && Keep(t, search, tf, cf)
    {
      var i :| 0 <= i < |r| && r[i] == t;
      assert KeepFn(search, tf, cf)(r[i]);
    }
    forall t | t in txs && Keep(t, search, tf, cf)
      ensures t in r
    {
      var i :| 0 <= i < |txs| && txs[i] == t;
      assert KeepFn(search, tf, cf)(txs[i]);
    }
  }

  /** A chosen type keeps only transactions of that type; "all" lets every
      type through. */
  lemma TypeFilterSpec(t: Transaction, search: string, tf: TypeFilter, cf: CategoryFilter)
    ensures Keep(t, search, tf, cf) ==> (tf.OnlyType? ==> t.kind == tf.kind)
    ensures Keep(t, search, AllTypes, cf) <==> MatchesSearch(t, search) && MatchesCategory(t, cf)
  {
  }

  /** A chosen category keeps only transactions with that category id. */
  lemma CategoryFilterSpec(t: Transaction, search: string, tf: TypeFilter, id: string)
    ensures Keep(t, search, tf, OnlyCategory(id)) ==> t.categoryId == Some(id)
    ensures Keep(t, search, tf, AllCategories) <==> MatchesSearch(t, search) && MatchesType(t, tf)
  {
  }

  /** The empty search matches exactly the transactions that have a
      description or a category; a transaction with neither is hidden even
      then. */
  lemma EmptySearch(t: Transaction)
    ensures MatchesSearch(t, "") <==> t.description.Some? || t.category.Some?
  {
    if t.description.Some? {
      ContainsEmpty(Lower(t.description.value));
    }
    if t.category.Some? {
      ContainsEmpty(Lower(t.category.value.name));
    }
  }

  /** Search ignores the case of the search text. */
  lemma SearchIgnoresCase(t: Transaction, search: string)
    ensures MatchesSearch(t, Lower(search)) <==> MatchesSearch(t, search)
  {
    LowerIdempotent(search);
  }

  /** A search matches when its text occurs, case folded, at some position of
      the description or the category name. */
  lemma SearchOccurs(t: Transaction, search: string)
    requires t.description.Some?
    ensures (exists i :: OccursAt(Lower(t.description.value), Lower(search), i)) ==> MatchesSearch(t, search)
  {
    ContainsIff(Lower(t.description.value), Lower(search));
  }

  /** The text shown when the filtered list is empty. */
  function EmptyText(txs: seq<Transaction>): (s: string)
    ensures |txs| == 0 ==> s == "Belum ada transaksi. Tambahkan transaksi pertama Anda!"
    ensures |txs| > 0 ==> s == "Tidak ada transaksi yang cocok dengan filter."
  {
    if |txs| == 0 then "Belum ada transaksi. Tambahkan transaksi pertama Anda!"
    else "Tidak ada transaksi yang cocok dengan filter."
  }

  /** The empty state appears when nothing passes the filters: either
      because there are no transactions at all, or because every one of them
      fails some filter, and its text tells these apart. */
  lemma EmptyStateSpec(txs: seq<Transaction>, search: string, tf: TypeFilter, cf: CategoryFilter)
    ensures txs == [] ==> Filtered(txs, search, tf, cf) == []
    ensures Filtered(txs, search, tf, cf) == [] ==> forall i :: 0 <= i < |txs| ==> !Keep(txs[i], search, tf, cf)
    ensures EmptyText([]) != EmptyText(txs) <==> txs != []
  {
    var r := Filtered(txs, search, tf, cf);
    assert forall i :: 0 <= i < |txs| ==> KeepFn(search, tf, cf)(txs[i]) == Keep(txs[i], search, tf, cf);
    if txs != [] {
      assert |EmptyText([])| != |EmptyText(txs)|;
    }
  }
}
