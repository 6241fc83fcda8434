/** The category manager: adding a category under a trimmed, non-blank name,
    and the income and expense lists. */
module CategoryManager {
  import opened Common
  import opened Types
  import opened Seqs

  /** The row sent to the `categories` table. */
  datatype NewCategory = NewCategory(userId: string, name: string, kind: TxType)

  /** `!name.trim()`. */
  predicate BlankName(name: string) {
    Trim(name) == []
  }

  /** A name is blank exactly when it is empty or all white space. */
  lemma BlankIff(name: string)
    ensures BlankName(name) <==> forall i :: 0 <= i < |name| ==> IsWhitespace(name[i])
  {
    TrimEmptyIff(name);
  }

  /** The add form's state. */
  class CategoryForm {
    var name: string
    var kind: TxType
    var loading: bool

    constructor()
      ensures name == "" && kind == Expense && !loading
    {
      name := "";
      kind := Expense;
      loading := false;
    }

    /** The add button is disabled while saving and while the name is blank:
        when not saving, exactly when the name is empty or all white space. */
    predicate AddDisabled(): (r: bool)
      reads this
      ensures !loading ==> (r <==> forall i :: 0 <= i < |name| ==> IsWhitespace(name[i]))
    {
      BlankIff(name);
      loading || BlankName(name)
    }

    /** The type select. */
    method SelectKind(k: TxType)
      modifies this
      ensures kind == k && name == old(name) && loading == old(loading)
    {
      kind := k;
    }

    /** `handleAddCategory`. A blank name sends nothing and changes nothing; a
        missing session sends nothing and leaves `loading` set. Otherwise the
        trimmed name is sent with the selected type, and the name field is
        cleared whatever the insert reports. */
    method AddCategory(user: Option<string>) returns (sent: Option<NewCategory>)
      modifies this
      ensures old(BlankName(name)) ==>
        sent.None? && name == old(name) && kind == old(kind) && loading == old(loading)
      ensures !old(BlankName(name)) && user.None? ==>
        sent.None? && loading && name == old(name) && kind == old(kind)
      ensures !old(BlankName(name)) && user.Some? ==>
        sent == Some(NewCategory(user.value, Trim(old(name)), old(kind)))
        && name == "" && !loading && kind == old(kind)
      ensures old(AddDisabled()) && !old(loading) ==> sent.None? && name == old(name)
      ensures !old(AddDisabled()) && user.Some? ==> sent.Some?
    {
      sent := None;
      if BlankName(name) {
        return;
      }
      loading := true;
      if user.None? {
        return;
      }
      sent := Some(NewCategory(user.value, Trim(name), kind));
      loading := false;
      name := "";
    }
  }

  /** A sent name is never blank and never begins or ends with white space,
      and trimming it again changes nothing. */
  lemma SentNameIsClean(name: string)
    requires !BlankName(name)
    ensures Trim(name) != []
    ensures !IsWhitespace(Trim(name)[0]) && !IsWhitespace(Trim(name)[|Trim(name)| - 1])
    ensures Trim(Trim(name)) == Trim(name)
  {
    TrimIdempotent(name);
  }

  /** `incomeCategories` and `expenseCategories`. */
  function CategoriesOf(cs: seq<Category>, kind: TxType): seq<Category> {
    Filter(cs, CategoryOfKind(kind))
  }

  /** Each list keeps, in order, exactly the categories of its type. */
  lemma CategoriesOfSpec(cs: seq<Category>, kind: TxType)
    ensures Subseq(CategoriesOf(cs, kind), cs)
    ensures forall c :: c in CategoriesOf(cs, kind) <==> c in cs && c.kind == kind
  {
    var r := CategoriesOf(cs, kind);
    forall c | c in r
      ensures c.kind == kind
    {
      var i :| 0 <= i < |r| && r[i] == c;
      assert CategoryOfKind(kind)(r[i]);
    }
    forall c | c in cs && c.kind == kind
      ensures c in r
    {
      var i :| 0 <= i < |cs| && cs[i] == c;
      assert CategoryOfKind(kind)(cs[i]);
    }
  }

  /** The two lists are disjoint and together list every category once. */
  lemma Partition(cs: seq<Category>)
    ensures forall c :: !(c in CategoriesOf(cs, Income) && c in CategoriesOf(cs, Expense))
    ensures |CategoriesOf(cs, Income)| + |CategoriesOf(cs, Expense)| == |cs|
  {
    CategoriesOfSpec(cs, Income);
    CategoriesOfSpec(cs, Expense);
    FilterComplement(cs, CategoryOfKind(Income), CategoryOfKind(Expense));
  }

  /** "Belum ada kategori" is shown when there are no categories at all. */
  predicate ShowsEmptyState(cs: seq<Category>) {
    |cs| == 0
  }

  /** The empty-state text is shown exactly when neither list has a section
      to show. */
  lemma EmptyStateIff(cs: seq<Category>)
    ensures ShowsEmptyState(cs) <==> |CategoriesOf(cs, Income)| == 0 && |CategoriesOf(cs, Expense)| == 0
  {
    Partition(cs);
  }
}
