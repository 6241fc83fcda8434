/** The report's per-category breakdown: transactions grouped by category,
    each group named, coloured and given its share of the total, largest
    first. */
module CategoryBreakdown {
  import opened Common
  import opened Types
  import opened Grouping

  const Uncategorized: string := "uncategorized"
  const Unnamed: string := "Tanpa Kategori"

  /** `t.category_id || "uncategorized"`: a missing or empty category id
      groups under "uncategorized". */
  function KeyOf(t: Transaction): (k: string)
    ensures k == Uncategorized <==> (t.categoryId.None? || t.categoryId.value == "" || t.categoryId.value == Uncategorized)
    ensures t.categoryId.Some? && t.categoryId.value != "" ==> k == t.categoryId.value
  {
    if t.categoryId.Some? && t.categoryId.value != "" then t.categoryId.value else Uncategorized
  }

  function ItemsOf(txs: seq<Transaction>): (r: seq<Item<string>>)
    ensures |r| == |txs|
    ensures forall i :: 0 <= i < |txs| ==> r[i] == Item(KeyOf(txs[i]), txs[i].amount)
  {
    seq(|txs|, i requires 0 <= i < |txs| => Item(KeyOf(txs[i]), txs[i].amount))
  }

  /** `categoryTotals`. */
  function CategoryTotals(txs: seq<Transaction>): seq<Group<string>> {
    GroupSums(ItemsOf(txs))
  }

  /** `totalAmount`: Σ of the per-category totals. */
  function TotalAmount(txs: seq<Transaction>): real {
    SumGroups(CategoryTotals(txs))
  }

  /** Σ amount over the transactions of one grouping key. */
  function KeyTotal(txs: seq<Transaction>, k: string): real {
    if txs == [] then 0.0
    else
      var t := txs[|txs| - 1];
      KeyTotal(txs[..|txs| - 1], k) + (if KeyOf(t) == k then t.amount else 0.0)
  }

  lemma {:induction false} ItemsOfSums(txs: seq<Transaction>)
    ensures SumItems(ItemsOf(txs)) == Amounts(txs)
    ensures forall k :: SumFor(ItemsOf(txs), k) == KeyTotal(txs, k)
  {
    if txs != [] {
      var init := txs[..|txs| - 1];
      ItemsOfSums(init);
      assert ItemsOf(txs)[..|txs| - 1] == ItemsOf(init);
      AmountsAppend(init, [txs[|txs| - 1]]);
      assert init + [txs[|txs| - 1]] == txs;
    }
  }

  /** The total over the categories is the total over all transactions. */
  lemma TotalIsAllAmounts(txs: seq<Transaction>)
    ensures TotalAmount(txs) == Amounts(txs)
  {
    ItemsOfSums(txs);
  }

  /** There is one group per grouping key that occurs, and each group holds
      the sum of the amounts with its key. */
  lemma CategoryTotalsSpec(txs: seq<Transaction>)
    ensures Distinct(Keys(CategoryTotals(txs)))
    ensures forall i :: 0 <= i < |CategoryTotals(txs)| ==>
      CategoryTotals(txs)[i].total == KeyTotal(txs, CategoryTotals(txs)[i].key)
  {
    GroupSumsSpec(ItemsOf(txs));
    ItemsOfSums(txs);
  }

  /** A key has a group exactly when some transaction groups under it. */
  lemma CategoryKeyIff(txs: seq<Transaction>, k: string)
    ensures k in Keys(CategoryTotals(txs)) <==> exists i :: 0 <= i < |txs| && KeyOf(txs[i]) == k
  {
    var items := ItemsOf(txs);
    assert Keys(CategoryTotals(txs)) == FirstKeys(items);
    FirstKeysIn(items, k);
    if exists i :: 0 <= i < |txs| && KeyOf(txs[i]) == k {
      var i :| 0 <= i < |txs| && KeyOf(txs[i]) == k;
      assert items[i].key == k;
    }
    if k in Keys(CategoryTotals(txs)) {
      var i :| 0 <= i < |items| && items[i].key == k;
      assert KeyOf(txs[i]) == k;
    }
  }

  /** `categories.find((c) => c.id === id)`. */
  function Find(cs: seq<Category>, id: string): (r: Option<Category>)
    ensures r.Some? ==> exists i :: 0 <= i < |cs| && cs[i] == r.value && forall j :: 0 <= j < i ==> cs[j].id != id
    ensures r.Some? ==> r.value.id == id
    ensures r.None? <==> forall i :: 0 <= i < |cs| ==> cs[i].id != id
  {
    if cs == [] then None
    else if cs[0].id == id then Some(cs[0])
    else
      var r := Find(cs[1..], id);
      assert forall i :: 1 <= i < |cs| ==> cs[i] == cs[1..][i - 1];
      if r.Some? then
        var i :| 0 <= i < |cs[1..]| && cs[1..][i] == r.value && forall j :: 0 <= j < i ==> cs[1..][j].id != id;
        assert cs[i + 1] == r.value;
        assert forall j :: 1 <= j < i + 1 ==> cs[j].id != id;
        r
      else
        r
  }

  /** `category?.name || "Tanpa Kategori"`. */
  function NameFor(cs: seq<Category>, id: string): (name: string)
    ensures Find(cs, id).Some? && Find(cs, id).value.name != "" ==> name == Find(cs, id).value.name
    ensures (Find(cs, id).None? || Find(cs, id).value.name == "") ==> name == Unnamed
  {
    var c := Find(cs, id);
    if c.Some? && c.value.name != "" then c.value.name else Unnamed
  }

  /** Transactions without a category are shown as "Tanpa Kategori" unless a
      category happens to carry the id "uncategorized". */
  lemma UncategorizedIsUnnamed(cs: seq<Category>)
    requires forall i :: 0 <= i < |cs| ==> cs[i].id != Uncategorized
    ensures NameFor(cs, Uncategorized) == Unnamed
  {
  }

  const Colours: seq<string> := [
    "bg-blue-500", "bg-green-500", "bg-orange-500", "bg-purple-500",
    "bg-red-500", "bg-teal-500", "bg-pink-500", "bg-indigo-500"]

  /** `COLORS[index % COLORS.length]`. */
  function ColourAt(index: nat): (c: string)
    ensures c in Colours
    ensures c == Colours[index % 8]
  {
    Colours[index % |Colours|]
  }

  /** Colours repeat every eight categories. */
  lemma ColoursCycle(index: nat)
    ensures ColourAt(index + 8) == ColourAt(index)
  {
    assert (index + 8) % 8 == index % 8;
  }

  /** `totalAmount > 0 ? (amount / totalAmount) * 100 : 0`. */
  function PercentOf(amount: real, total: real): (p: real)
    ensures total > 0.0 ==> p * total == amount * 100.0
    ensures total <= 0.0 ==> p == 0.0
  {
    if total > 0.0 then (amount / total) * 100.0 else 0.0
  }

  /** One row of the breakdown. */
  datatype Entry = Entry(name: string, amount: real, percentage: real, color: string)

  /** The `map` over `Object.entries(categoryTotals)`, before the sort. */
  function Unsorted(cs: seq<Category>, gs: seq<Group<string>>, total: real): (r: seq<Entry>)
    ensures |r| == |gs|
    ensures forall i :: 0 <= i < |gs| ==>
      r[i] == Entry(NameFor(cs, gs[i].key), gs[i].total, PercentOf(gs[i].total, total), ColourAt(i))
  {
    seq(|gs|, i requires 0 <= i < |gs| =>
      Entry(NameFor(cs, gs[i].key), gs[i].total, PercentOf(gs[i].total, total), ColourAt(i)))
  }

  function SumAmounts(es: seq<Entry>): real {
    if es == [] then 0.0 else es[0].amount + SumAmounts(es[1..])
  }

  function SumPercentages(es: seq<Entry>): real {
    if es == [] then 0.0 else es[0].percentage + SumPercentages(es[1..])
  }

  /** Each percentage is its amount's share of the total. */
  predicate SharesOf(es: seq<Entry>, total: real) {
    forall i :: 0 <= i < |es| ==> es[i].percentage * total == es[i].amount * 100.0
  }

  /** Percentages that are shares of `total` add up to the amounts' share. */
  lemma {:induction false} SharesAddUp(es: seq<Entry>, total: real)
    requires total > 0.0
    requires SharesOf(es, total)
    ensures SumPercentages(es) * total == SumAmounts(es) * 100.0
  {
    if es != [] {
      assert SharesOf(es[1..], total) by {
        forall i | 0 <= i < |es[1..]|
          ensures es[1..][i].percentage * total == es[1..][i].amount * 100.0
        {
          assert es[1..][i] == es[i + 1];
        }
      }
      SharesAddUp(es[1..], total);
      assert SumPercentages(es) * total
        == es[0].percentage * total + SumPercentages(es[1..]) * total;
    }
  }

  lemma {:induction false} UnsortedSum(cs: seq<Category>, gs: seq<Group<string>>, total: real)
    ensures SumAmounts(Unsorted(cs, gs, total)) == SumGroups(gs)
  {
    if gs != [] {
      var r := Unsorted(cs, gs, total);
      var rest := Unsorted(cs, gs[1..], total);
      assert forall i :: 0 <= i < |rest| ==> r[1..][i].amount == rest[i].amount;
      UnsortedSumShift(r[1..], rest);
      UnsortedSum(cs, gs[1..], total);
    }
  }

  /** Lists with the same amounts position by position have the same sum. */
  lemma {:induction false} UnsortedSumShift(a: seq<Entry>, b: seq<Entry>)
    requires |a| == |b|
    requires forall i :: 0 <= i < |a| ==> a[i].amount == b[i].amount
    ensures SumAmounts(a) == SumAmounts(b)
  {
    if a != [] {
      UnsortedSumShift(a[1..], b[1..]);
    }
  }

  /** Neighbouring rows are in non-increasing order of amount. */
  predicate Descending(es: seq<Entry>) {
    forall i :: 0 <= i < |es| - 1 ==> es[i].amount >= es[i + 1].amount
  }

  /** Places one row into a list sorted by descending amount, before the
      first row whose amount it reaches (the sort is stable). */
  function Insert(e: Entry, s: seq<Entry>): (r: seq<Entry>)
    ensures |r| == |s| + 1
    ensures multiset(r) == multiset(s) + multiset{e}
    ensures r[0] == e || (s != [] && r[0] == s[0])
  {
    if s == [] then [e]
    else if s[0].amount <= e.amount then [e] + s
    else
      assert s == [s[0]] + s[1..];
      [s[0]] + Insert(e, s[1..])
  }

  /** Inserting into a descending list keeps it descending. */
  lemma {:induction false} InsertDescending(e: Entry, s: seq<Entry>)
    requires Descending(s)
    ensures Descending(Insert(e, s))
  {
    if s != [] && s[0].amount > e.amount {
      var rest := Insert(e, s[1..]);
      assert Descending(s[1..]) by {
        forall i | 0 <= i < |s[1..]| - 1
          ensures s[1..][i].amount >= s[1..][i + 1].amount
        {
          assert s[1..][i] == s[i + 1] && s[1..][i + 1] == s[i + 2];
        }
      }
      InsertDescending(e, s[1..]);
      var r := [s[0]] + rest;
      assert r == Insert(e, s);
      forall i | 0 <= i < |r| - 1
        ensures r[i].amount >= r[i + 1].amount
      {
        if i == 0 {
          assert r[1] == rest[0];
        } else {
          assert r[i] == rest[i - 1] && r[i + 1] == rest[i];
        }
      }
    }
  }

  /** Inserting a row adds its amount and its percentage to the sums. */
  lemma {:induction false} InsertSums(e: Entry, s: seq<Entry>)
    ensures SumAmounts(Insert(e, s)) == e.amount + SumAmounts(s)
    ensures SumPercentages(Insert(e, s)) == e.percentage + SumPercentages(s)
  {
    if s != [] && s[0].amount > e.amount {
      InsertSums(e, s[1..]);
      assert Insert(e, s)[1..] == Insert(e, s[1..]);
    }
  }

  /** `sort((a, b) => b.amount - a.amount)`, as an insertion sort. */
  function SortDescending(es: seq<Entry>): (r: seq<Entry>)
    ensures |r| == |es|
    ensures multiset(r) == multiset(es)
    ensures Descending(r)
    ensures SumAmounts(r) == SumAmounts(es)
    ensures SumPercentages(r) == SumPercentages(es)
  {
    if es == [] then []
    else
      assert es == [es[0]] + es[1..];
      InsertSums(es[0], SortDescending(es[1..]));
      InsertDescending(es[0], SortDescending(es[1..]));
      Insert(es[0], SortDescending(es[1..]))
  }

  /** `breakdown`. */
  function Breakdown(txs: seq<Transaction>, cs: seq<Category>): seq<Entry> {
    SortDescending(Unsorted(cs, CategoryTotals(txs), TotalAmount(txs)))
  }

  /** The rows are largest first, and are exactly the unsorted rows. */
  lemma BreakdownSorted(txs: seq<Transaction>, cs: seq<Category>)
    ensures Descending(Breakdown(txs, cs))
    ensures multiset(Breakdown(txs, cs)) == multiset(Unsorted(cs, CategoryTotals(txs), TotalAmount(txs)))
    ensures |Breakdown(txs, cs)| == |CategoryTotals(txs)|
  {
  }

  /** The rows' amounts add up to the total of all transactions. */
  lemma BreakdownConserves(txs: seq<Transaction>, cs: seq<Category>)
    ensures SumAmounts(Breakdown(txs, cs)) == Amounts(txs)
  {
    UnsortedSum(cs, CategoryTotals(txs), TotalAmount(txs));
    TotalIsAllAmounts(txs);
  }

  /** With a positive total, the percentages add up to 100. */
  lemma PercentagesSumTo100(txs: seq<Transaction>, cs: seq<Category>)
    requires TotalAmount(txs) > 0.0
    ensures SumPercentages(Breakdown(txs, cs)) == 100.0
  {
    var total := TotalAmount(txs);
    var gs := CategoryTotals(txs);
    var es := Unsorted(cs, gs, total);
    UnsortedSum(cs, gs, total);
    UnsortedShares(cs, gs, total);
    WholeShares(es, total);
  }

  /** Rows whose percentages are shares of their own positive sum have
      percentages adding up to 100. */
  lemma WholeShares(es: seq<Entry>, total: real)
    requires total > 0.0 && SharesOf(es, total) && SumAmounts(es) == total
    ensures SumPercentages(es) == 100.0
  {
    SharesAddUp(es, total);
    CancelPositive(SumPercentages(es), 100.0, total);
  }

  /** Every unsorted row's percentage is its share of a positive total. */
  lemma UnsortedShares(cs: seq<Category>, gs: seq<Group<string>>, total: real)
    requires total > 0.0
    ensures SharesOf(Unsorted(cs, gs, total), total)
  {
    var es := Unsorted(cs, gs, total);
    forall i | 0 <= i < |es|
      ensures es[i].percentage * total == es[i].amount * 100.0
    {
      assert es[i].percentage == PercentOf(gs[i].total, total);
    }
  }

  lemma CancelPositive(p: real, q: real, t: real)
    requires t > 0.0 && p * t == q * t
    ensures p == q
  {
  }

  /** `e` is the row of the `i`-th grouping key: its name, its total, its
      share of the overall total and the colour of its position. */
  predicate RowOf(txs: seq<Transaction>, cs: seq<Category>, i: int, e: Entry)
    requires 0 <= i < |CategoryTotals(txs)|
  {
    var k := CategoryTotals(txs)[i].key;
    && e == Entry(NameFor(cs, k), KeyTotal(txs, k), PercentOf(KeyTotal(txs, k), TotalAmount(txs)), ColourAt(i))
    && exists j :: 0 <= j < |txs| && KeyOf(txs[j]) == k
  }

  /** Each row names a category that occurs, carries that category's total
      and its share of the overall total, and the colour of the category's
      position before the sort. */
  lemma BreakdownRow(txs: seq<Transaction>, cs: seq<Category>, e: Entry)
    requires e in Breakdown(txs, cs)
    ensures exists i :: 0 <= i < |CategoryTotals(txs)| && RowOf(txs, cs, i, e)
  {
    var gs := CategoryTotals(txs);
    var es := Unsorted(cs, gs, TotalAmount(txs));
    assert e in multiset(Breakdown(txs, cs));
    assert e in multiset(es);
    var i :| 0 <= i < |es| && es[i] == e;
    CategoryTotalsSpec(txs);
    KeysIndex(gs, i);
    CategoryKeyIff(txs, gs[i].key);
    assert RowOf(txs, cs, i, e);
  }
}
