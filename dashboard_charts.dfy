/** The dashboard's two charts: income and expense for each of the last seven
    days, and the value held per kind of asset. */
module DashboardCharts {
  import opened Types
  import opened Seqs
  import opened Grouping

  /** The last seven days, oldest first, ending today. Days are counted as
      day numbers; turning one into its `YYYY-MM-DD` text is a calendar
      library call. */
  function Last7Days(today: int): (r: seq<int>)
    ensures |r| == 7
    ensures r[6] == today
    ensures forall i :: 0 <= i < 6 ==> r[i + 1] == r[i] + 1
  {
    seq(7, i requires 0 <= i < 7 => today - (6 - i))
  }

  /** Seven consecutive days are seven different days. */
  lemma Last7DaysDistinct(today: int)
    ensures forall i, j :: 0 <= i < j < 7 ==> Last7Days(today)[i] < Last7Days(today)[j]
  {
    var r := Last7Days(today);
    forall i, j | 0 <= i < j < 7
      ensures r[i] < r[j]
    {
      assert r[i] == today - (6 - i) && r[j] == today - (6 - j);
    }
  }

  /** `t.date === date`. */
  function OnDay(date: string): Transaction -> bool {
    (t: Transaction) => t.date == date
  }

  /** `t.type === kind`. */
  function OfKind(kind: TxType): Transaction -> bool {
    (t: Transaction) => t.kind == kind
  }

  /** The total of one direction on one day: the transactions dated that day,
      then those of that type, summed. */
  function DayTotal(txs: seq<Transaction>, date: string, kind: TxType): real {
    Amounts(Filter(Filter(txs, OnDay(date)), OfKind(kind)))
  }

  /** Summing the amounts that match a day and a type, transaction by
      transaction. */
  function MatchingSum(txs: seq<Transaction>, date: string, kind: TxType): real {
    if txs == [] then 0.0
    else
      var t := txs[0];
      (if t.date == date && t.kind == kind then t.amount else 0.0) + MatchingSum(txs[1..], date, kind)
  }

  /** The filter-then-sum of the chart is the sum of exactly the amounts
      dated that day with that type. */
  lemma {:induction false} DayTotalIsMatchingSum(txs: seq<Transaction>, date: string, kind: TxType)
    ensures DayTotal(txs, date, kind) == MatchingSum(txs, date, kind)
  {
    if txs != [] {
      DayTotalIsMatchingSum(txs[1..], date, kind);
      var onDay := Filter(txs[1..], OnDay(date));
      if txs[0].date == date {
        assert Filter(txs, OnDay(date)) == [txs[0]] + onDay;
        assert ([txs[0]] + onDay)[1..] == onDay;
        if txs[0].kind == kind {
          var f := Filter(onDay, OfKind(kind));
          assert ([txs[0]] + f)[1..] == f;
        }
      }
    }
  }

  /** Transactions dated on other days contribute nothing to a day's totals. */
  lemma OtherDaysContributeNothing(txs: seq<Transaction>, others: seq<Transaction>, date: string, kind: TxType)
    requires forall i :: 0 <= i < |others| ==> others[i].date != date
    ensures DayTotal(txs + others, date, kind) == DayTotal(txs, date, kind)
  {
    var onDay := OnDay(date);
    FilterAppend(txs, others, onDay);
    FilterNone(others, onDay);
    assert Filter(txs + others, onDay) == Filter(txs, onDay);
  }

  /** Every transaction of the day is either income or expense, so the two
      bars of a day add up to everything dated that day. */
  lemma {:induction false} DayBarsCoverTheDay(txs: seq<Transaction>, date: string)
    ensures DayTotal(txs, date, Income) + DayTotal(txs, date, Expense)
         == Amounts(Filter(txs, OnDay(date)))
  {
    var onDay := Filter(txs, OnDay(date));
    DayTotalIsMatchingSum(txs, date, Income);
    DayTotalIsMatchingSum(txs, date, Expense);
    MatchingSumsCover(txs, date);
  }

  lemma {:induction false} MatchingSumsCover(txs: seq<Transaction>, date: string)
    ensures MatchingSum(txs, date, Income) + MatchingSum(txs, date, Expense)
         == Amounts(Filter(txs, OnDay(date)))
  {
    if txs != [] {
      MatchingSumsCover(txs[1..], date);
      var rest := Filter(txs[1..], OnDay(date));
      if txs[0].date == date {
        assert ([txs[0]] + rest)[1..] == rest;
      }
    }
  }

  /** One bar group of the daily chart. */
  datatype DayPoint = DayPoint(date: string, income: real, expense: real)

  /** `dailyData`, given the seven days' `YYYY-MM-DD` texts. */
  function DailyData(txs: seq<Transaction>, dates: seq<string>): (r: seq<DayPoint>)
    ensures |r| == |dates|
    ensures forall i :: 0 <= i < |dates| ==>
      r[i].date == dates[i]
      && r[i].income == MatchingSum(txs, dates[i], Income)
      && r[i].expense == MatchingSum(txs, dates[i], Expense)
  {
    if dates == [] then []
    else
      DayTotalIsMatchingSum(txs, dates[0], Income);
      DayTotalIsMatchingSum(txs, dates[0], Expense);
      var rest := DailyData(txs, dates[1..]);
      var r := [DayPoint(dates[0], DayTotal(txs, dates[0], Income), DayTotal(txs, dates[0], Expense))] + rest;
      assert forall i :: 1 <= i < |dates| ==> r[i] == rest[i - 1] && dates[i] == dates[1..][i - 1];
      r
  }

  /** `ASSET_LABELS[type] || type`: the label of a kind, falling back to the
      stored name for the kinds the table lacks. */
  function Label(t: AssetType): string {
    match t
    case Cash => "Tunai"
    case Investment => "Investasi"
    case Crypto => "Crypto"
    case Property => "Properti"
    case Other => "Lainnya"
    case _ => AssetTypeName(t)
  }

  /** `ASSET_COLORS[type] || ASSET_COLORS.other`. */
  function Colour(t: AssetType): string {
    match t
    case Cash => "hsl(var(--chart-1))"
    case Investment => "hsl(var(--chart-2))"
    case Crypto => "hsl(var(--chart-3))"
    case Property => "hsl(var(--chart-4))"
    case _ => "hsl(var(--chart-5))"
  }

  /** Debts, receivables and spending accounts have no entry in either
      table: they are labelled with their stored name and drawn in the
      colour of "other". */
  lemma UnlistedKindsFallBack(t: AssetType)
    requires t == Debt || t == Receivable || t == SpendingAccount
    ensures Label(t) == AssetTypeName(t)
    ensures Colour(t) == Colour(Other)
  {
  }

  /** No two kinds share a label, so the pie's slices are told apart. */
  lemma LabelInjective(s: AssetType, t: AssetType)
    requires Label(s) == Label(t)
    ensures s == t
  {
  }

  /** Each holding's value, under its kind. The value is added as stored:
      a debt counts positively like any other holding. */
  function ItemsOf(assets: seq<Asset>): (r: seq<Item<AssetType>>)
    ensures |r| == |assets|
    ensures forall i :: 0 <= i < |assets| ==> r[i] == Item(assets[i].kind, assets[i].value)
  {
    seq(|assets|, i requires 0 <= i < |assets| => Item(assets[i].kind, assets[i].value))
  }

  /** Σ value over all holdings. */
  function TotalValue(assets: seq<Asset>): real {
    if assets == [] then 0.0 else TotalValue(assets[..|assets| - 1]) + assets[|assets| - 1].value
  }

  /** Σ value over the holdings of one kind. */
  function KindTotal(assets: seq<Asset>, t: AssetType): real {
    if assets == [] then 0.0
    else
      var last := assets[|assets| - 1];
      KindTotal(assets[..|assets| - 1], t) + (if last.kind == t then last.value else 0.0)
  }

  lemma {:induction false} ItemsOfSums(assets: seq<Asset>)
    ensures SumItems(ItemsOf(assets)) == TotalValue(assets)
    ensures forall t :: SumFor(ItemsOf(assets), t) == KindTotal(assets, t)
  {
    if assets != [] {
      var init := assets[..|assets| - 1];
      ItemsOfSums(init);
      assert ItemsOf(assets)[..|assets| - 1] == ItemsOf(init);
    }
  }

  /** One pie slice. */
  datatype Slice = Slice(name: string, value: real, color: string)

  function SlicesOf(gs: seq<Group<AssetType>>): (r: seq<Slice>)
    ensures |r| == |gs|
    ensures forall i :: 0 <= i < |gs| ==>
      r[i] == Slice(Label(gs[i].key), gs[i].total, Colour(gs[i].key))
  {
    seq(|gs|, i requires 0 <= i < |gs| => Slice(Label(gs[i].key), gs[i].total, Colour(gs[i].key)))
  }

  /** The accumulator of `assetsByType`: one group per kind, in order of
      first appearance. */
  function KindGroups(assets: seq<Asset>): seq<Group<AssetType>> {
    GroupSums(ItemsOf(assets))
  }

  /** `assetsByType`: the per-kind subtotals, labelled and coloured. */
  function AssetsByType(assets: seq<Asset>): seq<Slice> {
    SlicesOf(KindGroups(assets))
  }

  function SumSlices(ss: seq<Slice>): real {
    if ss == [] then 0.0 else ss[0].value + SumSlices(ss[1..])
  }

  lemma {:induction false} SumSlicesOf(gs: seq<Group<AssetType>>)
    ensures SumSlices(SlicesOf(gs)) == SumGroups(gs)
  {
    if gs != [] {
      SumSlicesOf(gs[1..]);
      assert SlicesOf(gs)[1..] == SlicesOf(gs[1..]);
    }
  }

  /** Each kind has at most one group, and a group's total is the sum of the
      values of the holdings of its kind. */
  lemma KindGroupsSpec(assets: seq<Asset>)
    ensures Distinct(Keys(KindGroups(assets)))
    ensures forall i :: 0 <= i < |KindGroups(assets)| ==>
      KindGroups(assets)[i].total == KindTotal(assets, KindGroups(assets)[i].key)
  {
    GroupSumsSpec(ItemsOf(assets));
    ItemsOfSums(assets);
  }

  /** A kind has a group exactly when some holding is of that kind. */
  lemma KindGroupIff(assets: seq<Asset>, t: AssetType)
    ensures t in Keys(KindGroups(assets)) <==> exists j :: 0 <= j < |assets| && assets[j].kind == t
  {
    var items := ItemsOf(assets);
    assert Keys(KindGroups(assets)) == FirstKeys(items);
    FirstKeysIn(items, t);
    if exists j :: 0 <= j < |assets| && assets[j].kind == t {
      var j :| 0 <= j < |assets| && assets[j].kind == t;
      assert items[j].key == t;
    }
    if t in Keys(KindGroups(assets)) {
      var j :| 0 <= j < |items| && items[j].key == t;
      assert assets[j].kind == t;
    }
  }

  /** The slice at each position is the labelled, coloured subtotal of one
      kind the user holds. */
  lemma SliceAt(assets: seq<Asset>, i: int)
    requires 0 <= i < |AssetsByType(assets)|
    ensures var t := KindGroups(assets)[i].key;
      AssetsByType(assets)[i] == Slice(Label(t), KindTotal(assets, t), Colour(t))
      && exists j :: 0 <= j < |assets| && assets[j].kind == t
  {
    var gs := KindGroups(assets);
    KindGroupsSpec(assets);
    KeysIndex(gs, i);
    KindGroupIff(assets, gs[i].key);
  }

  /** No two slices carry the same label. */
  lemma SliceNamesDistinct(assets: seq<Asset>)
    ensures forall i, j :: 0 <= i < j < |AssetsByType(assets)| ==>
      AssetsByType(assets)[i].name != AssetsByType(assets)[j].name
  {
    var gs := KindGroups(assets);
    var r := AssetsByType(assets);
    KindGroupsSpec(assets);
    forall i, j | 0 <= i < j < |r|
      ensures r[i].name != r[j].name
    {
      KeysIndex(gs, i);
      KeysIndex(gs, j);
      if r[i].name == r[j].name {
        LabelInjective(gs[i].key, gs[j].key);
      }
    }
  }

  /** The pie has a slice labelled for a kind exactly when the user holds
      something of that kind. */
  lemma SliceForEachKindHeld(assets: seq<Asset>, t: AssetType)
    ensures (exists i :: 0 <= i < |AssetsByType(assets)| && AssetsByType(assets)[i].name == Label(t))
      <==> exists j :: 0 <= j < |assets| && assets[j].kind == t
  {
    var gs := KindGroups(assets);
    var r := AssetsByType(assets);
    KindGroupIff(assets, t);
    if exists i :: 0 <= i < |r| && r[i].name == Label(t) {
      var i :| 0 <= i < |r| && r[i].name == Label(t);
      LabelInjective(gs[i].key, t);
      KeysIndex(gs, i);
    }
    if t in Keys(gs) {
      var i :| 0 <= i < |gs| && Keys(gs)[i] == t;
      KeysIndex(gs, i);
      assert r[i].name == Label(t);
    }
  }

  /** The slices together add up to the total value of all holdings. */
  lemma SlicesSumToTotal(assets: seq<Asset>)
    ensures SumSlices(AssetsByType(assets)) == TotalValue(assets)
  {
    SumSlicesOf(KindGroups(assets));
    ItemsOfSums(assets);
  }
}
