/** The report's monthly trend: transactions bucketed by `YYYY-MM`, with
    income and expense per month, ordered by month, and the month's balance. */
module MonthlyChart {
  import opened Types

  /** `date.substring(0, 7)`: the `YYYY-MM` part of an ISO date, or the whole
      text when it is shorter. */
  function MonthKey(date: string): (m: string)
    ensures |date| >= 7 ==> |m| == 7 && m == date[..7]
    ensures |date| < 7 ==> m == date
  {
    if |date| >= 7 then date[..7] else date
  }

  /** One entry of `monthlyData`. */
  datatype Bucket = Bucket(month: string, income: real, expense: real)

  /** `type === "income"` adds to income; every other type adds to expense. */
  function Add(b: Bucket, t: Transaction): (r: Bucket)
    ensures r.month == b.month
    ensures r.income + r.expense == b.income + b.expense + t.amount
  {
    if t.kind == Income then b.(income := b.income + t.amount)
    else b.(expense := b.expense + t.amount)
  }

  predicate HasMonth(bs: seq<Bucket>, m: string) {
    exists i :: 0 <= i < |bs| && bs[i].month == m
  }

  predicate DistinctMonths(bs: seq<Bucket>) {
    forall i, j :: 0 <= i < j < |bs| ==> bs[i].month != bs[j].month
  }

  /** `acc[month]`: the bucket of a month (its first, for distinct months its
      only one), or an empty bucket. */
  function BucketOf(bs: seq<Bucket>, m: string): Bucket {
    if bs == [] then Bucket(m, 0.0, 0.0)
    else if bs[0].month == m then bs[0]
    else BucketOf(bs[1..], m)
  }

  /** Σ (income + expense) over the buckets. */
  function SumBuckets(bs: seq<Bucket>): real {
    if bs == [] then 0.0 else bs[0].income + bs[0].expense + SumBuckets(bs[1..])
  }

  /** One step of the `reduce`: create the month's bucket if missing, then add
      the transaction to it. */
  function AddTo(bs: seq<Bucket>, t: Transaction): (r: seq<Bucket>)
    ensures forall m :: HasMonth(r, m) <==> HasMonth(bs, m) || m == MonthKey(t.date)
    ensures BucketOf(r, MonthKey(t.date)) == Add(BucketOf(bs, MonthKey(t.date)), t)
    ensures forall m :: m != MonthKey(t.date) ==> BucketOf(r, m) == BucketOf(bs, m)
    ensures SumBuckets(r) == SumBuckets(bs) + t.amount
  {
    var m := MonthKey(t.date);
    if bs == [] then
      var r := [Add(Bucket(m, 0.0, 0.0), t)];
      assert r[0].month == m;
      r
    else if bs[0].month == m then
      var r := [Add(bs[0], t)] + bs[1..];
      assert r[1..] == bs[1..];
      assert forall i :: 1 <= i < |r| ==> r[i] == bs[i];
      HasMonthCons(r);
      HasMonthCons(bs);
      r
    else
      var rest := AddTo(bs[1..], t);
      var r := [bs[0]] + rest;
      assert r[1..] == rest;
      assert forall i :: 1 <= i < |r| ==> r[i] == rest[i - 1];
      assert forall i :: 1 <= i < |bs| ==> bs[i] == bs[1..][i - 1];
      HasMonthCons(r);
      HasMonthCons(bs);
      r
  }

  /** A month is in a non-empty list when it is the first bucket's or is in
      the rest. */
  lemma HasMonthCons(bs: seq<Bucket>)
    requires bs != []
    ensures forall m :: HasMonth(bs, m) <==> m == bs[0].month || HasMonth(bs[1..], m)
  {
    forall m | HasMonth(bs[1..], m)
      ensures HasMonth(bs, m)
    {
      var i :| 0 <= i < |bs[1..]| && bs[1..][i].month == m;
      assert bs[i + 1].month == m;
    }
    forall m | HasMonth(bs, m)
      ensures m == bs[0].month || HasMonth(bs[1..], m)
    {
      var i :| 0 <= i < |bs| && bs[i].month == m;
      if i > 0 {
        assert bs[1..][i - 1].month == m;
      }
    }
  }

  /** Adding to the buckets never creates a second bucket for a month. */
  lemma {:induction false} AddToDistinct(bs: seq<Bucket>, t: Transaction)
    requires DistinctMonths(bs)
    ensures DistinctMonths(AddTo(bs, t))
  {
    if bs != [] && bs[0].month != MonthKey(t.date) {
      var tail := bs[1..];
      assert DistinctMonths(tail) by {
        forall i, j | 0 <= i < j < |tail|
          ensures tail[i].month != tail[j].month
        {
          assert tail[i] == bs[i + 1] && tail[j] == bs[j + 1];
        }
      }
      AddToDistinct(tail, t);
      var rest := AddTo(tail, t);
      var r := AddTo(bs, t);
      assert r == [bs[0]] + rest;
      assert !HasMonth(tail, bs[0].month);
      forall i, j | 0 <= i < j < |r|
        ensures r[i].month != r[j].month
      {
        if i == 0 {
          assert r[j] == rest[j - 1];
        } else {
          assert r[i] == rest[i - 1] && r[j] == rest[j - 1];
        }
      }
    } else if bs != [] {
      var r := AddTo(bs, t);
      forall i, j | 0 <= i < j < |r|
        ensures r[i].month != r[j].month
      {
        assert r[j] == bs[j];
        if i > 0 {
          assert r[i] == bs[i];
        }
      }
    }
  }

  /** `monthlyData`: the `reduce` over the transactions in order. */
  function MonthlyData(txs: seq<Transaction>): (r: seq<Bucket>)
    ensures DistinctMonths(r)
    ensures SumBuckets(r) == Amounts(txs)
    ensures forall m :: BucketOf(r, m) == Bucket(m, MonthIncome(txs, m), MonthExpense(txs, m))
  {
    if txs == [] then []
    else
      var init := txs[..|txs| - 1];
      AmountsAppend(init, [txs[|txs| - 1]]);
      assert init + [txs[|txs| - 1]] == txs;
      AddToDistinct(MonthlyData(init), txs[|txs| - 1]);
      AddTo(MonthlyData(init), txs[|txs| - 1])
  }

  /** Σ income amounts of the transactions dated in month `m`. */
  function MonthIncome(txs: seq<Transaction>, m: string): real {
    if txs == [] then 0.0
    else
      var t := txs[|txs| - 1];
      MonthIncome(txs[..|txs| - 1], m)
        + (if MonthKey(t.date) == m && t.kind == Income then t.amount else 0.0)
  }

  /** Σ amounts of the other transactions dated in month `m`. */
  function MonthExpense(txs: seq<Transaction>, m: string): real {
    if txs == [] then 0.0
    else
      var t := txs[|txs| - 1];
      MonthExpense(txs[..|txs| - 1], m)
        + (if MonthKey(t.date) == m && t.kind != Income then t.amount else 0.0)
  }

  /** A month has a bucket exactly when some transaction is dated in it. */
  lemma {:induction false} MonthlyDataMonths(txs: seq<Transaction>, m: string)
    ensures HasMonth(MonthlyData(txs), m) <==> exists i :: 0 <= i < |txs| && MonthKey(txs[i].date) == m
  {
    if txs != [] {
      var init := txs[..|txs| - 1];
      MonthlyDataMonths(init, m);
      if exists i :: 0 <= i < |txs| && MonthKey(txs[i].date) == m {
        var i :| 0 <= i < |txs| && MonthKey(txs[i].date) == m;
        if i < |txs| - 1 {
          assert MonthKey(init[i].date) == m;
        }
      }
      if HasMonth(MonthlyData(init), m) {
        var i :| 0 <= i < |init| && MonthKey(init[i].date) == m;
        assert MonthKey(txs[i].date) == m;
      }
    }
  }

  /** With distinct months, a bucket is the one `BucketOf` finds. */
  lemma {:induction false} BucketOfDistinct(bs: seq<Bucket>, i: int)
    requires DistinctMonths(bs)
    requires 0 <= i < |bs|
    ensures BucketOf(bs, bs[i].month) == bs[i]
  {
    if i > 0 {
      assert bs[0].month != bs[i].month;
      assert bs[1..][i - 1] == bs[i];
      BucketOfDistinct(bs[1..], i - 1);
    }
  }

  /** `a.localeCompare(b) < 0`, as code-unit order. */
  predicate StrLess(a: string, b: string) {
    if a == [] then b != []
    else if b == [] then false
    else a[0] < b[0] || (a[0] == b[0] && StrLess(a[1..], b[1..]))
  }

  lemma {:induction false} StrLessIrreflexive(a: string)
    ensures !StrLess(a, a)
  {
    if a != [] {
      StrLessIrreflexive(a[1..]);
    }
  }

  lemma {:induction false} StrLessTransitive(a: string, b: string, c: string)
    requires StrLess(a, b) && StrLess(b, c)
    ensures StrLess(a, c)
  {
    if a != [] && a[0] == b[0] && b[0] == c[0] {
      StrLessTransitive(a[1..], b[1..], c[1..]);
    }
  }

  /** Two different strings are ordered one way or the other. */
  lemma {:induction false} StrLessTotal(a: string, b: string)
    requires a != b
    ensures StrLess(a, b) || StrLess(b, a)
  {
    if a != [] && b != [] && a[0] == b[0] {
      assert a == [a[0]] + a[1..] && b == [b[0]] + b[1..];
      StrLessTotal(a[1..], b[1..]);
    }
  }

  predicate StrLeq(a: string, b: string) {
    a == b || StrLess(a, b)
  }

  /** Neighbouring buckets are in month order. */
  predicate SortedByMonth(bs: seq<Bucket>) {
    forall i :: 0 <= i < |bs| - 1 ==> StrLeq(bs[i].month, bs[i + 1].month)
  }

  /** Places one bucket into a list sorted by month. */
  function Insert(b: Bucket, s: seq<Bucket>): (r: seq<Bucket>)
    ensures |r| == |s| + 1
    ensures multiset(r) == multiset(s) + multiset{b}
    ensures r[0] == b || (s != [] && r[0] == s[0])
    ensures SortedByMonth(s) ==> SortedByMonth(r)
  {
    if s == [] then [b]
    else if StrLeq(b.month, s[0].month) then
      assert ([b] + s)[1..] == s;
      [b] + s
    else
      StrLessTotal(b.month, s[0].month);
      var rest := Insert(b, s[1..]);
      assert s == [s[0]] + s[1..];
      assert ([s[0]] + rest)[1..] == rest;
      [s[0]] + rest
  }

  /** `sort(([a], [b]) => a.localeCompare(b))`, as an insertion sort. */
  function SortByMonth(bs: seq<Bucket>): (r: seq<Bucket>)
    ensures |r| == |bs|
    ensures multiset(r) == multiset(bs)
    ensures SortedByMonth(r)
  {
    if bs == [] then []
    else
      assert bs == [bs[0]] + bs[1..];
      Insert(bs[0], SortByMonth(bs[1..]))
  }

  /** Sorting keeps the months distinct, so the sorted months strictly
      ascend. */
  lemma SortedDistinctAscends(bs: seq<Bucket>)
    requires DistinctMonths(bs)
    ensures forall i :: 0 <= i < |SortByMonth(bs)| - 1 ==>
      StrLess(SortByMonth(bs)[i].month, SortByMonth(bs)[i + 1].month)
  {
    var r := SortByMonth(bs);
    forall i | 0 <= i < |r| - 1
      ensures StrLess(r[i].month, r[i + 1].month)
    {
      if r[i].month == r[i + 1].month {
        PermutationKeepsDistinct(bs, r, i, i + 1);
      }
    }
  }

  /** A permutation of buckets with distinct months has distinct months. */
  lemma PermutationKeepsDistinct(bs: seq<Bucket>, r: seq<Bucket>, i: int, j: int)
    requires DistinctMonths(bs)
    requires multiset(r) == multiset(bs)
    requires 0 <= i < j < |r|
    ensures r[i].month != r[j].month
  {
    if r[i].month == r[j].month {
      assert r[i] in multiset(bs) && r[j] in multiset(bs);
      var x :| 0 <= x < |bs| && bs[x] == r[i];
      var y :| 0 <= y < |bs| && bs[y] == r[j];
      if r[i] == r[j] {
        TwiceInSeq(r, i, j);
        OnceInDistinct(bs, x);
      }
    }
  }

  /** A value at two positions of a sequence occurs at least twice in it. */
  lemma TwiceInSeq(r: seq<Bucket>, i: int, j: int)
    requires 0 <= i < j < |r| && r[i] == r[j]
    ensures multiset(r)[r[i]] >= 2
  {
    assert r == r[..i] + [r[i]] + r[i + 1..j] + [r[j]] + r[j + 1..];
  }

  /** In a list with distinct months, each bucket occurs once. */
  lemma {:induction false} OnceInDistinct(bs: seq<Bucket>, x: int)
    requires DistinctMonths(bs)
    requires 0 <= x < |bs|
    ensures multiset(bs)[bs[x]] == 1
  {
    assert bs == bs[..x] + [bs[x]] + bs[x + 1..];
    assert bs[x] !in bs[..x];
    assert bs[x] !in bs[x + 1..];
  }

  /** One point of the area chart. */
  datatype ChartPoint = ChartPoint(month: string, income: real, expense: real, balance: real)

  function PointOf(b: Bucket): (p: ChartPoint)
    ensures p.month == b.month && p.income == b.income && p.expense == b.expense
    ensures p.balance == p.income - p.expense
  {
    ChartPoint(b.month, b.income, b.expense, b.income - b.expense)
  }

  /** `chartData`: the buckets in month order, each with its balance. */
  function ChartData(txs: seq<Transaction>): (r: seq<ChartPoint>)
    ensures |r| == |MonthlyData(txs)|
  {
    var sorted := SortByMonth(MonthlyData(txs));
    seq(|sorted|, i requires 0 <= i < |sorted| => PointOf(sorted[i]))
  }

  /** Each point of the chart is one month that has transactions, with the
      month's income and expense totals and their difference, and the months
      strictly ascend. */
  lemma ChartDataSpec(txs: seq<Transaction>)
    ensures forall i :: 0 <= i < |ChartData(txs)| ==>
      var p := ChartData(txs)[i];
      p.income == MonthIncome(txs, p.month) && p.expense == MonthExpense(txs, p.month)
      && p.balance == p.income - p.expense
    ensures forall i :: 0 <= i < |ChartData(txs)| - 1 ==>
      StrLess(ChartData(txs)[i].month, ChartData(txs)[i + 1].month)
  {
    var data := MonthlyData(txs);
    var sorted := SortByMonth(data);
    var r := ChartData(txs);
    SortedDistinctAscends(data);
    forall i | 0 <= i < |r|
      ensures r[i].income == MonthIncome(txs, r[i].month) && r[i].expense == MonthExpense(txs, r[i].month)
    {
      assert sorted[i] in multiset(data);
      var k :| 0 <= k < |data| && data[k] == sorted[i];
      BucketOfDistinct(data, k);
    }
  }

  /** A month appears on the chart exactly when some transaction is dated in
      it. */
  lemma ChartMonths(txs: seq<Transaction>, m: string)
    ensures (exists i :: 0 <= i < |ChartData(txs)| && ChartData(txs)[i].month == m)
      <==> exists j :: 0 <= j < |txs| && MonthKey(txs[j].date) == m
  {
    var data := MonthlyData(txs);
    var sorted := SortByMonth(data);
    var r := ChartData(txs);
    MonthlyDataMonths(txs, m);
    if exists i :: 0 <= i < |r| && r[i].month == m {
      var i :| 0 <= i < |r| && r[i].month == m;
      assert sorted[i] in multiset(data);
      var k :| 0 <= k < |data| && data[k] == sorted[i];
      assert HasMonth(data, m);
    }
    if HasMonth(data, m) {
      var k :| 0 <= k < |data| && data[k].month == m;
      assert data[k] in multiset(sorted);
      var i :| 0 <= i < |sorted| && sorted[i] == data[k];
      assert r[i].month == m;
    }
  }

  /** The chart is empty exactly when there are no transactions, which is when
      the empty-state text is shown. */
  lemma ChartEmptyIff(txs: seq<Transaction>)
    ensures |ChartData(txs)| == 0 <==> txs == []
  {
    if txs != [] {
      var last := txs[|txs| - 1];
      MonthlyDataMonths(txs, MonthKey(last.date));
      assert MonthKey(txs[|txs| - 1].date) == MonthKey(last.date);
    }
  }
}
