/** The budget page's summary: total budgeted and spent this month, the
    overall and per-budget percentage used, the capped progress bars and the
    "over by" / "left" messages. */
module BudgetList {
  import opened Common

  /** A budget with the amount already spent against it this month. */
  datatype Budget = Budget(id: string, name: string, amount: real, spent: real)

  /** Σ amount over the budgets. */
  function TotalBudget(bs: seq<Budget>): real {
    if bs == [] then 0.0 else TotalBudget(bs[..|bs| - 1]) + bs[|bs| - 1].amount
  }

  /** Σ spent over the budgets. */
  function TotalSpent(bs: seq<Budget>): real {
    if bs == [] then 0.0 else TotalSpent(bs[..|bs| - 1]) + bs[|bs| - 1].spent
  }

  /** Totals over two lists of budgets add up. */
  lemma {:induction false} TotalsAppend(a: seq<Budget>, b: seq<Budget>)
    ensures TotalBudget(a + b) == TotalBudget(a) + TotalBudget(b)
    ensures TotalSpent(a + b) == TotalSpent(a) + TotalSpent(b)
  {
    if b == [] {
      assert a + b == a;
    } else {
      assert (a + b)[..|a + b| - 1] == a + b[..|b| - 1];
      assert (a + b)[|a + b| - 1] == b[|b| - 1];
      TotalsAppend(a, b[..|b| - 1]);
    }
  }

  /** Spent as a percentage of budgeted, over all budgets; 0 when nothing
      positive is budgeted. */
  function OverallPercentage(bs: seq<Budget>): (r: real)
    ensures TotalBudget(bs) > 0.0 ==> r * TotalBudget(bs) == TotalSpent(bs) * 100.0
    ensures TotalBudget(bs) <= 0.0 ==> r == 0.0
  {
    var total := TotalBudget(bs);
    if total > 0.0 then (TotalSpent(bs) / total) * 100.0 else 0.0
  }

  /** Spent as a percentage of one budget; 0 for a budget of 0 or less. */
  function Percentage(b: Budget): (r: real)
    ensures b.amount > 0.0 ==> r * b.amount == b.spent * 100.0
    ensures b.amount <= 0.0 ==> r == 0.0
  {
    if b.amount > 0.0 then (b.spent / b.amount) * 100.0 else 0.0
  }

  predicate IsOverBudget(b: Budget) {
    Percentage(b) > 100.0
  }

  /** A budget is over exactly when more than its (positive) amount has been
      spent; a budget of 0 or less is never over. */
  lemma OverBudgetIff(b: Budget)
    ensures IsOverBudget(b) <==> b.amount > 0.0 && b.spent > b.amount
  {
    if b.amount > 0.0 {
      var p := Percentage(b);
      assert p * b.amount == b.spent * 100.0;
      if p > 100.0 {
        assert p * b.amount > 100.0 * b.amount;
      }
      if b.spent > b.amount {
        assert p * b.amount > 100.0 * b.amount;
      }
    }
  }

  /** The width of a progress bar: the percentage, capped at 100. */
  function Progress(percentage: real): (r: real)
    ensures r <= 100.0
    ensures percentage <= 100.0 ==> r == percentage
    ensures percentage >= 100.0 ==> r == 100.0
  {
    Min(percentage, 100.0)
  }

  /** The line under a budget's bar. */
  datatype BudgetMessage = Exceeded(excess: real) | Left(remaining: real)

  /** "Melebihi budget" (over by) when over budget, "Sisa" (left) otherwise.
      The amount over is always positive, and what is left never negative
      for a positive budget. */
  function Message(b: Budget): (m: BudgetMessage)
    ensures m.Exceeded? <==> IsOverBudget(b)
    ensures m.Exceeded? ==> m.excess > 0.0 && m.excess == b.spent - b.amount
    ensures m.Left? ==> m.remaining == b.amount - b.spent
    ensures m.Left? && b.amount > 0.0 ==> m.remaining >= 0.0
  {
    OverBudgetIff(b);
    if IsOverBudget(b) then Exceeded(b.spent - b.amount) else Left(b.amount - b.spent)
  }

  /** "Sisa Budget": what is left over all budgets. */
  function RemainingTotal(bs: seq<Budget>): real {
    TotalBudget(bs) - TotalSpent(bs)
  }

  /** The remaining total is shown in green exactly when it is not negative. */
  predicate RemainingIsGreen(bs: seq<Budget>) {
    RemainingTotal(bs) >= 0.0
  }

  /** With a positive total budget, the remaining total is green exactly when
      the overall bar is not over 100%. */
  lemma GreenIffWithinBudget(bs: seq<Budget>)
    requires TotalBudget(bs) > 0.0
    ensures RemainingIsGreen(bs) <==> OverallPercentage(bs) <= 100.0
  {
    var t := TotalBudget(bs);
    var p := OverallPercentage(bs);
    assert p * t == TotalSpent(bs) * 100.0;
    if p <= 100.0 {
      assert p * t <= 100.0 * t;
    } else {
      assert p * t > 100.0 * t;
    }
  }

  /** If no budget is overspent, neither is the total. */
  lemma {:induction false} NoneOverMeansTotalWithin(bs: seq<Budget>)
    requires forall i :: 0 <= i < |bs| ==> bs[i].spent <= bs[i].amount
    ensures TotalSpent(bs) <= TotalBudget(bs)
    ensures TotalBudget(bs) > 0.0 ==> OverallPercentage(bs) <= 100.0
  {
    if bs != [] {
      NoneOverMeansTotalWithin(bs[..|bs| - 1]);
    }
    if TotalBudget(bs) > 0.0 {
      GreenIffWithinBudget(bs);
    }
  }
}
