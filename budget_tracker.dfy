/** The numbers the budget tracker card derives from its budgets: each
    budget's status and clamped bar percentage, the overall totals and
    percentage, and the remaining-amount and status labels. A zero limit is
    divided by as JavaScript does it (see `JsNumbers`). */
module BudgetTracker {
  import opened Seqs
  import opened JsNumbers
  import opened MockData

  datatype Status = Good | Warning | Critical

  /** `(spent / limit) * 100`. */
  function Percentage(spent: real, limit: real): Ratio {
    Scale(Divide(spent, limit), 100.0)
  }

  /** `getStatus`: above 90% critical, above 70% warning, otherwise good. */
  function GetStatus(spent: real, limit: real): Status {
    var p := Percentage(spent, limit);
    if GreaterThan(p, 90.0) then Critical
    else if GreaterThan(p, 70.0) then Warning
    else Good
  }

  /** With a positive limit the thresholds are 90% and 70% of the limit,
      both exclusive: exactly 90% is a warning and exactly 70% is good. */
  lemma GetStatusPositiveLimit(spent: real, limit: real)
    requires limit > 0.0
    ensures GetStatus(spent, limit) == Critical <==> spent > 0.9 * limit
    ensures GetStatus(spent, limit) == Warning <==> 0.7 * limit < spent <= 0.9 * limit
    ensures GetStatus(spent, limit) == Good <==> spent <= 0.7 * limit
  {
    var q := spent / limit;
    assert Percentage(spent, limit) == Finite(q * 100.0);
    ShareAbove(spent, limit, 0.9);
    ShareAbove(spent, limit, 0.7);
  }

  /** For a positive limit, the spent share exceeds `k` exactly when the
      amount spent exceeds `k` times the limit. */
  lemma ShareAbove(spent: real, limit: real, k: real)
    requires limit > 0.0
    ensures spent / limit * 100.0 > k * 100.0 <==> spent > k * limit
  {
    var q := spent / limit;
    assert q * limit == spent;
    assert (q - k) * limit == spent - k * limit;
    if q > k {
      assert (q - k) * limit > 0.0;
    } else {
      assert (k - q) * limit >= 0.0;
    }
  }

  /** A zero limit is critical once anything is spent (Infinity), and good
      otherwise (NaN and -Infinity compare false). */
  lemma GetStatusZeroLimit(spent: real)
    ensures GetStatus(spent, 0.0) == Critical <==> spent > 0.0
    ensures GetStatus(spent, 0.0) != Warning
  {
  }

  /** `Math.min((spent / limit) * 100, 100)`: the width of a budget's bar. */
  function BarPercent(spent: real, limit: real): Ratio {
    Min(Percentage(spent, limit), 100.0)
  }

  /** The bar never exceeds 100%; with a positive limit it is the spent
      share, capped at 100. */
  lemma BarPercentBounded(spent: real, limit: real)
    ensures var p := BarPercent(spent, limit);
            && !p.PosInf?
            && (p.Finite? ==> p.value <= 100.0)
            && (limit > 0.0 ==> p.Finite? && p.value == if spent / limit * 100.0 < 100.0 then spent / limit * 100.0 else 100.0)
            && (limit == 0.0 ==> (p.Finite? <==> spent > 0.0))
  {
  }

  function Limit(b: Budget): real { b.limit }

  function Spent(b: Budget): real { b.spent }

  /** `totalBudget`. */
  function TotalBudget(budgets: seq<Budget>): real {
    SumBy(budgets, Limit)
  }

  /** `totalSpent`. */
  function TotalSpent(budgets: seq<Budget>): real {
    SumBy(budgets, Spent)
  }

  /** `totalPercentage`: the overall bar, capped at 100. */
  function TotalPercentage(budgets: seq<Budget>): Ratio {
    Min(Percentage(TotalSpent(budgets), TotalBudget(budgets)), 100.0)
  }

  /** When no budget is over its limit, the total spent is at most the total
      budget. */
  lemma {:induction false} TotalSpentWithinBudget(budgets: seq<Budget>)
    requires forall i :: 0 <= i < |budgets| ==> budgets[i].spent <= budgets[i].limit
    ensures TotalSpent(budgets) <= TotalBudget(budgets)
  {
    if budgets != [] {
      TotalSpentWithinBudget(budgets[..|budgets| - 1]);
    }
  }

  /** The overall bar is never above 100%; when the limits add up to a
      positive total and no budget is over its limit, it is the spent share
      itself, with no capping. */
  lemma TotalPercentageBounded(budgets: seq<Budget>)
    ensures var p := TotalPercentage(budgets); !p.PosInf? && (p.Finite? ==> p.value <= 100.0)
    ensures TotalBudget(budgets) > 0.0 && (forall i :: 0 <= i < |budgets| ==> budgets[i].spent <= budgets[i].limit) ==>
              TotalPercentage(budgets) == Finite(TotalSpent(budgets) / TotalBudget(budgets) * 100.0)
  {
    if TotalBudget(budgets) > 0.0 && (forall i :: 0 <= i < |budgets| ==> budgets[i].spent <= budgets[i].limit) {
      TotalSpentWithinBudget(budgets);
      var q := TotalSpent(budgets) / TotalBudget(budgets);
      assert q * TotalBudget(budgets) == TotalSpent(budgets);
      ShareAbove(TotalSpent(budgets), TotalBudget(budgets), 1.0);
    }
  }

  /** The remaining-amount label: how much is left, or by how much the
      budget is over. */
  datatype Remaining = Over(amount: real) | Left(amount: real)

  /** `remaining = limit - spent`, shown as `|remaining| over` when negative
      and `remaining left` otherwise. */
  function RemainingLabel(spent: real, limit: real): Remaining {
    var remaining := limit - spent;
    if remaining < 0.0 then Over(-remaining) else Left(remaining)
  }

  /** The label's amount is never negative, it reads "over" exactly when
      more than the limit is spent, and spent and limit can be read back from
      it. */
  lemma RemainingLabelCorrect(spent: real, limit: real)
    ensures var r := RemainingLabel(spent, limit);
            && r.amount >= 0.0
            && (r.Over? <==> spent > limit)
            && (r.Over? ==> limit + r.amount == spent)
            && (r.Left? ==> spent + r.amount == limit)
  {
  }

  /** The status badge text: "On Track" for good, the status name
      otherwise. */
  function StatusLabel(s: Status): string {
    match s
    case Good => "On Track"
    case Warning => "warning"
    case Critical => "critical"
  }

  /** The badge reads "On Track" exactly when the status is good, and the
      three badges differ. */
  lemma StatusLabelDistinct(s: Status, t: Status)
    ensures StatusLabel(s) == "On Track" <==> s == Good
    ensures StatusLabel(s) == StatusLabel(t) <==> s == t
  {
  }

  /** A negative limit, which nothing rejects, turns the percentage
      negative: a budget with nothing or something spent is over its limit
      and still shows as good. */
  lemma NegativeLimitShowsGood(spent: real, limit: real)
    requires limit < 0.0 && spent >= 0.0
    ensures spent > limit
    ensures GetStatus(spent, limit) == Good
  {
    var q := spent / limit;
    assert q * limit == spent;
    assert q * (-limit) == -spent;
    assert Percentage(spent, limit) == Finite(q * 100.0);
  }

  /** A budget that is over its (non-negative) limit shows as critical, and
      one near its limit in the insights' sense (above 85%) shows at least as
      a warning. */
  lemma OverBudgetIsCritical(spent: real, limit: real)
    requires limit >= 0.0
    ensures spent > limit ==> GetStatus(spent, limit) == Critical
    ensures limit * 0.85 < spent <= limit ==> GetStatus(spent, limit) != Good
  {
    if limit > 0.0 {
      GetStatusPositiveLimit(spent, limit);
    }
  }
}
