/** The bodies of the assistant's tools over the finance data: the budget
    status, the income/expense summary, the spending insights and the
    exact-match budget limit update. Currency formatting inside the insight
    texts is not modelled; each insight carries the numbers it shows. */
module TamboTools {
  import opened Seqs
  import opened JsNumbers
  import opened MockData
  import BudgetStore

  /** `getBudgetStatusHelper`: the data module's budgets with `spent` filled
      in from the current spending breakdown. */
  method GetBudgetStatus(data: FinanceData) returns (status: seq<Budget>)
    ensures status == WithSpending(Values(data.budgets), SpendingByCategory(data.transactions))
  {
    var spending := GetSpendingByCategory(data.transactions);
    status := WithSpending(Values(data.budgets), spending);
  }

  datatype Summary = Summary(income: real, expenses: real, netSavings: real)

  /** `getFinancialSummaryHelper`, without `savingsRate`. */
  function FinancialSummary(txs: seq<Transaction>): Summary {
    var income := TotalIncome(txs);
    var expenses := TotalExpenses(txs);
    Summary(income, expenses, income - expenses)
  }

  /** A transaction's effect on the balance. */
  function Signed(t: Transaction): real {
    if t.kind == Income then t.amount else -t.amount
  }

  /** Net savings are the balance of all transactions: income counted up,
      expenses counted down. */
  lemma {:induction false} NetSavingsIsBalance(txs: seq<Transaction>)
    ensures FinancialSummary(txs).netSavings == SumBy(txs, Signed)
    ensures FinancialSummary(txs).income - FinancialSummary(txs).expenses == FinancialSummary(txs).netSavings
  {
    if txs != [] {
      var init, last := txs[..|txs| - 1], txs[|txs| - 1];
      assert txs == init + [last];
      NetSavingsIsBalance(init);
      NetSavingsSnoc(init, last);
      SumBySnoc(init, last, Signed);
    }
  }

  /** One more transaction moves net savings by its signed amount. */
  lemma NetSavingsSnoc(txs: seq<Transaction>, t: Transaction)
    ensures FinancialSummary(txs + [t]).netSavings == FinancialSummary(txs).netSavings + Signed(t)
  {
    FilterSnoc(txs, t, IsIncome);
    FilterSnoc(txs, t, IsExpense);
    if t.kind == Income {
      assert Filter(txs + [t], IsExpense) == Filter(txs, IsExpense);
      SumBySnoc(Filter(txs, IsIncome), t, Amount);
    } else {
      assert Filter(txs + [t], IsIncome) == Filter(txs, IsIncome);
      SumBySnoc(Filter(txs, IsExpense), t, Amount);
    }
  }

  // ---------------------------------------------------------------------
  // Spending insights

  datatype InsightType = Warning | Success

  /** One insight card: what it is about and the numbers it shows. */
  datatype Insight =
    | OverBudget(category: string, over: real)
    | NearLimit(category: string, percent: Ratio, left: real)
    | NetPositive(saved: real)

  function Title(i: Insight): string {
    match i
    case OverBudget(c, _) => "Over Budget: " + c
    case NearLimit(c, _, _) => "Near Limit: " + c
    case NetPositive(_) => "Net Positive"
  }

  function TypeOf(i: Insight): InsightType {
    if i.NetPositive? then Success else Warning
  }

  /** `b.spent > b.limit`. */
  predicate IsOver(b: Budget) {
    b.spent > b.limit
  }

  /** `b.spent <= b.limit && b.spent > b.limit * 0.85`. */
  predicate IsNear(b: Budget) {
    b.spent <= b.limit && b.spent > b.limit * 0.85
  }

  /** Over budget or near the limit: past 85% of the limit. */
  predicate AtRisk(b: Budget) {
    b.spent > b.limit * 0.85
  }

  function OverInsight(w: Budget): Insight {
    OverBudget(w.category, w.spent - w.limit)
  }

  function NearInsight(w: Budget): Insight {
    NearLimit(w.category, Scale(Divide(w.spent, w.limit), 100.0), w.limit - w.spent)
  }

  function OverInsights(ws: seq<Budget>): (r: seq<Insight>)
    ensures |r| == |ws|
  {
    seq(|ws|, i requires 0 <= i < |ws| => OverInsight(ws[i]))
  }

  function NearInsights(ws: seq<Budget>): (r: seq<Insight>)
    ensures |r| == |ws|
  {
    seq(|ws|, i requires 0 <= i < |ws| => NearInsight(ws[i]))
  }

  /** The insights for a budget status and a summary: every over-budget
      warning, then every near-limit warning, then "Net Positive" when income
      exceeds expenses. */
  function SpendingInsights(status: seq<Budget>, summary: Summary): seq<Insight> {
    OverInsights(Filter(status, IsOver)) + NearInsights(Filter(status, IsNear))
    + (if summary.income > summary.expenses then [NetPositive(summary.income - summary.expenses)] else [])
  }

  /** The `generate_spending_insights` tool: the budget status and the
      summary, then the insights built from them. */
  method GenerateSpendingInsights(data: FinanceData) returns (insights: seq<Insight>)
    ensures insights == SpendingInsights(WithSpending(Values(data.budgets), SpendingByCategory(data.transactions)),
                                         FinancialSummary(data.transactions))
  {
    var status := GetBudgetStatus(data);
    var summary := FinancialSummary(data.transactions);
    insights := CollectInsights(status, summary);
  }

  /** The tool's body past the two helper calls: a loop over the over-budget
      warnings, a loop over the near-limit ones, then the success insight. */
  method CollectInsights(status: seq<Budget>, summary: Summary) returns (insights: seq<Insight>)
    ensures insights == SpendingInsights(status, summary)
  {
    insights := [];
    var warnings := Filter(status, IsOver);
    for k := 0 to |warnings|
      invariant insights == OverInsights(warnings[..k])
    {
      assert OverInsights(warnings[..k + 1]) == OverInsights(warnings[..k]) + [OverInsight(warnings[k])];
      insights := insights + [OverInsight(warnings[k])];
    }
    assert warnings[..|warnings|] == warnings;
    var warningsNear := Filter(status, IsNear);
    for k := 0 to |warningsNear|
      invariant insights == OverInsights(warnings) + NearInsights(warningsNear[..k])
    {
      assert NearInsights(warningsNear[..k + 1]) == NearInsights(warningsNear[..k]) + [NearInsight(warningsNear[k])];
      insights := insights + [NearInsight(warningsNear[k])];
    }
    assert warningsNear[..|warningsNear|] == warningsNear;
    if summary.income > summary.expenses {
      insights := insights + [NetPositive(summary.income - summary.expenses)];
    }
  }

  /** No budget is both over budget and near its limit, and with limits that
      are not negative the warnings are exactly the budgets past 85% of their
      limit, one each. */
  lemma WarningCount(status: seq<Budget>, summary: Summary)
    requires forall i :: 0 <= i < |status| ==> status[i].limit >= 0.0
    ensures forall b :: !(IsOver(b) && IsNear(b))
    ensures |SpendingInsights(status, summary)| ==
            |Filter(status, AtRisk)| + (if summary.income > summary.expenses then 1 else 0)
  {
    FilterCountDisjointUnion(status, IsOver, IsNear, AtRisk);
  }

  /** The rank of an insight in the list: over-budget, near-limit, success. */
  function Rank(i: Insight): nat {
    match i
    case OverBudget(_, _) => 0
    case NearLimit(_, _, _) => 1
    case NetPositive(_) => 2
  }

  /** The insights come in rank order, the success insight is last and
      appears exactly when income exceeds expenses. */
  lemma InsightsOrdered(status: seq<Budget>, summary: Summary)
    ensures var r := SpendingInsights(status, summary);
            && (forall i, j :: 0 <= i < j < |r| ==> Rank(r[i]) <= Rank(r[j]))
            && ((exists i :: 0 <= i < |r| && r[i].NetPositive?) <==> summary.income > summary.expenses)
            && (forall i :: 0 <= i < |r| && r[i].NetPositive? ==> i == |r| - 1 && r[i].saved > 0.0)
  {
    var n, m := |Filter(status, IsOver)|, |Filter(status, IsNear)|;
    var r := SpendingInsights(status, summary);
    InsightPositions(status, summary);
    assert forall i :: 0 <= i < |r| ==> Rank(r[i]) == if i < n then 0 else if i < n + m then 1 else 2;
    if summary.income > summary.expenses {
      assert r[|r| - 1].NetPositive?;
    }
  }

  /** Where each kind of insight sits: over-budget ones first, near-limit
      ones next, and the success insight, if any, after them. */
  lemma InsightPositions(status: seq<Budget>, summary: Summary)
    ensures var r := SpendingInsights(status, summary);
            var n, m := |Filter(status, IsOver)|, |Filter(status, IsNear)|;
            && |r| == n + m + (if summary.income > summary.expenses then 1 else 0)
            && (forall i :: 0 <= i < n ==> r[i].OverBudget?)
            && (forall i :: n <= i < n + m ==> r[i].NearLimit?)
            && (forall i :: n + m <= i < |r| ==> r[i].NetPositive? && r[i].saved > 0.0)
  {
    var over := OverInsights(Filter(status, IsOver));
    var near := NearInsights(Filter(status, IsNear));
    var r := SpendingInsights(status, summary);
    assert forall i :: 0 <= i < |over| ==> r[i] == over[i];
    assert forall i :: |over| <= i < |over| + |near| ==> r[i] == near[i - |over|];
  }

  /** Every over-budget insight shows a positive excess; every near-limit
      insight concerns a positive limit, shows a percentage above 85 and at
      most 100, and a remainder that is not negative. */
  lemma InsightFigures(status: seq<Budget>, summary: Summary)
    ensures var r := SpendingInsights(status, summary);
            forall i :: 0 <= i < |r| ==>
              && (r[i].OverBudget? ==> r[i].over > 0.0)
              && (r[i].NearLimit? ==> r[i].percent.Finite? && 85.0 < r[i].percent.value <= 100.0 && r[i].left >= 0.0)
  {
    var overs := Filter(status, IsOver);
    var nears := Filter(status, IsNear);
    FilterMembers(status, IsOver);
    FilterMembers(status, IsNear);
    var r := SpendingInsights(status, summary);
    forall i | 0 <= i < |nears| ensures NearInsight(nears[i]).percent.Finite? && 85.0 < NearInsight(nears[i]).percent.value <= 100.0 {
      NearPercent(nears[i]);
    }
    assert forall i :: 0 <= i < |overs| ==> r[i] == OverInsight(overs[i]);
    assert forall i :: |overs| <= i < |overs| + |nears| ==> r[i] == NearInsight(nears[i - |overs|]);
  }

  /** A near-limit budget has a positive limit, so its percentage is finite,
      above 85 and at most 100. */
  lemma NearPercent(b: Budget)
    requires IsNear(b)
    ensures b.limit > 0.0
    ensures var p := Scale(Divide(b.spent, b.limit), 100.0);
            p.Finite? && 85.0 < p.value <= 100.0
  {
    NearLimitPositive(b.spent, b.limit);
    NearShare(b.spent, b.limit);
    var q := b.spent / b.limit;
    assert Divide(b.spent, b.limit) == Finite(q);
    assert Scale(Divide(b.spent, b.limit), 100.0) == Finite(q * 100.0);
  }

  /** Only a positive limit has amounts above 85% of it and at most it. */
  lemma NearLimitPositive(spent: real, limit: real)
    requires spent <= limit && spent > limit * 0.85
    ensures limit > 0.0
  {
    assert limit - limit * 0.85 > 0.0;
  }

  /** Such an amount is a share of the limit above 0.85 and at most 1. */
  lemma NearShare(spent: real, limit: real)
    requires limit > 0.0 && spent <= limit && spent > limit * 0.85
    ensures 0.85 < spent / limit <= 1.0
  {
    var q := spent / limit;
    assert q * limit == spent;
    ProductSign(q - 0.85, limit);
    ProductSign(1.0 - q, limit);
    assert (q - 0.85) * limit == spent - limit * 0.85;
    assert (1.0 - q) * limit == limit - spent;
  }

  /** A product with a positive factor has the sign of the other one. */
  lemma ProductSign(x: real, y: real)
    requires y > 0.0
    ensures x > 0.0 <==> x * y > 0.0
    ensures x >= 0.0 <==> x * y >= 0.0
  {
  }

  // ---------------------------------------------------------------------
  // The limit update tool

  datatype UpdateResult = Updated(budget: Budget) | NotFound(message: string)

  /** The index `find` stops at in the tool: an exact category match. */
  function ExactIndex(cells: seq<BudgetCell>, category: string): int {
    FindIndex(cells, (c: BudgetCell) => c.category == category)
  }

  /** The `update_budget_limit` tool: the first budget whose category equals
      the argument exactly gets the new limit and is returned; without one
      nothing changes and the result says the category was not found. */
  method UpdateBudgetLimitTool(data: FinanceData, category: string, newLimit: real) returns (result: UpdateResult)
    modifies data.budgets
    ensures var i := ExactIndex(data.budgets, category);
            && (result.NotFound? <==> i < 0)
            && (i < 0 ==> result.message == "Category " + category + " not found.")
            && (0 <= i ==> data.budgets[i].limit == newLimit && result.budget == data.budgets[i].Value())
            && (forall c :: c in data.budgets && (i < 0 || c != data.budgets[i]) ==> c.limit == old(c.limit))
  {
    var cells := data.budgets;
    var i := 0;
    while i < |cells| && cells[i].category != category
      invariant 0 <= i <= |cells|
      invariant forall j :: 0 <= j < i ==> cells[j].category != category
    {
      i := i + 1;
    }
    if i < |cells| {
      cells[i].limit := newLimit;
      return Updated(cells[i].Value());
    }
    return NotFound("Category " + category + " not found.");
  }

  /** Where the tool finds a budget, the store's case-insensitive update finds
      the same one or an earlier one that differs only in case. */
  lemma ExactMatchFoundIgnoringCase(cells: seq<BudgetCell>, category: string)
    ensures 0 <= ExactIndex(cells, category) ==>
              0 <= BudgetStore.MatchIndex(cells, category) <= ExactIndex(cells, category)
  {
    FindIndexWeaker(cells, (c: BudgetCell) => c.category == category,
                    (c: BudgetCell) => BudgetStore.SameCategoryIgnoringCase(c.category, category));
  }

  /** The tool and the store change the same objects: a limit the tool sets
      is what the store lists next. */
  method ToolUpdateSeenByStore(store: BudgetStore.Store, category: string, newLimit: real)
    returns (result: UpdateResult, listed: seq<BudgetCell>)
    requires store.Valid()
    modifies store.data.budgets
    ensures store.Valid() && listed == store.data.budgets
    ensures var i := ExactIndex(listed, category); 0 <= i ==> result.Updated? && listed[i].limit == newLimit
  {
    result := UpdateBudgetLimitTool(store.data, category, newLimit);
    listed := store.GetBudgets();
  }
}
