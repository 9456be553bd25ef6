/** The finance data layer: the transaction list, the budgets, the category
    colours and the queries over them (filters, sums, the per-category
    group-by and the most-recent-first listing).

    Amounts are exact reals. A date is the day number of its ISO
    `YYYY-MM-DD` string, so comparing dates compares day numbers; a date
    string that does not parse (`Invalid Date`) is `None`. */
module MockData {
  import opened Seqs
  import opened Optional

  datatype Kind = Expense | Income

  datatype Transaction = Transaction(id: string, date: int, amount: real, category: string, description: string, kind: Kind)

  datatype Budget = Budget(category: string, limit: real, spent: real, color: string)

  /** One entry of the per-category spending breakdown. */
  datatype CategorySpend = CategorySpend(name: string, value: real, color: string)

  /** The optional `{ start, end }` argument, each end parsed to a day. */
  datatype DateRange = DateRange(start: Option<int>, end: Option<int>)

  const Categories: seq<string> :=
    ["Dining", "Groceries", "Transport", "Entertainment", "Shopping", "Bills", "Health", "Rent", "Income"]

  const CategoryColors: map<string, string> := map[
    "Dining" := "#F59E0B", "Groceries" := "#10B981", "Transport" := "#3B82F6",
    "Entertainment" := "#8B5CF6", "Shopping" := "#EC4899", "Bills" := "#64748B",
    "Health" := "#EF4444", "Rent" := "#6366F1", "Income" := "#22C55E"]

  const DefaultColor: string := "#9CA3AF"

  /** `CATEGORY_COLORS[name] || "#9CA3AF"`. */
  function ColorFor(name: string): string {
    if name in CategoryColors then CategoryColors[name] else DefaultColor
  }

  /** Exactly the fixed categories have a colour of their own. */
  lemma ColorForKnown(name: string)
    ensures ColorFor(name) != DefaultColor <==> name in Categories
    ensures name in Categories ==> ColorFor(name) == CategoryColors[name]
  {
  }

  /** A transaction `daysAgo` days before `today`. */
  function Dated(today: int, id: string, daysAgo: nat, amount: real, category: string, description: string, kind: Kind): Transaction {
    Transaction(id, today - daysAgo, amount, category, description, kind)
  }

  /** The transaction list, dated relative to the current day. */
  function Transactions(today: int): seq<Transaction> {
    [ Dated(today, "t1", 28, 3500.0, "Income", "Monthly Salary", Income),
      Dated(today, "t39", 12, 200.0, "Income", "Freelance Gig", Income),
      Dated(today, "t2", 30, 1200.0, "Rent", "Rent Payment", Expense),
      Dated(today, "t6", 1, 124.5, "Groceries", "Weekly Groceries at Whole Foods", Expense),
      Dated(today, "t14", 2, 65.0, "Dining", "Dinner with friends", Expense),
      Dated(today, "t23", 3, 35.0, "Transport", "Weekly Fuel", Expense),
      Dated(today, "t7", 8, 42.3, "Groceries", "Quick Mart Run", Expense),
      Dated(today, "t32", 9, 85.0, "Shopping", "New Running Shoes", Expense),
      Dated(today, "t29", 10, 35.0, "Entertainment", "Cinema Tickets", Expense),
      Dated(today, "t8", 15, 156.2, "Groceries", "Bulk Grocery Haul", Expense),
      Dated(today, "t18", 16, 45.2, "Dining", "Lunch with Colleagues", Expense),
      Dated(today, "t9", 22, 35.15, "Groceries", "Fresh Produce", Expense),
      Dated(today, "t34", 25, 120.0, "Shopping", "Winter Jacket", Expense),
      Dated(today, "t20", 5, 32.0, "Dining", "Takeout Pizza", Expense),
      Dated(today, "t44", 0, 15.50, "Dining", "Lunch Special", Expense) ]
  }

  /** The budgets as declared, before their spending is filled in. */
  const InitialBudgets: seq<Budget> := [
    Budget("Dining", 500.0, 0.0, "#F59E0B"),
    Budget("Groceries", 600.0, 0.0, "#10B981"),
    Budget("Transport", 200.0, 0.0, "#3B82F6"),
    Budget("Entertainment", 150.0, 0.0, "#8B5CF6"),
    Budget("Shopping", 300.0, 0.0, "#EC4899"),
    Budget("Bills", 300.0, 0.0, "#64748B")]

  predicate IsExpense(t: Transaction) { t.kind == Expense }

  predicate IsIncome(t: Transaction) { t.kind == Income }

  function Amount(t: Transaction): real { t.amount }

  /** `d >= startDate && d <= endDate`: a comparison with an invalid date is
      false. */
  predicate InRange(d: int, start: Option<int>, end: Option<int>) {
    start.Some? && end.Some? && start.value <= d <= end.value
  }

  // ---------------------------------------------------------------------
  // Filters and sums

  /** `getTransactionsByCategory`. */
  function TransactionsByCategory(txs: seq<Transaction>, category: string): (r: seq<Transaction>)
    ensures |r| <= |txs|
  {
    Filter(txs, (t: Transaction) => t.category == category)
  }

  /** The result holds exactly the transactions of that category, each as
      often as in the input, in their original order. */
  lemma TransactionsByCategoryExact(txs: seq<Transaction>, category: string)
    ensures IsSubseq(TransactionsByCategory(txs, category), txs)
    ensures forall t :: multiset(TransactionsByCategory(txs, category))[t] ==
                          if t.category == category then multiset(txs)[t] else 0
  {
    FilterIsSubseq(txs, (t: Transaction) => t.category == category);
    forall t ensures multiset(TransactionsByCategory(txs, category))[t] ==
                       if t.category == category then multiset(txs)[t] else 0 {
      FilterMultiplicity(txs, (t: Transaction) => t.category == category, t);
    }
  }

  /** `getTransactionsByDateRange`. */
  function TransactionsByDateRange(txs: seq<Transaction>, start: Option<int>, end: Option<int>): (r: seq<Transaction>)
    ensures |r| <= |txs|
  {
    Filter(txs, (t: Transaction) => InRange(t.date, start, end))
  }

  /** The result holds exactly the transactions dated within the range, both
      ends included, in their original order; an unparsable end keeps none. */
  lemma TransactionsByDateRangeExact(txs: seq<Transaction>, start: Option<int>, end: Option<int>)
    ensures IsSubseq(TransactionsByDateRange(txs, start, end), txs)
    ensures forall t :: multiset(TransactionsByDateRange(txs, start, end))[t] ==
                          if start.Some? && end.Some? && start.value <= t.date <= end.value then multiset(txs)[t] else 0
    ensures start.None? || end.None? ==> TransactionsByDateRange(txs, start, end) == []
  {
    var p := (t: Transaction) => InRange(t.date, start, end);
    FilterIsSubseq(txs, p);
    forall t ensures multiset(TransactionsByDateRange(txs, start, end))[t] ==
                       if start.Some? && end.Some? && start.value <= t.date <= end.value then multiset(txs)[t] else 0 {
      FilterMultiplicity(txs, p, t);
    }
    if start.None? || end.None? {
      FilterMembers(txs, p);
    }
  }

  /** The category's expenses, in order. */
  function CategoryExpenses(txs: seq<Transaction>, category: string): seq<Transaction> {
    Filter(TransactionsByCategory(txs, category), IsExpense)
  }

  /** The optional date-range step of `calculateCategorySpending`. */
  function WithinRange(ts: seq<Transaction>, range: Option<DateRange>): seq<Transaction> {
    if range.Some? then Filter(ts, (t: Transaction) => InRange(t.date, range.value.start, range.value.end))
    else ts
  }

  /** `calculateCategorySpending`: the category's transactions, then its
      expenses, then (with a range) those within the range, summed. */
  function CalculateCategorySpending(txs: seq<Transaction>, category: string, range: Option<DateRange>): real {
    SumBy(WithinRange(CategoryExpenses(txs, category), range), Amount)
  }

  /** Whether a transaction contributes to a category's spending. */
  predicate Counts(t: Transaction, category: string, range: Option<DateRange>) {
    t.category == category && t.kind == Expense &&
    (range.None? || InRange(t.date, range.value.start, range.value.end))
  }

  /** The category spending written as one pass over the transactions. */
  function CategoryTotal(txs: seq<Transaction>, category: string, range: Option<DateRange>): real {
    if txs == [] then 0.0
    else CategoryTotal(txs[..|txs| - 1], category, range)
         + (if Counts(txs[|txs| - 1], category, range) then txs[|txs| - 1].amount else 0.0)
  }

  lemma CategoryExpensesSnoc(txs: seq<Transaction>, t: Transaction, category: string)
    ensures CategoryExpenses(txs + [t], category) ==
            CategoryExpenses(txs, category) + (if t.category == category && t.kind == Expense then [t] else [])
  {
    var p := (u: Transaction) => u.category == category;
    FilterSnoc(txs, t, p);
    if t.category == category {
      assert TransactionsByCategory(txs + [t], category) == TransactionsByCategory(txs, category) + [t];
      FilterSnoc(TransactionsByCategory(txs, category), t, IsExpense);
    } else {
      assert TransactionsByCategory(txs + [t], category) == TransactionsByCategory(txs, category);
    }
  }

  lemma WithinRangeSnoc(ts: seq<Transaction>, t: Transaction, range: Option<DateRange>)
    ensures WithinRange(ts + [t], range) ==
            WithinRange(ts, range) + (if range.None? || InRange(t.date, range.value.start, range.value.end) then [t] else [])
  {
    if range.Some? {
      FilterSnoc(ts, t, (u: Transaction) => InRange(u.date, range.value.start, range.value.end));
    }
  }

  /** The filter pipeline sums exactly the counting transactions. */
  lemma {:induction false} CalculateCategorySpendingIsTotal(txs: seq<Transaction>, category: string, range: Option<DateRange>)
    ensures CalculateCategorySpending(txs, category, range) == CategoryTotal(txs, category, range)
  {
    if txs != [] {
      var init, last := txs[..|txs| - 1], txs[|txs| - 1];
      assert txs == init + [last];
      CalculateCategorySpendingIsTotal(init, category, range);
      CategorySpendingAppend(init, last, category, range);
    }
  }

  /** Income never counts towards a category's spending, whatever its
      category; an expense counts exactly when it is in the category and
      within the range. */
  lemma CategorySpendingAppend(txs: seq<Transaction>, t: Transaction, category: string, range: Option<DateRange>)
    ensures CalculateCategorySpending(txs + [t], category, range) ==
            CalculateCategorySpending(txs, category, range) + (if Counts(t, category, range) then t.amount else 0.0)
    ensures t.kind == Income ==>
              CalculateCategorySpending(txs + [t], category, range) == CalculateCategorySpending(txs, category, range)
  {
    CategoryExpensesSnoc(txs, t, category);
    var es := CategoryExpenses(txs, category);
    if t.category == category && t.kind == Expense {
      assert CategoryExpenses(txs + [t], category) == es + [t];
      WithinRangeSumSnoc(es, t, range);
    } else {
      assert CategoryExpenses(txs + [t], category) == es;
    }
  }

  /** The range step followed by the sum, one transaction at a time. */
  lemma WithinRangeSumSnoc(es: seq<Transaction>, t: Transaction, range: Option<DateRange>)
    ensures SumBy(WithinRange(es + [t], range), Amount) ==
            SumBy(WithinRange(es, range), Amount)
            + (if range.None? || InRange(t.date, range.value.start, range.value.end) then t.amount else 0.0)
  {
    WithinRangeSnoc(es, t, range);
    if range.None? || InRange(t.date, range.value.start, range.value.end) {
      assert WithinRange(es + [t], range) == WithinRange(es, range) + [t];
      SumBySnoc(WithinRange(es, range), t, Amount);
    } else {
      assert WithinRange(es + [t], range) == WithinRange(es, range) + [];
      assert WithinRange(es, range) + [] == WithinRange(es, range);
    }
  }

  /** `getTotalIncome`. */
  function TotalIncome(txs: seq<Transaction>): real {
    SumBy(Filter(txs, IsIncome), Amount)
  }

  /** `getTotalExpenses`. */
  function TotalExpenses(txs: seq<Transaction>): real {
    SumBy(Filter(txs, IsExpense), Amount)
  }

  /** Income and expenses add up to the sum of all transactions. */
  lemma {:induction false} IncomeExpenseSum(txs: seq<Transaction>)
    ensures TotalIncome(txs) + TotalExpenses(txs) == SumBy(txs, Amount)
  {
    if txs != [] {
      var init, last := txs[..|txs| - 1], txs[|txs| - 1];
      assert txs == init + [last];
      IncomeExpenseSum(init);
      FilterSnoc(init, last, IsIncome);
      FilterSnoc(init, last, IsExpense);
      if last.kind == Income {
        assert Filter(txs, IsExpense) == Filter(init, IsExpense);
        SumBySnoc(Filter(init, IsIncome), last, Amount);
      } else {
        assert Filter(txs, IsIncome) == Filter(init, IsIncome);
        SumBySnoc(Filter(init, IsExpense), last, Amount);
      }
    }
  }

  /** Every transaction is in exactly one of the two sums. */
  lemma IncomeExpenseDisjoint(txs: seq<Transaction>)
    ensures forall t :: multiset(Filter(txs, IsIncome))[t] + multiset(Filter(txs, IsExpense))[t] == multiset(txs)[t]
  {
    forall t ensures multiset(Filter(txs, IsIncome))[t] + multiset(Filter(txs, IsExpense))[t] == multiset(txs)[t] {
      FilterMultiplicity(txs, IsIncome, t);
      FilterMultiplicity(txs, IsExpense, t);
    }
  }

  // ---------------------------------------------------------------------
  // Spending by category

  /** The amounts of the transactions of one category in `es`, summed. */
  function SumCat(es: seq<Transaction>, name: string): real {
    if es == [] then 0.0
    else SumCat(es[..|es| - 1], name) + (if es[|es| - 1].category == name then es[|es| - 1].amount else 0.0)
  }

  /** The categories of `es`, each once, in order of first occurrence: the
      key order of a `Map` filled from left to right. */
  function DistinctCategories(es: seq<Transaction>): seq<string> {
    if es == [] then []
    else
      var d := DistinctCategories(es[..|es| - 1]);
      if es[|es| - 1].category in d then d else d + [es[|es| - 1].category]
  }

  predicate NoDuplicates<T(==)>(s: seq<T>) {
    forall i, j :: 0 <= i < j < |s| ==> s[i] != s[j]
  }

  /** Each category that occurs, once. */
  lemma {:induction false} DistinctCategoriesExact(es: seq<Transaction>)
    ensures NoDuplicates(DistinctCategories(es))
    ensures forall c :: c in DistinctCategories(es) <==> exists t :: t in es && t.category == c
  {
    if es != [] {
      var init, last := es[..|es| - 1], es[|es| - 1];
      assert es == init + [last];
      DistinctCategoriesExact(init);
      forall c ensures c in DistinctCategories(es) <==> exists t :: t in es && t.category == c {
        if c in DistinctCategories(es) && c != last.category {
          var t :| t in init && t.category == c;
          assert t in es;
        }
        if c == last.category {
          assert last in es;
        }
      }
    }
  }

  /** A category that does not occur sums to nothing. */
  lemma {:induction false} SumCatAbsent(es: seq<Transaction>, name: string)
    requires name !in DistinctCategories(es)
    ensures SumCat(es, name) == 0.0
  {
    if es != [] {
      var d := DistinctCategories(es[..|es| - 1]);
      assert name !in d;
      SumCatAbsent(es[..|es| - 1], name);
    }
  }

  /** The breakdown entries for `names`, in that order. */
  function Entries(names: seq<string>, es: seq<Transaction>): (r: seq<CategorySpend>)
    ensures |r| == |names|
  {
    seq(|names|, k requires 0 <= k < |names| => CategorySpend(names[k], SumCat(es, names[k]), ColorFor(names[k])))
  }

  /** What `getSpendingByCategory` returns: one entry per expense category,
      in order of first occurrence, with its expense sum and its colour. */
  function SpendingByCategory(txs: seq<Transaction>): seq<CategorySpend> {
    var es := Filter(txs, IsExpense);
    Entries(DistinctCategories(es), es)
  }

  /** `getSpendingByCategory`: one pass over the expenses that adds each
      amount into a map keyed by category (a key is added at its first
      occurrence), then one entry per key in insertion order. */
  method GetSpendingByCategory(txs: seq<Transaction>) returns (entries: seq<CategorySpend>)
    ensures entries == SpendingByCategory(txs)
  {
    var es := Filter(txs, IsExpense);
    var names: seq<string> := [];
    var totals: map<string, real> := map[];
    var i := 0;
    while i < |es|
      invariant 0 <= i <= |es|
      invariant names == DistinctCategories(es[..i])
      invariant forall n :: n in totals <==> n in names
      invariant forall n :: n in totals ==> totals[n] == SumCat(es[..i], n)
    {
      var t := es[i];
      assert es[..i + 1] == es[..i] + [t];
      assert es[..i + 1][..i] == es[..i];
      if t.category !in totals {
        SumCatAbsent(es[..i], t.category);
      }
      var current := if t.category in totals then totals[t.category] else 0.0;
      if t.category !in totals {
        names := names + [t.category];
      }
      totals := totals[t.category := current + t.amount];
      i := i + 1;
    }
    assert es[..|es|] == es;
    entries := [];
    var k := 0;
    while k < |names|
      invariant 0 <= k <= |names|
      invariant entries == Entries(names[..k], es)
    {
      var n := names[k];
      assert names[..k + 1] == names[..k] + [n];
      entries := entries + [CategorySpend(n, totals[n], ColorFor(n))];
      k := k + 1;
    }
    assert names[..|names|] == names;
  }

  /** The per-category sum over the expenses is the category's spending. */
  lemma {:induction false} SumCatIsCategorySpending(txs: seq<Transaction>, name: string)
    ensures SumCat(Filter(txs, IsExpense), name) == CalculateCategorySpending(txs, name, None)
  {
    CalculateCategorySpendingIsTotal(txs, name, None);
    SumCatIsTotal(txs, name);
  }

  lemma SumCatSnoc(es: seq<Transaction>, t: Transaction, name: string)
    ensures SumCat(es + [t], name) == SumCat(es, name) + (if t.category == name then t.amount else 0.0)
  {
    assert (es + [t])[..|es|] == es;
  }

  lemma {:induction false} SumCatIsTotal(txs: seq<Transaction>, name: string)
    ensures SumCat(Filter(txs, IsExpense), name) == CategoryTotal(txs, name, None)
  {
    if txs != [] {
      var init, last := txs[..|txs| - 1], txs[|txs| - 1];
      SumCatIsTotal(init, name);
      var es := Filter(init, IsExpense);
      assert Filter(txs, IsExpense) == es + (if IsExpense(last) then [last] else []);
      if last.kind == Expense {
        SumCatSnoc(es, last, name);
      } else {
        assert Filter(txs, IsExpense) == es;
      }
    }
  }

  /** No two breakdown entries share a name. */
  lemma SpendingByCategoryDistinct(txs: seq<Transaction>)
    ensures var r := SpendingByCategory(txs);
            forall i, j :: 0 <= i < j < |r| ==> r[i].name != r[j].name
  {
    DistinctCategoriesExact(Filter(txs, IsExpense));
  }

  /** Every expense's category has a breakdown entry. */
  lemma SpendingByCategoryCovers(txs: seq<Transaction>)
    ensures var r := SpendingByCategory(txs);
            forall t :: t in txs && t.kind == Expense ==> exists i :: 0 <= i < |r| && r[i].name == t.category
  {
    var es := Filter(txs, IsExpense);
    var d := DistinctCategories(es);
    var r := SpendingByCategory(txs);
    DistinctCategoriesExact(es);
    forall t | t in txs && t.kind == Expense ensures exists i :: 0 <= i < |r| && r[i].name == t.category {
      FilterIn(txs, IsExpense, t);
      assert t.category in d;
      var i :| 0 <= i < |d| && d[i] == t.category;
      assert r[i].name == t.category;
    }
  }

  /** Some expense in `txs` is of category `name`. */
  predicate HasExpenseIn(txs: seq<Transaction>, name: string) {
    exists t :: t in txs && t.kind == Expense && t.category == name
  }

  /** Every breakdown entry names a category that has an expense. */
  lemma SpendingByCategoryOnlyExpenses(txs: seq<Transaction>)
    ensures var r := SpendingByCategory(txs);
            forall i :: 0 <= i < |r| ==> HasExpenseIn(txs, r[i].name)
  {
    var es := Filter(txs, IsExpense);
    var d := DistinctCategories(es);
    var r := SpendingByCategory(txs);
    DistinctCategoriesExact(es);
    forall i | 0 <= i < |r| ensures HasExpenseIn(txs, r[i].name) {
      assert r[i].name == d[i] && d[i] in d;
      var t :| t in es && t.category == d[i];
      FilterIn(txs, IsExpense, t);
      assert t in txs && t.kind == Expense && t.category == r[i].name;
    }
  }

  /** Each entry's value is that category's spending and its colour the
      category colour. */
  lemma SpendingByCategoryValues(txs: seq<Transaction>)
    ensures var r := SpendingByCategory(txs);
            forall i :: 0 <= i < |r| ==>
              r[i].value == CalculateCategorySpending(txs, r[i].name, None) && r[i].color == ColorFor(r[i].name)
  {
    var r := SpendingByCategory(txs);
    forall i | 0 <= i < |r| ensures r[i].value == CalculateCategorySpending(txs, r[i].name, None) {
      SumCatIsCategorySpending(txs, r[i].name);
    }
  }

  function Value(e: CategorySpend): real { e.value }

  /** One more expense adds its amount to the total of the entries exactly
      when its category is among their names. */
  lemma {:induction false} EntriesSumSnoc(names: seq<string>, es: seq<Transaction>, t: Transaction)
    requires NoDuplicates(names)
    ensures SumBy(Entries(names, es + [t]), Value) ==
            SumBy(Entries(names, es), Value) + (if t.category in names then t.amount else 0.0)
  {
    if names != [] {
      var ns, c := names[..|names| - 1], names[|names| - 1];
      assert names == ns + [c];
      EntriesSumSnoc(ns, es, t);
      assert (es + [t])[..|es|] == es;
      assert Entries(names, es + [t])[..|ns|] == Entries(ns, es + [t]);
      assert Entries(names, es)[..|ns|] == Entries(ns, es);
      assert c !in ns;
    }
  }

  /** The entries of all distinct categories add up to all the amounts. */
  lemma {:induction false} DistinctEntriesSum(es: seq<Transaction>)
    ensures SumBy(Entries(DistinctCategories(es), es), Value) == SumBy(es, Amount)
  {
    if es != [] {
      var init, last := es[..|es| - 1], es[|es| - 1];
      assert es == init + [last];
      var d := DistinctCategories(init);
      DistinctEntriesSum(init);
      DistinctCategoriesExact(init);
      EntriesSumSnoc(d, init, last);
      SumBySnoc(init, last, Amount);
      if last.category !in d {
        var d' := d + [last.category];
        assert Entries(d', es)[..|d|] == Entries(d, es);
        SumCatAbsent(init, last.category);
        assert SumCat(es, last.category) == last.amount;
      }
    }
  }

  /** The breakdown's values add up to the total expenses. */
  lemma SpendingSumsToTotalExpenses(txs: seq<Transaction>)
    ensures SumBy(SpendingByCategory(txs), Value) == TotalExpenses(txs)
  {
    DistinctEntriesSum(Filter(txs, IsExpense));
  }

  // ---------------------------------------------------------------------
  // Budgets with their spending

  /** `spending.find(s => s.name === category)`'s value, or 0 without one. */
  function SpentFor(spending: seq<CategorySpend>, category: string): real {
    var i := FindIndex(spending, (s: CategorySpend) => s.name == category);
    if i < 0 then 0.0 else spending[i].value
  }

  /** Each budget with its `spent` replaced from the breakdown. */
  function WithSpending(budgets: seq<Budget>, spending: seq<CategorySpend>): (r: seq<Budget>)
    ensures |r| == |budgets|
  {
    seq(|budgets|, i requires 0 <= i < |budgets| => budgets[i].(spent := SpentFor(spending, budgets[i].category)))
  }

  /** Looking a category up in the breakdown gives its spending, and 0 for a
      category without expenses. */
  lemma SpentForSpending(txs: seq<Transaction>, category: string)
    ensures SpentFor(SpendingByCategory(txs), category) == CalculateCategorySpending(txs, category, None)
  {
    var es := Filter(txs, IsExpense);
    var r := SpendingByCategory(txs);
    var i := FindIndex(r, (s: CategorySpend) => s.name == category);
    SumCatIsCategorySpending(txs, category);
    if i < 0 {
      var d := DistinctCategories(es);
      forall k | 0 <= k < |d| ensures d[k] != category {
        assert r[k].name == d[k];
      }
      SumCatAbsent(es, category);
    }
  }

  /** Filling in the spending keeps every budget's position, category, limit
      and colour, and sets its `spent` to the category's spending (0 when
      there is none). */
  lemma WithSpendingExact(budgets: seq<Budget>, txs: seq<Transaction>)
    ensures var r := WithSpending(budgets, SpendingByCategory(txs));
            forall i :: 0 <= i < |budgets| ==>
              && r[i].category == budgets[i].category && r[i].limit == budgets[i].limit
              && r[i].color == budgets[i].color
              && r[i].spent == CalculateCategorySpending(txs, budgets[i].category, None)
  {
    forall i | 0 <= i < |budgets|
      ensures SpentFor(SpendingByCategory(txs), budgets[i].category) == CalculateCategorySpending(txs, budgets[i].category, None)
    {
      SpentForSpending(txs, budgets[i].category);
    }
  }

  /** Filling in the spending a second time changes nothing. */
  lemma WithSpendingIdempotent(budgets: seq<Budget>, spending: seq<CategorySpend>)
    ensures WithSpending(WithSpending(budgets, spending), spending) == WithSpending(budgets, spending)
  {
  }

  // ---------------------------------------------------------------------
  // Most recent first

  predicate SortedByDateDesc(s: seq<Transaction>) {
    forall i, j :: 0 <= i < j < |s| ==> s[i].date >= s[j].date
  }

  /** Puts `t` after every transaction at least as recent as it. */
  function InsertByDate(s: seq<Transaction>, t: Transaction): (r: seq<Transaction>)
    ensures |r| == |s| + 1
  {
    if s == [] || s[0].date < t.date then [t] + s
    else [s[0]] + InsertByDate(s[1..], t)
  }

  /** A copy sorted by `b.date - a.date`: most recent first, transactions of
      the same day in their original order. */
  function SortByDateDesc(s: seq<Transaction>): (r: seq<Transaction>)
    ensures |r| == |s|
  {
    if s == [] then [] else InsertByDate(SortByDateDesc(s[..|s| - 1]), s[|s| - 1])
  }

  lemma {:induction false} InsertByDatePermutes(s: seq<Transaction>, t: Transaction)
    ensures multiset(InsertByDate(s, t)) == multiset(s) + multiset{t}
  {
    if s != [] && s[0].date >= t.date {
      InsertByDatePermutes(s[1..], t);
      assert s == [s[0]] + s[1..];
    }
  }

  lemma {:induction false} InsertByDateSorted(s: seq<Transaction>, t: Transaction)
    requires SortedByDateDesc(s)
    ensures SortedByDateDesc(InsertByDate(s, t))
  {
    if s != [] && s[0].date >= t.date {
      var rest := InsertByDate(s[1..], t);
      InsertByDateSorted(s[1..], t);
      InsertByDatePermutes(s[1..], t);
      forall k | 0 <= k < |rest| ensures s[0].date >= rest[k].date {
        assert rest[k] in multiset(rest);
        if rest[k] != t {
          assert rest[k] in multiset(s[1..]);
          var j :| 0 <= j < |s[1..]| && s[1..][j] == rest[k];
          assert s[j + 1] == rest[k];
        }
      }
    }
  }

  /** The sorted copy is ordered most recent first and is a permutation of
      its input. */
  lemma {:induction false} SortByDateDescCorrect(s: seq<Transaction>)
    ensures SortedByDateDesc(SortByDateDesc(s))
    ensures multiset(SortByDateDesc(s)) == multiset(s)
  {
    if s != [] {
      SortByDateDescCorrect(s[..|s| - 1]);
      InsertByDateSorted(SortByDateDesc(s[..|s| - 1]), s[|s| - 1]);
      InsertByDatePermutes(SortByDateDesc(s[..|s| - 1]), s[|s| - 1]);
      assert s == s[..|s| - 1] + [s[|s| - 1]];
    }
  }

  /** `getRecentTransactions(limit)`. */
  function RecentTransactions(txs: seq<Transaction>, limit: int): seq<Transaction> {
    Take(SortByDateDesc(txs), limit)
  }

  /** The result is the first `min(limit, n)` transactions of the
      most-recent-first order: sorted, drawn from the input, and no
      transaction left out is more recent than one kept. */
  lemma RecentTransactionsCorrect(txs: seq<Transaction>, limit: int)
    ensures var r := RecentTransactions(txs, limit);
            && SortedByDateDesc(r)
            && multiset(r) <= multiset(txs)
            && (0 <= limit ==> |r| == if limit < |txs| then limit else |txs|)
            && r <= SortByDateDesc(txs)
            && (forall i, j :: 0 <= i < |r| <= j < |txs| ==> r[i].date >= SortByDateDesc(txs)[j].date)
  {
    var sorted := SortByDateDesc(txs);
    SortByDateDescCorrect(txs);
    var r := RecentTransactions(txs, limit);
    assert sorted == r + sorted[|r|..];
    assert multiset(sorted) == multiset(r) + multiset(sorted[|r|..]);
  }

  // ---------------------------------------------------------------------
  // The module's budget objects

  /** A budget object: only its limit is ever changed in place. */
  class BudgetCell {
    const category: string
    var limit: real
    const spent: real
    const color: string

    constructor (b: Budget)
      ensures Value() == b
    {
      category, limit, spent, color := b.category, b.limit, b.spent, b.color;
    }

    function Value(): Budget
      reads this
    {
      Budget(category, limit, spent, color)
    }
  }

  function Values(cells: seq<BudgetCell>): (r: seq<Budget>)
    reads cells
    ensures |r| == |cells| && forall i :: 0 <= i < |cells| ==> r[i] == cells[i].Value()
  {
    seq(|cells|, i reads cells requires 0 <= i < |cells| => cells[i].Value())
  }

  /** The module's state: the transaction list and the `budgets` binding. */
  class FinanceData {
    const transactions: seq<Transaction>
    var budgets: seq<BudgetCell>

    /** Module load: the declared budgets, then `initializeBudgets()`. */
    constructor (today: int)
      ensures transactions == Transactions(today)
      ensures Values(budgets) == WithSpending(InitialBudgets, SpendingByCategory(transactions))
      ensures forall c :: c in budgets ==> fresh(c)
    {
      transactions := Transactions(today);
      budgets := [];
      new;
      var cells: seq<BudgetCell> := [];
      for i := 0 to |InitialBudgets|
        invariant |cells| == i
        invariant forall k :: 0 <= k < i ==> fresh(cells[k]) && cells[k].Value() == InitialBudgets[k]
      {
        var cell := new BudgetCell(InitialBudgets[i]);
        cells := cells + [cell];
      }
      budgets := cells;
      assert Values(budgets) == InitialBudgets;
      InitializeBudgets();
    }

    /** `initializeBudgets`: `budgets` becomes a list of new objects, one per
        old budget, with `spent` taken from the spending breakdown. */
    method InitializeBudgets()
      modifies this`budgets
      ensures Values(budgets) == WithSpending(old(Values(budgets)), SpendingByCategory(transactions))
      ensures forall c :: c in budgets ==> fresh(c)
    {
      var spending := GetSpendingByCategory(transactions);
      var current := budgets;
      var cells: seq<BudgetCell> := [];
      for i := 0 to |current|
        invariant |cells| == i
        invariant forall k :: 0 <= k < i ==> fresh(cells[k])
        invariant forall k :: 0 <= k < i ==>
                    cells[k].Value() == current[k].Value().(spent := SpentFor(spending, current[k].category))
      {
        var b := current[i];
        var cell := new BudgetCell(Budget(b.category, b.limit, SpentFor(spending, b.category), b.color));
        cells := cells + [cell];
      }
      budgets := cells;
    }
  }
}
