/** The editable budget store: a module-level list that starts as a shallow
    copy of the data module's budgets, a case-insensitive limit update that
    changes a budget object in place, and a reset that copies the list again. */
module BudgetStore {
  import opened Seqs
  import opened JsStrings
  import opened MockData

  /** `b.category.toLowerCase() === category.toLowerCase()`. */
  predicate SameCategoryIgnoringCase(a: string, b: string) {
    Lower(a) == Lower(b)
  }

  /** The index `find` stops at in `updateBudgetLimit`, or -1. */
  function MatchIndex(cells: seq<BudgetCell>, category: string): int {
    FindIndex(cells, (c: BudgetCell) => SameCategoryIgnoringCase(c.category, category))
  }

  /** The categories match whatever the case of either side. */
  lemma SameCategoryIgnoresCase(a: string, b: string)
    ensures SameCategoryIgnoringCase(a, b) <==> SameCategoryIgnoringCase(Lower(a), b)
    ensures SameCategoryIgnoringCase(a, b) <==> SameCategoryIgnoringCase(b, a)
  {
    LowerIdempotent(a);
  }

  class Store {
    /** the data module whose `budgets` binding the store copies */
    const data: FinanceData
    /** `currentBudgets` */
    var currentBudgets: seq<BudgetCell>

    /** The store's list holds the data module's budget objects, in order. */
    ghost predicate Valid()
      reads this, data
    {
      currentBudgets == data.budgets
    }

    /** `let currentBudgets = [...initialBudgets]`. */
    constructor (data: FinanceData)
      ensures this.data == data && Valid()
    {
      this.data := data;
      currentBudgets := data.budgets;
    }

    /** `getBudgets`. */
    method GetBudgets() returns (r: seq<BudgetCell>)
      ensures r == currentBudgets
    {
      r := currentBudgets;
    }

    /** `updateBudgetLimit`: the first budget whose category matches without
        regard to case gets the new limit; no other budget object changes,
        and the list itself is returned unchanged. */
    method UpdateBudgetLimit(category: string, newLimit: real) returns (r: seq<BudgetCell>)
      modifies currentBudgets
      ensures r == currentBudgets && currentBudgets == old(currentBudgets)
      ensures var i := MatchIndex(currentBudgets, category);
              && (0 <= i ==> currentBudgets[i].limit == newLimit)
              && (forall c :: c in currentBudgets && (i < 0 || c != currentBudgets[i]) ==> c.limit == old(c.limit))
    {
      var i := 0;
      while i < |currentBudgets| && !SameCategoryIgnoringCase(currentBudgets[i].category, category)
        invariant 0 <= i <= |currentBudgets|
        invariant forall j :: 0 <= j < i ==> !SameCategoryIgnoringCase(currentBudgets[j].category, category)
      {
        i := i + 1;
      }
      if i < |currentBudgets| {
        currentBudgets[i].limit := newLimit;
      }
      r := currentBudgets;
    }

    /** `resetBudgets`: the list is copied from the data module again. The
        copy is shallow, so the limits stay as they are. */
    method ResetBudgets() returns (r: seq<BudgetCell>)
      modifies this`currentBudgets
      ensures Valid() && r == currentBudgets
      ensures Values(currentBudgets) == old(Values(data.budgets))
    {
      currentBudgets := data.budgets;
      r := currentBudgets;
    }
  }

  /** An updated limit survives a reset: the reset list holds the same
      objects, and the matched one still carries the new limit. */
  method UpdateThenReset(store: Store, category: string, newLimit: real) returns (r: seq<BudgetCell>)
    requires store.Valid()
    modifies store, store.currentBudgets
    ensures store.Valid() && r == store.currentBudgets
    ensures var i := MatchIndex(r, category); 0 <= i ==> r[i].limit == newLimit
  {
    var _ := store.UpdateBudgetLimit(category, newLimit);
    r := store.ResetBudgets();
  }
}
