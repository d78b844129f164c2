/** The budget evaluator and the budget list: how much of a budget the
    current month has used, and the submit (upsert by category) and delete
    updates. */
module Budgets {
  import opened Calendar
  import opened Seqs
  import opened Ledger
  import opened Stats

  datatype BudgetPeriod = PerMonth | PerYear

  datatype Budget = Budget(id: int, categoryId: int, amount: real, period: BudgetPeriod, createdAt: string)

  /** What a budget card shows: the amount spent, the share of the budget
      used (in percent) and what is left (negative when overspent). */
  datatype BudgetStatus = BudgetStatus(spent: real, percentage: real, remaining: real)

  /** An expense of the budget's category in the reference month. The budget's
      period is not consulted: a yearly budget is also measured against one month. */
  predicate CountsAgainst(t: Transaction, categoryId: int, year: int, month: Month) {
    t.kind == Expense && t.categoryId == categoryId && t.date.month == month && t.date.year == year
  }

  /** The transactions `calculateBudgetSpent` adds up. */
  function CategoryMonthExpenses(txs: seq<Transaction>, categoryId: int, year: int, month: Month): (r: seq<Transaction>)
    ensures forall t :: t in r <==> t in txs && CountsAgainst(t, categoryId, year, month)
  {
    Filter(txs, (t: Transaction) => CountsAgainst(t, categoryId, year, month))
  }

  /** `calculateBudgetSpent`, with the reference month as parameters. */
  function BudgetSpent(txs: seq<Transaction>, budget: Budget, year: int, month: Month): (spent: real)
    ensures NonNegativeAmounts(txs) ==> 0.0 <= spent <= Total(MonthExpenses(txs, year, month))
  {
    SpentWithinMonthExpenses(txs, budget.categoryId, year, month);
    Total(CategoryMonthExpenses(txs, budget.categoryId, year, month))
  }

  /** With non-negative amounts, one category's spending is part of the month's expenses. */
  lemma {:induction false} SpentWithinMonthExpenses(txs: seq<Transaction>, categoryId: int, year: int, month: Month)
    ensures NonNegativeAmounts(txs) ==>
      0.0 <= Total(CategoryMonthExpenses(txs, categoryId, year, month)) <= Total(MonthExpenses(txs, year, month))
    decreases |txs|
  {
    if txs != [] && NonNegativeAmounts(txs) {
      var init, last := txs[..|txs| - 1], txs[|txs| - 1];
      assert txs == init + [last];
      assert last in txs;
      SpentWithinMonthExpenses(init, categoryId, year, month);
      var spent, all := CategoryMonthExpenses(init, categoryId, year, month), MonthExpenses(init, year, month);
      assert CategoryMonthExpenses(txs, categoryId, year, month)
          == if CountsAgainst(last, categoryId, year, month) then spent + [last] else spent;
      assert MonthExpenses(txs, year, month)
          == if last.kind == Expense && last.date.year == year && last.date.month == month then all + [last] else all;
      assert (spent + [last])[..|spent|] == spent;
      assert (all + [last])[..|all|] == all;
    }
  }

  /** One more transaction moves the budget's spending by its amount exactly
      when it is an expense of that category in that month. */
  lemma BudgetSpentOneMore(txs: seq<Transaction>, t: Transaction, budget: Budget, year: int, month: Month)
    ensures BudgetSpent(txs + [t], budget, year, month)
         == BudgetSpent(txs, budget, year, month)
            + (if CountsAgainst(t, budget.categoryId, year, month) then t.amount else 0.0)
  {
    var spent := CategoryMonthExpenses(txs, budget.categoryId, year, month);
    assert (txs + [t])[..|txs|] == txs;
    assert CategoryMonthExpenses(txs + [t], budget.categoryId, year, month)
        == if CountsAgainst(t, budget.categoryId, year, month) then spent + [t] else spent;
    assert (spent + [t])[..|spent|] == spent;
  }

  /** Appending transactions to the ledger raises a budget's spending by
      exactly the appended expenses of its category and month. */
  lemma {:induction false} BudgetSpentAppend(txs: seq<Transaction>, added: seq<Transaction>,
                                            budget: Budget, year: int, month: Month)
    ensures BudgetSpent(txs + added, budget, year, month)
         == BudgetSpent(txs, budget, year, month) + BudgetSpent(added, budget, year, month)
    decreases |added|
  {
    if added == [] {
      assert txs + added == txs;
    } else {
      var init, last := added[..|added| - 1], added[|added| - 1];
      assert added == init + [last];
      assert txs + added == (txs + init) + [last];
      BudgetSpentAppend(txs, init, budget, year, month);
      BudgetSpentOneMore(txs + init, last, budget, year, month);
      BudgetSpentOneMore(init, last, budget, year, month);
    }
  }

  /** The figures of a budget card (`loadBudgets`): percentage is 0 for a
      budget amount of 0 or less. */
  function BudgetProgress(budget: Budget, spent: real): (s: BudgetStatus)
    ensures s.spent == spent
    ensures s.remaining == budget.amount - spent
    ensures s.remaining < 0.0 <==> spent > budget.amount
    ensures budget.amount <= 0.0 ==> s.percentage == 0.0
    ensures budget.amount > 0.0 ==> s.percentage * budget.amount == spent * 100.0
    ensures budget.amount > 0.0 ==> (s.percentage > 100.0 <==> s.remaining < 0.0)
    ensures budget.amount > 0.0 ==> (s.percentage == 100.0 <==> s.remaining == 0.0)
    ensures budget.amount > 0.0 ==> (s.percentage >= 0.0 <==> spent >= 0.0)
  {
    if budget.amount > 0.0 then BudgetStatus(spent, PercentOf(spent, budget.amount), budget.amount - spent)
    else BudgetStatus(spent, 0.0, budget.amount - spent)
  }

  /** A budget evaluated against the ledger for the reference month. */
  function EvaluateBudget(txs: seq<Transaction>, budget: Budget, year: int, month: Month): (s: BudgetStatus)
    ensures s == BudgetProgress(budget, BudgetSpent(txs, budget, year, month))
    ensures NonNegativeAmounts(txs) ==> s.remaining <= budget.amount
  {
    BudgetProgress(budget, BudgetSpent(txs, budget, year, month))
  }

  // ---------------------------------------------------------------------
  // The budget list.

  /** The invariant the submit form keeps: no two budgets share a category. */
  predicate AtMostOnePerCategory(budgets: seq<Budget>) {
    forall i, j :: 0 <= i < j < |budgets| ==> budgets[i].categoryId != budgets[j].categoryId
  }

  /** `budgets.findIndex(b => b.categoryId === categoryId)`. */
  function BudgetIndex(budgets: seq<Budget>, categoryId: int): (i: int)
    ensures -1 <= i < |budgets|
    ensures 0 <= i ==> budgets[i].categoryId == categoryId
                       && forall j :: 0 <= j < i ==> budgets[j].categoryId != categoryId
    ensures i == -1 <==> forall b :: b in budgets ==> b.categoryId != categoryId
  {
    FindIndex(budgets, (b: Budget) => b.categoryId == categoryId)
  }

  /** `handleBudgetSubmit`: the new budget replaces the first budget of its
      category in place, or is appended when the category has none. */
  function UpsertBudget(budgets: seq<Budget>, budget: Budget): (r: seq<Budget>)
    ensures BudgetIndex(r, budget.categoryId) >= 0 && r[BudgetIndex(r, budget.categoryId)] == budget
    ensures (exists b :: b in budgets && b.categoryId == budget.categoryId) <==> |r| == |budgets|
    ensures (forall b :: b in budgets ==> b.categoryId != budget.categoryId) <==> r == budgets + [budget]
    ensures forall i :: 0 <= i < |budgets| && budgets[i].categoryId != budget.categoryId ==> r[i] == budgets[i]
    ensures forall i :: 0 <= i < |budgets| && i != BudgetIndex(budgets, budget.categoryId) ==> r[i] == budgets[i]
    ensures BudgetIndex(budgets, budget.categoryId) >= 0 ==> r[BudgetIndex(budgets, budget.categoryId)] == budget
    ensures forall b :: b in r ==> b == budget || b in budgets
    ensures AtMostOnePerCategory(budgets) ==> AtMostOnePerCategory(r)
  {
    var i := BudgetIndex(budgets, budget.categoryId);
    if i >= 0 then
      var r := budgets[i := budget];
      assert forall j :: 0 <= j < i ==> r[j] == budgets[j];
      assert r[i] == budget && r[i] in r;
      var k := BudgetIndex(r, budget.categoryId);
      assert k != -1;
      assert !(k < i) && !(i < k);
      assert |r| != |budgets + [budget]|;
      r
    else
      var r := budgets + [budget];
      assert forall j :: 0 <= j < |budgets| ==> r[j] == budgets[j];
      assert BudgetIndex(r, budget.categoryId) == |budgets|;
      r
  }

  /** `deleteBudget`: keep every budget whose id differs. */
  function WithoutBudget(budgets: seq<Budget>, id: int): (r: seq<Budget>)
    ensures forall b :: b in r <==> b in budgets && b.id != id
    ensures AtMostOnePerCategory(budgets) ==> AtMostOnePerCategory(r)
  {
    WithoutKeepsOnePerCategory(budgets, id);
    Filter(budgets, (b: Budget) => b.id != id)
  }

  lemma {:induction false} WithoutKeepsOnePerCategory(budgets: seq<Budget>, id: int)
    ensures AtMostOnePerCategory(budgets) ==> AtMostOnePerCategory(Filter(budgets, (b: Budget) => b.id != id))
    decreases |budgets|
  {
    if budgets != [] && AtMostOnePerCategory(budgets) {
      var init, last := budgets[..|budgets| - 1], budgets[|budgets| - 1];
      assert budgets == init + [last];
      WithoutKeepsOnePerCategory(init, id);
      var kept := Filter(init, (b: Budget) => b.id != id);
      if last.id != id {
        forall b | b in kept ensures b.categoryId != last.categoryId {
          assert b in init;
          var k :| 0 <= k < |init| && init[k] == b;
          assert budgets[k] == b && budgets[|budgets| - 1] == last;
        }
        AppendKeepsOnePerCategory(kept, last);
      }
    }
  }

  lemma AppendKeepsOnePerCategory(budgets: seq<Budget>, budget: Budget)
    requires AtMostOnePerCategory(budgets)
    requires forall b :: b in budgets ==> b.categoryId != budget.categoryId
    ensures AtMostOnePerCategory(budgets + [budget])
  {
    var r := budgets + [budget];
    forall i, j | 0 <= i < j < |r| ensures r[i].categoryId != r[j].categoryId {
      if j == |budgets| {
        assert r[i] in budgets;
      } else {
        assert r[i] == budgets[i] && r[j] == budgets[j];
      }
    }
  }

  /** A budget never shows more spending than the dashboard's expenses for
      the same month, when amounts are non-negative. */
  lemma BudgetWithinDashboardExpenses(txs: seq<Transaction>, budget: Budget, year: int, month: Month)
    requires NonNegativeAmounts(txs)
    ensures BudgetSpent(txs, budget, year, month) <= CalculateStats(txs, year, month).totalExpenses
  {
    MonthExpensesOfMonth(txs, year, month);
  }
}
