/** The goal evaluator and the goal list. Progress is always recomputed
    from the ledger; nothing about it is stored. */
module Goals {
  import opened Calendar
  import opened Seqs
  import opened Ledger
  import opened Stats

  /** A goal's type; any other text selects no strategy and leaves progress at 0. */
  datatype GoalKind = Savings | IncomeIncrease | ExpenseReduction | UnknownGoal(name: string)

  /** The `switch (goal.type)` cases: the three known names, and anything else. */
  function ParseGoalKind(text: string): (k: GoalKind)
    ensures k == Savings <==> text == "savings"
    ensures k == IncomeIncrease <==> text == "income_increase"
    ensures k == ExpenseReduction <==> text == "expense_reduction"
    ensures k.UnknownGoal? ==> k.name == text
  {
    if text == "savings" then Savings
    else if text == "income_increase" then IncomeIncrease
    else if text == "expense_reduction" then ExpenseReduction
    else UnknownGoal(text)
  }

  datatype Goal = Goal(id: int, name: string, kind: GoalKind, target: real, deadline: Date, createdAt: string)

  /** What a goal card shows: the clamped current amount and the percentage. */
  datatype GoalProgress = GoalProgress(current: real, percentage: real)

  /** A transaction dated on or before the reference day. */
  predicate DatedBy(t: Transaction, today: Date) {
    DayNumber(t.date) <= DayNumber(today)
  }

  /** The transactions of one kind dated on or before the reference day. */
  function KindUpTo(txs: seq<Transaction>, kind: Kind, today: Date): (r: seq<Transaction>)
    ensures forall t :: t in r <==> t in txs && t.kind == kind && DatedBy(t, today)
  {
    Filter(txs, (t: Transaction) => t.kind == kind && DatedBy(t, today))
  }

  /** The income of the reference month, in one filter. */
  function MonthIncome(txs: seq<Transaction>, year: int, month: Month): (r: seq<Transaction>)
    ensures forall t :: t in r <==> t in txs && t.kind == Income && t.date.year == year && t.date.month == month
  {
    Filter(txs, (t: Transaction) => t.kind == Income && t.date.year == year && t.date.month == month)
  }

  /** The unclamped current amount of `calculateGoalProgress`, by strategy. */
  function RawGoalCurrent(txs: seq<Transaction>, goal: Goal, today: Date): real {
    match goal.kind
    case Savings =>
      Total(KindUpTo(txs, Income, today)) - Total(KindUpTo(txs, Expense, today))
    case IncomeIncrease =>
      Total(MonthIncome(txs, today.year, today.month))
    case ExpenseReduction =>
      goal.target - Total(MonthExpenses(txs, today.year, today.month))
    case UnknownGoal(_) =>
      0.0
  }

  /** The two figures of a goal card from the unclamped current amount: the
      displayed amount is clamped at 0, the percentage is not. */
  function ProgressFigures(raw: real, target: real): (p: GoalProgress)
    ensures p.current >= 0.0 && p.current >= raw
    ensures p.current == 0.0 || p.current == raw
    ensures target <= 0.0 ==> p.percentage == 0.0
    ensures target > 0.0 ==> p.percentage * target == raw * 100.0
    ensures target > 0.0 ==> (p.percentage < 0.0 <==> raw < 0.0)
  {
    var shown := if raw > 0.0 then raw else 0.0;
    if target > 0.0 then GoalProgress(shown, PercentOf(raw, target))
    else GoalProgress(shown, 0.0)
  }

  /** `calculateGoalProgress`, with the reference day as a parameter. */
  function CalculateGoalProgress(txs: seq<Transaction>, goal: Goal, today: Date): (p: GoalProgress)
    ensures p.current >= 0.0
    ensures goal.target > 0.0 && goal.kind == ExpenseReduction ==>
      (p.percentage < 0.0 <==> Total(MonthExpenses(txs, today.year, today.month)) > goal.target)
    ensures goal.kind.UnknownGoal? ==> p == GoalProgress(0.0, 0.0)
    ensures p == ProgressFigures(RawGoalCurrent(txs, goal, today), goal.target)
    ensures goal.kind == Savings ==> p == ProgressFigures(NetUpTo(txs, today), goal.target)
    ensures goal.kind == IncomeIncrease ==>
      p == ProgressFigures(CalculateStats(txs, today.year, today.month).totalIncome, goal.target)
    ensures goal.kind == ExpenseReduction ==>
      p == ProgressFigures(goal.target - CalculateStats(txs, today.year, today.month).totalExpenses, goal.target)
  {
    RawGoalByKind(txs, goal, today);
    ProgressFigures(RawGoalCurrent(txs, goal, today), goal.target)
  }

  /** Net of the transactions dated up to a day, computed with signs. */
  function NetUpTo(txs: seq<Transaction>, today: Date): real
    decreases |txs|
  {
    if txs == [] then 0.0
    else
      var last := txs[|txs| - 1];
      NetUpTo(txs[..|txs| - 1], today)
        + (if !DatedBy(last, today) then 0.0 else if last.kind == Income then last.amount else -last.amount)
  }

  /** A savings goal's raw amount is the signed net of everything dated up to today. */
  lemma SavingsIsNetToDate(txs: seq<Transaction>, goal: Goal, today: Date)
    requires goal.kind == Savings
    ensures RawGoalCurrent(txs, goal, today) == NetUpTo(txs, today)
  {
    IncomeMinusExpensesUpTo(txs, today);
  }

  lemma {:induction false} IncomeMinusExpensesUpTo(txs: seq<Transaction>, today: Date)
    ensures Total(KindUpTo(txs, Income, today)) - Total(KindUpTo(txs, Expense, today)) == NetUpTo(txs, today)
    decreases |txs|
  {
    if txs != [] {
      var init, last := txs[..|txs| - 1], txs[|txs| - 1];
      assert txs == init + [last];
      IncomeMinusExpensesUpTo(init, today);
      var inc := KindUpTo(init, Income, today);
      var exp := KindUpTo(init, Expense, today);
      assert KindUpTo(txs, Income, today)
          == if last.kind == Income && DatedBy(last, today) then inc + [last] else inc;
      assert KindUpTo(txs, Expense, today)
          == if last.kind == Expense && DatedBy(last, today) then exp + [last] else exp;
      TotalAppend(inc, [last]);
      TotalAppend(exp, [last]);
      assert Total([last]) == last.amount by { assert [last][..0] == []; }
    }
  }

  /** With non-negative amounts an income goal never reports negative progress. */
  lemma IncomeGoalNonNegative(txs: seq<Transaction>, goal: Goal, today: Date)
    requires goal.kind == IncomeIncrease && goal.target > 0.0
    requires NonNegativeAmounts(txs)
    ensures CalculateGoalProgress(txs, goal, today).percentage >= 0.0
  {
    TotalOfFilterAtMost(txs, (t: Transaction) => t.kind == Income && t.date.year == today.year && t.date.month == today.month);
  }

  /** An expense-reduction goal of 500 with 700 spent this month shows 0 as
      its current amount and -40 percent. */
  lemma OverspentReductionGoal(t: Transaction, goal: Goal, today: Date)
    requires t.kind == Expense && t.amount == 700.0 && t.date.year == today.year && t.date.month == today.month
    requires goal.kind == ExpenseReduction && goal.target == 500.0
    ensures RawGoalCurrent([t], goal, today) == -200.0
    ensures CalculateGoalProgress([t], goal, today) == GoalProgress(0.0, -40.0)
  {
    assert MonthExpenses([t], today.year, today.month) == [t] by {
      assert [t][..0] == [];
    }
    assert Total([t]) == 700.0 by {
      assert [t][..0] == [];
    }
  }

  /** `deleteGoal`: keep every goal whose id differs. */
  function WithoutGoal(goals: seq<Goal>, id: int): (r: seq<Goal>)
    ensures forall g :: g in r <==> g in goals && g.id != id
    ensures |r| <= |goals|
  {
    Filter(goals, (g: Goal) => g.id != id)
  }

  /** The month's income in one filter is the income among the month's transactions. */
  lemma {:induction false} MonthIncomeOfMonth(txs: seq<Transaction>, year: int, month: Month)
    ensures MonthIncome(txs, year, month) == OfKind(InMonth(txs, year, month), Income)
    decreases |txs|
  {
    if txs != [] {
      var init, last := txs[..|txs| - 1], txs[|txs| - 1];
      MonthIncomeOfMonth(init, year, month);
      var a := InMonth(init, year, month);
      assert (a + [last])[..|a|] == a;
    }
  }

  /** An income goal measures the income the dashboard shows for the current month. */
  lemma IncomeGoalIsDashboardIncome(txs: seq<Transaction>, goal: Goal, today: Date)
    requires goal.kind == IncomeIncrease
    ensures RawGoalCurrent(txs, goal, today) == CalculateStats(txs, today.year, today.month).totalIncome
  {
    MonthIncomeOfMonth(txs, today.year, today.month);
  }

  /** An expense-reduction goal is its target less the expenses the dashboard
      shows for the current month. */
  lemma ReductionGoalUsesDashboardExpenses(txs: seq<Transaction>, goal: Goal, today: Date)
    requires goal.kind == ExpenseReduction
    ensures RawGoalCurrent(txs, goal, today) == goal.target - CalculateStats(txs, today.year, today.month).totalExpenses
  {
    MonthExpensesOfMonth(txs, today.year, today.month);
  }

  /** The raw amount of each strategy, stated through the dashboard's figures
      and the signed net to date. */
  lemma RawGoalByKind(txs: seq<Transaction>, goal: Goal, today: Date)
    ensures goal.kind == Savings ==> RawGoalCurrent(txs, goal, today) == NetUpTo(txs, today)
    ensures goal.kind == IncomeIncrease ==>
      RawGoalCurrent(txs, goal, today) == CalculateStats(txs, today.year, today.month).totalIncome
    ensures goal.kind == ExpenseReduction ==>
      RawGoalCurrent(txs, goal, today) == goal.target - CalculateStats(txs, today.year, today.month).totalExpenses
  {
    match goal.kind
    case Savings => SavingsIsNetToDate(txs, goal, today);
    case IncomeIncrease => IncomeGoalIsDashboardIncome(txs, goal, today);
    case ExpenseReduction => ReductionGoalUsesDashboardExpenses(txs, goal, today);
    case UnknownGoal(_) =>
  }
}
