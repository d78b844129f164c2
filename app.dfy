/** The application object: the five collections the engine keeps, and the
    operations that change them in place. Each method is proved against the
    functions of the module that owns the collection. Confirmation prompts,
    saving to storage and re-rendering are not part of this model; a delete
    is the path the user confirmed. */
module App {
  import opened Calendar
  import opened Seqs
  import opened Ledger
  import opened Budgets
  import opened Goals
  import opened Scheduler

  class MRMApp {
    var transactions: seq<Transaction>
    var categories: Categories
    var budgets: seq<Budget>
    var goals: seq<Goal>
    var recurring: seq<RecurringRule>

    /** The application over the collections loaded at start-up. As `init()`
        does, it then runs the scheduler once on `today`, so the rules due at
        start-up have already added their transactions. */
    constructor(transactions: seq<Transaction>, categories: Categories, budgets: seq<Budget>,
                goals: seq<Goal>, recurring: seq<RecurringRule>,
                today: Date, ids: seq<int>, now: string)
      requires |recurring| <= |ids|
      ensures this.transactions == transactions + Generated(recurring, today, ids, now)
      ensures this.recurring == Advance(recurring, today)
      ensures this.categories == categories && this.budgets == budgets && this.goals == goals
      ensures forall i :: 0 <= i < |this.recurring| ==> !ShouldProcessRecurring(this.recurring[i], today)
    {
      this.transactions := transactions;
      this.categories := categories;
      this.budgets := budgets;
      this.goals := goals;
      this.recurring := recurring;
      new;
      var _ := ProcessRecurringTransactions(today, ids, now);
      NothingDueAfterRun(recurring, today);
    }

    /** `processRecurringTransactions` on `today`: every due rule appends its
        transaction and is marked as processed today; `processed` counts them.
        The rule at position `i` takes the supplied id `ids[i]` and every
        generated transaction the creation time `now`. */
    method ProcessRecurringTransactions(today: Date, ids: seq<int>, now: string) returns (processed: nat)
      requires |recurring| <= |ids|
      modifies this
      ensures transactions == old(transactions) + Generated(old(recurring), today, ids, now)
      ensures recurring == Advance(old(recurring), today)
      ensures processed == |transactions| - |old(transactions)|
      ensures categories == old(categories) && budgets == old(budgets) && goals == old(goals)
    {
      ghost var rules := recurring;
      processed := 0;
      var i := 0;
      while i < |recurring|
        invariant |recurring| == |rules| && 0 <= i <= |rules|
        invariant transactions == old(transactions) + Generated(rules[..i], today, ids, now)
        invariant forall j :: 0 <= j < i ==> recurring[j] == Step(rules[j], today)
        invariant forall j :: i <= j < |rules| ==> recurring[j] == rules[j]
        invariant processed == |transactions| - |old(transactions)|
        invariant categories == old(categories) && budgets == old(budgets) && goals == old(goals)
      {
        var rule := recurring[i];
        RunOneMore(rules, i, today, ids, now);
        if ShouldProcessRecurring(rule, today) {
          transactions := transactions + [Instance(rule, today, ids[i], now)];
          recurring := recurring[i := Fired(rule, today)];
          processed := processed + 1;
        }
        i := i + 1;
      }
      assert rules[..i] == rules;
      AdvanceSteps(rules, today);
    }

    /** `handleTransactionSubmit`: with no edit id the transaction is appended;
        with one, it replaces the transaction of that id in place. An edit id
        that is not in the ledger changes nothing and reports failure (the
        source throws before changing anything). */
    method SubmitTransaction(editId: Option<int>, form: TransactionForm, freshId: int, now: string) returns (ok: bool)
      modifies this
      ensures ok <==> SaveTransaction(old(transactions), editId, form, freshId, now).Some?
      ensures ok ==> transactions == SaveTransaction(old(transactions), editId, form, freshId, now).value
      ensures !ok ==> transactions == old(transactions)
      ensures categories == old(categories) && budgets == old(budgets)
      ensures goals == old(goals) && recurring == old(recurring)
    {
      match editId {
        case None =>
          transactions := transactions + [FromForm(form, freshId, now)];
          ok := true;
        case Some(id) =>
          var found := GetTransactionById(transactions, id);
          if found.None? {
            ok := false;
          } else {
            var index := TransactionIndex(transactions, id);
            transactions := transactions[index := FromForm(form, id, found.value.createdAt)];
            ok := true;
          }
      }
    }

    /** `deleteTransaction`, confirmed. */
    method DeleteTransaction(id: int)
      modifies this
      ensures transactions == WithoutTransaction(old(transactions), id)
      ensures categories == old(categories) && budgets == old(budgets)
      ensures goals == old(goals) && recurring == old(recurring)
    {
      transactions := WithoutTransaction(transactions, id);
    }

    /** `handleBudgetSubmit`: the budget replaces the one of its category in
        place, or is appended when the category has none; no category ever
        gets a second budget. */
    method SubmitBudget(budget: Budget)
      modifies this
      ensures budgets == UpsertBudget(old(budgets), budget)
      ensures AtMostOnePerCategory(old(budgets)) ==> AtMostOnePerCategory(budgets)
      ensures transactions == old(transactions) && categories == old(categories)
      ensures goals == old(goals) && recurring == old(recurring)
    {
      var existing := BudgetIndex(budgets, budget.categoryId);
      if existing >= 0 {
        budgets := budgets[existing := budget];
      } else {
        budgets := budgets + [budget];
      }
    }

    /** `deleteBudget`, confirmed. */
    method DeleteBudget(id: int)
      modifies this
      ensures budgets == WithoutBudget(old(budgets), id)
      ensures AtMostOnePerCategory(old(budgets)) ==> AtMostOnePerCategory(budgets)
      ensures transactions == old(transactions) && categories == old(categories)
      ensures goals == old(goals) && recurring == old(recurring)
    {
      budgets := WithoutBudget(budgets, id);
    }

    /** `handleCategorySubmit`: the category joins the partition of its type. */
    method AddCategory(kind: Kind, category: Category)
      modifies this
      ensures kind == Income ==> categories == Categories(old(categories).income + [category], old(categories).expense)
      ensures kind == Expense ==> categories == Categories(old(categories).income, old(categories).expense + [category])
      ensures transactions == old(transactions) && budgets == old(budgets)
      ensures goals == old(goals) && recurring == old(recurring)
    {
      if kind == Income {
        categories := categories.(income := categories.income + [category]);
      } else {
        categories := categories.(expense := categories.expense + [category]);
      }
    }

    /** `deleteCategory`, confirmed: the id leaves both partitions; the
        transactions of that category are kept. */
    method DeleteCategory(id: int)
      modifies this
      ensures categories == WithoutCategory(old(categories), id)
      ensures transactions == old(transactions) && budgets == old(budgets)
      ensures goals == old(goals) && recurring == old(recurring)
    {
      categories := WithoutCategory(categories, id);
    }

    /** `handleGoalSubmit`. */
    method AddGoal(goal: Goal)
      modifies this
      ensures goals == old(goals) + [goal]
      ensures transactions == old(transactions) && categories == old(categories)
      ensures budgets == old(budgets) && recurring == old(recurring)
    {
      goals := goals + [goal];
    }

    /** `deleteGoal`, confirmed. */
    method DeleteGoal(id: int)
      modifies this
      ensures goals == WithoutGoal(old(goals), id)
      ensures transactions == old(transactions) && categories == old(categories)
      ensures budgets == old(budgets) && recurring == old(recurring)
    {
      goals := WithoutGoal(goals, id);
    }

    /** `handleRecurringSubmit`: a new rule, never processed, is appended. */
    method AddRecurring(form: RecurringForm, id: int, now: string)
      modifies this
      ensures recurring == old(recurring) + [NewRule(form, id, now)]
      ensures transactions == old(transactions) && categories == old(categories)
      ensures budgets == old(budgets) && goals == old(goals)
    {
      recurring := recurring + [NewRule(form, id, now)];
    }

    /** `deleteRecurring`, confirmed. */
    method DeleteRecurring(id: int)
      modifies this
      ensures recurring == WithoutRule(old(recurring), id)
      ensures transactions == old(transactions) && categories == old(categories)
      ensures budgets == old(budgets) && goals == old(goals)
    {
      recurring := WithoutRule(recurring, id);
    }
  }

  /** Two runs on the same day append what one run appends: the second run
      generates nothing and leaves the rules as the first left them. */
  method RunTwiceSameDay(app: MRMApp, today: Date, ids: seq<int>, now: string)
      returns (first: nat, second: nat)
    requires |app.recurring| <= |ids|
    modifies app
    ensures second == 0
    ensures first == |Generated(old(app.recurring), today, ids, now)|
    ensures app.transactions == old(app.transactions) + Generated(old(app.recurring), today, ids, now)
    ensures app.recurring == Advance(old(app.recurring), today)
  {
    first := app.ProcessRecurringTransactions(today, ids, now);
    SecondRunSameDay(old(app.recurring), today, ids, now);
    second := app.ProcessRecurringTransactions(today, ids, now);
  }
}
