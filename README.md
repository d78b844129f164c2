# MRM ERP finance engine in Dafny

This project models the finance engine of MRM ERP, a single-page personal
finance application. The whole engine lives in one class, `MRMApp`, in
`script.js`. The model covers:

- **The recurring scheduler.** It decides when a recurring rule is due
  (`shouldProcessRecurring`). A run over the rule list
  (`processRecurringTransactions`) appends one transaction per due rule and
  stamps that rule with today's date.
- **The aggregators.** These are:
  - the dashboard's monthly figures, with their change against the previous
    month (`calculateStats`, `calculatePercentageChange`);
  - the budget figures (`calculateBudgetSpent` and the card's percentage and
    remaining amount);
  - goal progress (`calculateGoalProgress`);
  - the report figures for a month, quarter or year (`getReportStats`,
    `getTransactionsForPeriod`);
  - the expense breakdown by category name (`getCategoryExpenseData`);
  - the twelve-month trend (`getMonthlyTrendData`).
- **The collection updates.** These are:
  - adding or replacing a transaction;
  - deleting a transaction, budget, goal or recurring rule;
  - the budget upsert by category;
  - adding and deleting categories;
  - lookup by id;
  - the transaction list filter.

The modules follow the engine's parts:

| module | file | contents |
|---|---|---|
| `Calendar` | `calendar.dfy` | dates, day numbers, month arithmetic, ISO string order |
| `Seqs` | `seqs.dfy` | `filter`, `findIndex` and `find` as functions |
| `Ledger` | `ledger.dfy` | transactions and categories, sums, lookups, ledger updates, the list filter |
| `Budgets` | `budgets.dfy` | budget spending, budget card figures, the budget list |
| `Goals` | `goals.dfy` | goal progress, the goal list |
| `Stats` | `stats.dfy` | dashboard figures, reports, breakdown, trend |
| `Scheduler` | `scheduler.dfy` | recurring rules, when a rule is due, what a run generates |
| `App` | `app.dfy` | the `MRMApp` class: five collections as fields, updated in place |

The pure parts are functions and lemmas. The loops and the in-place updates
are methods:
- `MRMApp.ProcessRecurringTransactions`;
- the submit and delete methods;
- `Stats.CategoryExpenseData` and `Stats.MonthlyTrend`.

Each method is proved against the functions that specify it.

Some things are parameters rather than values the model creates itself:
- the reference date (`new Date()`);
- the creation timestamp;
- the ids the source draws from `Date.now()`.

A stored date is a `Calendar.Date` with a month from 0 to 11, as
`getMonth()` returns it. Its position on the time line is
`Calendar.DayNumber`. Amounts are real numbers.

## Model

| member | source | states |
|---|---|---|
| Scheduler.ParseFrequency | script.js:1441-1450 | "daily", "weekly", "monthly" and "yearly" select their cases. Only any other text becomes an unknown frequency, which keeps the text. |
| Scheduler.IntervalDays | script.js:1441-1452 | The daily, weekly, monthly and yearly intervals are 1, 7, 30 and 365 days. Any other frequency has no interval. |
| Scheduler.DueCharacterisation | script.js:1428-1453 | `ShouldProcessRecurring`, the due check: a rule is never due before its start date. Before its first firing, it is due exactly when it has a readable start date on or before today. After that, it is due exactly when its interval has passed since the last firing. A rule of unknown frequency is never due again. A due rule last fired on an earlier day. |
| Scheduler.Instance | script.js:1405-1414 | The generated transaction copies the rule's type, amount and category. It is dated today, its description gets " (Auto)" appended, and its notes are the automatic-generation text. |
| Scheduler.Fired | script.js:1417 | A rule that fired has today as its last-processed date, and nothing else changes. |
| Scheduler.Advance | script.js:1403-1420 | A run keeps the number of rules. |
| Scheduler.Step | script.js:1404-1417 | During a run, a rule gets today as its last-processed date exactly when it was due. Nothing else about it changes, and it is not due again that day. |
| Scheduler.AdvanceSteps | script.js:1403-1420 | A run changes each rule on its own: a due rule is stamped with today and every other rule is untouched. |
| Scheduler.Generated | script.js:1403-1420 | A run appends at most one transaction per rule. |
| Scheduler.RunOneMore | script.js:1403-1420 | Visiting one more rule appends that rule's transaction last, if the rule is due. |
| Scheduler.DueIndices | script.js:1404 | The due rules' positions are all in range and in increasing order, and no due position is missing. |
| Scheduler.GeneratedPerDueRule | script.js:1403-1419 | A run appends exactly one transaction per due rule, in rule order, and each one is that rule's instance. |
| Scheduler.GeneratedCopiesRules | script.js:1405-1414 | Every generated transaction is dated today and copies the type, amount and category of a rule that was due. |
| Scheduler.FiredIsNotDueSameDay | script.js:1417-1449 | A rule that fired today is not due again today. |
| Scheduler.NothingDueAfterRun | script.js:1417-1449 | After a run, no rule is due on the same day. |
| Scheduler.NothingDueGeneratesNothing | script.js:1403-1420 | When no rule is due, a run appends nothing. |
| Scheduler.SecondRunSameDay | script.js:1399-1426 | Idempotence within a day: a second run on the same day appends nothing and changes no rule. |
| Scheduler.NextFiring | script.js:1439-1452 | After firing today, a rule is next due exactly on the days that lie a whole interval later. A rule of unknown frequency is never due again. |
| Scheduler.WeeklyRuleExample | script.js:1439-1446 | A weekly rule last fired on 1 January is not due on 7 January and is due on 8 January. |
| Scheduler.MonthlyRuleFirstDay | script.js:1435-1437 | A new monthly rule fires on its start day, and a second run that day generates nothing. |
| Scheduler.WithoutRule | script.js:1392 | Deleting a rule keeps exactly the rules whose id differs. |
| Scheduler.NewRule | script.js:1370-1380 | A submitted rule copies the form's fields and has never been processed. |
| Scheduler.NewRuleFirstDue | script.js:1433-1437 | A new rule first fires on the first run on or after its start date, and never if it has no readable start date. |
| App.MRMApp.constructor | script.js:19-42 | The application starts from the collections it was loaded with, then runs the scheduler once on today, as `init()` does. The ledger gains exactly the transactions `Generated` describes, the rules become `Advance` of the loaded rules, and no rule is due again that day. Categories, budgets and goals are as loaded. |
| App.MRMApp.ProcessRecurringTransactions | script.js:1399-1426 | The run appends to the ledger exactly what `Generated` describes and replaces the rules by `Advance`. The count equals the number of appended transactions. Categories, budgets and goals are unchanged. |
| App.RunTwiceSameDay | script.js:1399-1426 | Running the scheduler twice on the same day reports 0 the second time and leaves the state one run leaves. |
| App.MRMApp.SubmitTransaction | script.js:962-982 | Saving succeeds exactly when `SaveTransaction` does, and then the ledger is its result. When it fails, the ledger is unchanged. The other collections are unchanged. |
| App.MRMApp.DeleteTransaction | script.js:1016-1018 | The ledger becomes `WithoutTransaction` of the old ledger, and the other collections are unchanged. |
| App.MRMApp.SubmitBudget | script.js:1099-1115 | The budget list becomes `UpsertBudget` of the old list. At most one budget per category stays true. |
| App.MRMApp.DeleteBudget | script.js:1123-1125 | The budget list becomes `WithoutBudget` of the old list. At most one budget per category stays true. |
| App.MRMApp.AddCategory | script.js:1184-1195 | The category is appended to the partition of its type. The other partition is unchanged. |
| App.MRMApp.DeleteCategory | script.js:1204-1207 | The category id leaves both partitions. Transactions are kept. |
| App.MRMApp.AddGoal | script.js:1302-1314 | The goal is appended. |
| App.MRMApp.DeleteGoal | script.js:1321-1323 | The goal list becomes `WithoutGoal` of the old list. |
| App.MRMApp.AddRecurring | script.js:1367-1382 | A never-processed rule built from the form is appended. |
| App.MRMApp.DeleteRecurring | script.js:1389-1392 | The rule list becomes `WithoutRule` of the old list. |
| Stats.Round | script.js:473 | `Math.round` gives the integer within half a unit, with halves rounded up. |
| Stats.PercentageChange | script.js:487-490 | From a previous value of 0, the change is 100 for any rise and 0 otherwise. Otherwise it is the rounded relative change in percent. It is 0 for equal values and has the sign of the change for a positive previous value. |
| Stats.SavingsRate | script.js:472-473 | The savings rate is 0 without income. Otherwise it is net / income × 100 rounded as `Math.round` rounds, so within half a point of the exact rate. It is at most 100 when the net is at most the income, and at least 0 when the net is non-negative. |
| Stats.Summarize | script.js:452-473 | Income and expenses are the sums of each type, and the net is the signed sum of the whole list. |
| Stats.CalculateStats | script.js:436-485 | The month's income, expenses and net are the sums over that month, with net equal to income minus expenses. Each change compares with the previous calendar month, December of the previous year for January. The savings rate is `SavingsRate` of the month's income and net, and with non-negative amounts it is at most 100. |
| Stats.EmptyLedgerStats | script.js:436-490 | An empty ledger gives all-zero figures. |
| Stats.JanuaryComparesWithDecember | script.js:439-440 | January's savings change is taken against December of the previous year. |
| Stats.ParsePeriod | script.js:1653-1664 | "month", "quarter" and "year" select their cases. Only any other text becomes the fallback period. |
| Stats.PeriodStart | script.js:1648-1666 | The period starts on the first day of the current month, quarter or year. Any other period name falls back to the month. |
| Stats.TransactionsForPeriod | script.js:1648-1669 | It keeps exactly the transactions dated on or after the period's start, later dates included. Every transaction of the current month is kept. |
| Stats.PeriodCoversCurrentMonth | script.js:1650-1666 | Every day of the current month lies on or after the start of any period. |
| Stats.PeriodsNest | script.js:1653-1663 | A month report's transactions are in the quarter report, and the quarter report's are in the year report. |
| Stats.Average | script.js:1643-1644 | The average is 0 for no transactions. Otherwise the average times the count is the total. |
| Stats.GetReportStats | script.js:1628-1646 | The report figures are the sums, the count and the averages over the period's transactions. The net is income minus expenses. |
| Stats.CategoryShownAs | script.js:747-749 | `CategoryLabel` and `CategoryColor`: an expense is shown under the name and colour of the first category with its id, income categories first. An id no category has is shown as "Other" in grey. |
| Stats.LabelOccursMeans | script.js:745-748 | A name is in the breakdown's key set exactly when some visited expense is shown under it. |
| Stats.SeqSumBump | script.js:753 | Adding to one entry raises the sum of the entries by the same amount. |
| Stats.TotalsAddLabel | script.js:750-753 | A name met for the first time gets an entry equal to the expense's amount. |
| Stats.TotalsBump | script.js:753 | A name met again has the expense's amount added to its entry, and no other entry changes. |
| Stats.ColorsOneMore | script.js:750-752 | A name keeps the colour of its first expense. |
| Stats.PositionOf | script.js:750 | It gives the position of a key in the insertion-ordered key list, or -1 exactly when the key is absent. |
| Stats.VisitExpense | script.js:745-754 | One iteration of the loop keeps the breakdown invariant: the names are those met so far, in order of first appearance and without repeats, and each carries its total and first colour. |
| Stats.VisitNewName | script.js:750-753 | A name met for the first time is appended with the expense's amount and the category's colour, and the invariant still holds. |
| Stats.VisitKnownName | script.js:753 | A name met again keeps its place and colour and has the amount added to its total, and the invariant still holds. |
| Stats.CategoryExpenseData | script.js:733-761 | The breakdown of the month's expenses lists each category name once, in order of first appearance (`LabelOrder`, the order `Object.keys` gives), with unknown categories under "Other". Each name's total is that name's expenses, the totals add up to all the month's expenses, and each colour is the one recorded when the name was first met. |
| Stats.MonthsBack | script.js:706-708 | Going back n months lands n places earlier on the running month index. |
| Stats.MonthsBackStep | script.js:706-708 | One more month back is the previous calendar month. |
| Stats.MonthsBackOne | script.js:706-708 | One month back is the previous calendar month. |
| Stats.MonthsBackDistinct | script.js:706-708 | Different numbers of months back give different months. |
| Stats.SetMonthBack | script.js:706-708 | The month the source's `setMonth` lands on matches going back i months whenever today's day is at most 28. |
| Stats.SetMonthBackRepeatsMarch | script.js:706-708 | On 31 March, going back one month with `setMonth` lands in March again, so February is skipped. |
| Stats.MonthlyTrend | script.js:701-731 | The trend has twelve points, oldest first. Point k is the month 11-k months back, with its short name and its income and expense totals. |
| Stats.TrendEndsWithCurrentMonth | script.js:701-731 | The last trend point shows the dashboard's income and expenses for the current month. |
| Stats.TrendPreviousPointIsComparedMonth | script.js:701-731 | The point before it shows the month the dashboard compares with. |
| Budgets.CategoryMonthExpenses | script.js:1087-1093 | It keeps exactly the transactions that `CountsAgainst` the budget: expenses of its category dated in the reference month. |
| Budgets.BudgetSpent | script.js:1083-1096 | With non-negative amounts, the spending is between 0 and the month's total expenses. |
| Budgets.SpentWithinMonthExpenses | script.js:1083-1096 | One category's spending is part of the month's expenses. |
| Budgets.BudgetSpentOneMore | script.js:1083-1096 | One more transaction raises the spending by its amount exactly when it is an expense of that category in that month. |
| Budgets.BudgetSpentAppend | script.js:1083-1096 | Spending over an appended ledger is the sum of the spending over the two parts. |
| Budgets.BudgetProgress | script.js:1044-1046 | The percentage is spent over amount times 100 for a positive amount and 0 otherwise. The remaining amount is the budget amount minus spending. Over 100 percent means a negative remainder. |
| Budgets.EvaluateBudget | script.js:1044-1046 | The card figures come from the spending. With non-negative amounts, the remainder never exceeds the budget. |
| Budgets.BudgetWithinDashboardExpenses | script.js:1083-1096 | With non-negative amounts, a budget's spending never exceeds the expenses the dashboard shows for that month. |
| Budgets.BudgetIndex | script.js:1109 | It gives the first budget of the category, or -1 exactly when there is none. |
| Budgets.UpsertBudget | script.js:1109-1115 | The budget replaces the category's first budget in place, at the position `BudgetIndex` finds, or is appended when the category has none. Every other position keeps its budget, and at most one budget per category stays true. |
| Budgets.WithoutBudget | script.js:1125 | It keeps exactly the budgets whose id differs, and at most one budget per category stays true. |
| Budgets.WithoutKeepsOnePerCategory | script.js:1125 | Deleting keeps at most one budget per category. |
| Budgets.AppendKeepsOnePerCategory | script.js:1112-1114 | Appending a budget for a category without one keeps at most one budget per category. |
| Goals.KindUpTo | script.js:1266-1271 | It keeps exactly the transactions of one type dated on or before today. |
| Goals.MonthIncome | script.js:1274-1281 | It keeps exactly the income of the current month. |
| Goals.MonthIncomeOfMonth | script.js:1274-1281 | The month's income selected in one filter is the income among the month's transactions, as the dashboard selects them. |
| Goals.ParseGoalKind | script.js:1265-1285 | "savings", "income_increase" and "expense_reduction" select their strategies. Only any other text becomes an unknown goal type. |
| Goals.ProgressFigures | script.js:1297-1299 | The shown amount is the raw amount clamped at 0. The percentage is raw over target times 100 for a positive target, otherwise 0, and it is negative exactly when the raw amount is. |
| Goals.CalculateGoalProgress | script.js:1260-1300 | The card is `ProgressFigures` of the strategy's raw amount and the target: the shown amount is max(0, raw) and the percentage raw / target × 100 from the unclamped raw. A savings goal's raw amount is the signed net to date, an income goal's is the dashboard's current-month income, and a reduction goal's is the target less the dashboard's current-month expenses. A reduction goal shows a negative percentage exactly when the month's expenses exceed the target. An unknown goal type shows 0 and 0. |
| Goals.RawGoalByKind | script.js:1260-1294 | The raw amount of each strategy: the signed net of everything to date for savings, the dashboard's current-month income for income increase, and the target less the dashboard's current-month expenses for expense reduction. |
| Goals.IncomeGoalIsDashboardIncome | script.js:1274-1283 | The raw amount of an income goal (`RawGoalCurrent`) is the income the dashboard shows for the current month. |
| Goals.ReductionGoalUsesDashboardExpenses | script.js:1285-1294 | The raw amount of an expense-reduction goal is its target less the expenses the dashboard shows for the current month. |
| Goals.SavingsIsNetToDate | script.js:1266-1272 | A savings goal's raw amount is the signed net of everything dated up to today. |
| Goals.IncomeMinusExpensesUpTo | script.js:1266-1272 | Income minus expenses up to today is the signed net up to today. |
| Goals.IncomeGoalNonNegative | script.js:1274-1282 | With non-negative amounts, an income goal never shows a negative percentage. |
| Goals.OverspentReductionGoal | script.js:1284-1299 | A reduction goal of 500 with 700 spent shows 0 and -40 percent. |
| Goals.WithoutGoal | script.js:1323 | It keeps exactly the goals whose id differs. |
| Ledger.FromForm | script.js:964-975 | The saved transaction carries the form's fields, the given id and the creation time. |
| Ledger.TotalAppend | script.js:454-456 | `Total`, the `reduce` sum of the amounts: the sum over two lists joined is the sum of their sums. |
| Ledger.TotalNonNegative | script.js:454-456 | Non-negative amounts sum to a non-negative total. |
| Ledger.TotalOfFilterAtMost | script.js:454-456 | With non-negative amounts, a filtered list never sums to more than the whole. |
| Ledger.TotalFilterMonotone | script.js:454-456 | With non-negative amounts, a narrower selection never sums to more than a wider one. |
| Ledger.OfKind | script.js:454-455 | It keeps exactly the transactions of one type. |
| Ledger.InMonth | script.js:441-444 | It keeps exactly the transactions dated in that calendar month. |
| Ledger.MonthExpenses | script.js:737-742 | It keeps exactly the expenses dated in that calendar month. |
| Ledger.MonthExpensesOfMonth | script.js:737-742 | The month's expenses selected in one filter are the expenses among the month's transactions, as the dashboard selects them. |
| Ledger.IncomeMinusExpensesIsSignedTotal | script.js:470 | Income minus expenses is the signed sum of the list. |
| Ledger.PercentOf | script.js:1044 | The percentage times the whole is the part times 100. It is negative, over 100 or exactly 100 when the part is negative, above the whole or equal to it. |
| Ledger.CategoryIndex | script.js:1731-1734 | It gives the first position with that id in the income categories followed by the expense categories, or -1 exactly when no category has that id. |
| Ledger.GetCategoryById | script.js:1731-1734 | It returns the category at the first position with that id in the income categories followed by the expense categories, so an income category wins. It returns none exactly when no category has that id. |
| Ledger.GetTransactionById | script.js:1736-1738 | It returns the transaction at the first position with that id, or none exactly when no transaction has it. |
| Ledger.TransactionIndex | script.js:978 | It gives the first position with that id, or -1 exactly when there is none. |
| Ledger.SaveTransaction | script.js:962-982 | A new transaction is appended with a fresh id. An edit replaces the first transaction with that id, keeping its id and creation time, and leaves every other position and the length unchanged. An edit of a missing id fails. |
| Ledger.WithoutTransaction | script.js:1018 | It keeps exactly the transactions whose id differs, and changes nothing when no transaction has that id. |
| Ledger.WithoutCategory | script.js:1206-1207 | It removes the id from both partitions, so a later lookup finds nothing. |
| Ledger.AddedTransactionIsRetrievable | script.js:977-982 | A created transaction is found by its id with its submitted fields, and deleting it restores the ledger. |
| Ledger.EditedTransactionIsRetrievable | script.js:977-982 | After an edit, looking up the id returns the edited transaction with its original creation time. |
| Ledger.FilterTransactions | script.js:899-916 | Applying the filters that are set one after another gives the single filter by all of them. So it keeps exactly the transactions that pass every set filter, in their original order. |
| Calendar.DaysInMonth | script.js:707 | A month has 28 to 31 days. |
| Calendar.DaysBetween | script.js:1439 | The day difference is 0 exactly on the same day, and non-negative exactly when the later date is not before the earlier one. |
| Calendar.StringOrderIsTimeOrder | script.js:900-905 | `StringLe`, the comparison of two "YYYY-MM-DD" texts: for valid dates it agrees with the time order. |
| Calendar.PreviousMonth | script.js:438-439 | January goes back to December of the previous year, and any other month to the month before it. The next month of the result is the original month. |
| Calendar.PreviousMonthIsAdjacent | script.js:438-439 | The previous month ends the day before the month begins. |
| Calendar.MonthStart | script.js:1654-1663 | The first day of a month is a valid date in that month. |
| Calendar.MonthStartOrder | script.js:1654-1663 | An earlier month of the same year starts earlier. |
| Calendar.NextMonth | script.js:707 | December rolls over to January of the next year. |
| Seqs.Filter | script.js:441 | `filter` keeps exactly the elements that pass and never lengthens the list. |
| Seqs.FilterAppend | script.js:441 | Filtering distributes over concatenation, so order is kept. |
| Seqs.FilterCounts | script.js:441 | Each passing element is kept as often as it occurs, and the rest are dropped. |
| Seqs.FilterKeepsAll | script.js:1018 | A filter that every element passes changes nothing. |
| Seqs.FilterSame | script.js:901 | Two tests that agree on every element select the same list. |
| Seqs.FilterThen | script.js:901-915 | Filtering by one test and then by another is filtering once by both. |
| Seqs.FilterStage | script.js:900-915 | One stage of a chain of filters that may be switched off still leaves one filter, by the tests switched on so far. |
| Seqs.FindIndex | script.js:978 | `findIndex` gives the first position that satisfies the test, or -1 exactly when there is none. |
| Seqs.Find | script.js:1733 | `find` gives the element at the first position that satisfies the test, or nothing exactly when there is none. |
| Seqs.FindIndexInPrefix | script.js:1732-1733 | A match in the first part is found before the second part is reached. |

## Left out

- Rendering, the DOM, charts, toasts, modals, navigation and currency or date formatting are not modelled. The trend's month names are a fixed table of short English names.
- Storage is not modelled: `localStorage`, `saveData`, import, export and backup.
- The timers that re-run the scheduler are not modelled. The start-up run in `init()` is modelled by the constructor. The rest of `init()` (event listeners, rendering, PWA set-up) is not modelled.
- The `confirm()` prompts are not modelled. Each delete is the path where the user confirmed.
- Ids and timestamps are parameters. The source takes them from `Date.now()`, and for generated transactions `Date.now() + Math.random()`, which is not an integer.
- Scheduler.Generated: all transactions of one run share one creation time. The source reads the clock once per transaction.
- The reference date is a parameter. The source mixes UTC, for the scheduler's "today" and the stored dates, with local time, for `new Date()`, month starts and `getMonth()`. Day-boundary effects of time zones are not modelled.
- Recurring rules are values. The source mutates the shared rule object in place (`recurring.lastProcessed = today`). The model replaces the rule at its position instead, so aliasing of rule objects is not captured.
- Amounts are real numbers. Floating-point rounding in sums and percentages is not modelled.
- Form text parsing (`parseFloat`, `parseInt`, the select values) is not modelled. Forms arrive as typed values, and an unreadable start date is `None`.
- Ledger.FilterTransactions: the source compares the category with loose `==` against the select's text. The model compares integers.
- Ledger.SaveTransaction: the source treats an edit id of 0 as "no edit", because it tests truthiness. Ids from `Date.now()` are never 0, so the model uses `Option`.
- Stats.CategoryExpenseData: the source keeps the totals in a plain object. A category name equal to an `Object.prototype` member (such as "constructor") would misbehave. Integer-like names would be listed before the others by `Object.keys`. The model keeps insertion order for every name.
- Budgets.BudgetSpent: the budget's period is not consulted, because the source measures every budget against the current month only.
- Scheduler.DueCharacterisation: a rule of unknown frequency that has never fired is due once from its start date. The code's first-firing branch does not look at the frequency, so the model follows the code, not the documented "never due".
- Scheduler.DueCharacterisation: a rule with an unreadable start date is never due before its first firing. If it has a `lastProcessed` date, it is due by frequency, because every comparison with an invalid date is false.
- Stats.MonthlyTrend: it uses the intended twelve consecutive months. The source's `setMonth` rollover is modelled separately, as the finding below.
- Dates are not restricted to real calendar days. `Date(2025, 1, 31)` can be built, and `DayNumber` places it as if February had 31 days. The source would roll it over or produce an Invalid Date. The properties about date order (`Calendar.StringOrderIsTimeOrder`, `Stats.PeriodCoversCurrentMonth`) assume valid dates.
- Calendar.StringLe: it orders dates by (year, month, day). That matches the order of the ISO text the source compares only for four-digit, zero-padded years, which are the years the application stores.
- The goal deadline is stored but is not used by `calculateGoalProgress`, and the model does not use it either.

## Findings

| source | as written | input that shows it | evidently intended | confidence | as-written member | corrected member |
|---|---|---|---|---|---|---|
| script.js:706-708 | `date.setMonth(date.getMonth() - i)` keeps today's day of the month, and a day the target month lacks rolls over into the next month | today is 31 March 2025, step i = 1: 31 February rolls over to 3 March, so March appears twice and February is missing | the twelve consecutive calendar months ending with the current one | not executed | Stats.SetMonthBackRepeatsMarch | Stats.MonthsBackDistinct |
