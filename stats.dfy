/** The stats aggregator: the dashboard's monthly figures and their change
    against the previous month, the report figures for a month, quarter or
    year, the expense breakdown by category name and the twelve-month trend.
    The reference date (`new Date()` in the source) is a parameter. */
module Stats {
  import opened Calendar
  import opened Seqs
  import opened Ledger

  /** `Math.round`: the nearest integer, halves rounded up. */
  function Round(x: real): (r: int)
    ensures r as real - 0.5 <= x < r as real + 0.5
  {
    (x + 0.5).Floor
  }

  /** `calculatePercentageChange`: the change from `previous` to `current` in
      whole percent of `previous`; from 0 it is 100 for any rise and 0 otherwise. */
  function PercentageChange(current: real, previous: real): (r: int)
    ensures previous == 0.0 ==> r == (if current > 0.0 then 100 else 0)
    ensures previous != 0.0 ==>
      var exact := (current - previous) / previous * 100.0;
      r as real - 0.5 <= exact < r as real + 0.5
    ensures current == previous ==> r == 0
    ensures previous > 0.0 && current > previous ==> r >= 0
    ensures previous > 0.0 && current < previous ==> r <= 0
  {
    if previous == 0.0 then (if current > 0.0 then 100 else 0)
    else
      var exact := (current - previous) / previous * 100.0;
      assert previous > 0.0 && current > previous ==> exact > 0.0;
      assert previous > 0.0 && current < previous ==> exact < 0.0;
      Round(exact)
  }

  /** Net balance as a whole percentage of income; 0 when there is no income. */
  function SavingsRate(income: real, net: real): (r: int)
    ensures income <= 0.0 ==> r == 0
    ensures income > 0.0 && net <= income ==> r <= 100
    ensures income > 0.0 && net >= 0.0 ==> r >= 0
    ensures income > 0.0 ==> r as real - 0.5 <= net / income * 100.0 < r as real + 0.5
  {
    if income > 0.0 then
      assert PercentOf(net, income) == net / income * 100.0;
      Round(PercentOf(net, income))
    else 0
  }

  /** The income, expense, net and savings-rate figures of one set of transactions. */
  datatype Summary = Summary(income: real, expenses: real, net: real, savingsRate: int)

  function Summarize(txs: seq<Transaction>): (s: Summary)
    ensures s.income == Total(OfKind(txs, Income)) && s.expenses == Total(OfKind(txs, Expense))
    ensures s.net == SignedTotal(txs)
    ensures s.savingsRate == SavingsRate(s.income, s.net)
  {
    IncomeMinusExpensesIsSignedTotal(txs);
    var income := Total(OfKind(txs, Income));
    var expenses := Total(OfKind(txs, Expense));
    Summary(income, expenses, income - expenses, SavingsRate(income, income - expenses))
  }

  datatype Changes = Changes(income: int, expenses: int, balance: int, savings: int)

  datatype MonthlyStats = MonthlyStats(
    totalIncome: real,
    totalExpenses: real,
    netBalance: real,
    savingsRate: int,
    changes: Changes)

  /** `calculateStats` for the month (year, month), compared with the month before it. */
  function CalculateStats(txs: seq<Transaction>, year: int, month: Month): (s: MonthlyStats)
    ensures var cur := InMonth(txs, year, month);
      && s.totalIncome == Total(OfKind(cur, Income))
      && s.totalExpenses == Total(OfKind(cur, Expense))
      && s.netBalance == SignedTotal(cur)
    ensures s.netBalance == s.totalIncome - s.totalExpenses
    ensures s.savingsRate == SavingsRate(s.totalIncome, s.netBalance)
    ensures s.totalIncome <= 0.0 ==> s.savingsRate == 0
    ensures NonNegativeAmounts(txs) && s.totalIncome > 0.0 ==> s.savingsRate <= 100
    ensures var (py, pm) := PreviousMonth(year, month);
      var prev := Summarize(InMonth(txs, py, pm));
      && s.changes.income == PercentageChange(s.totalIncome, prev.income)
      && s.changes.expenses == PercentageChange(s.totalExpenses, prev.expenses)
      && s.changes.balance == PercentageChange(s.netBalance, prev.net)
      && s.changes.savings == s.savingsRate - prev.savingsRate
  {
    var cur := Summarize(InMonth(txs, year, month));
    var (py, pm) := PreviousMonth(year, month);
    var prev := Summarize(InMonth(txs, py, pm));
    TotalNonNegative(OfKind(InMonth(txs, year, month), Expense));
    MonthlyStats(cur.income, cur.expenses, cur.net, cur.savingsRate,
      Changes(PercentageChange(cur.income, prev.income),
              PercentageChange(cur.expenses, prev.expenses),
              PercentageChange(cur.net, prev.net),
              cur.savingsRate - prev.savingsRate))
  }

  /** An empty ledger gives all-zero figures and no division by zero. */
  lemma EmptyLedgerStats(year: int, month: Month)
    ensures CalculateStats([], year, month) == MonthlyStats(0.0, 0.0, 0.0, 0, Changes(0, 0, 0, 0))
  {
  }

  /** The January figures are compared with December of the previous year. */
  lemma JanuaryComparesWithDecember(txs: seq<Transaction>, year: int)
    ensures CalculateStats(txs, year, 0).changes.savings
         == CalculateStats(txs, year, 0).savingsRate - Summarize(InMonth(txs, year - 1, 11)).savingsRate
  {
  }

  // ---------------------------------------------------------------------
  // Reports.

  /** The report period selector; `OtherPeriod` holds any other text (see `ParsePeriod`). */
  datatype ReportPeriod = MonthPeriod | QuarterPeriod | YearPeriod | OtherPeriod(name: string)

  /** The `switch (period)` cases: the three known names, and anything else. */
  function ParsePeriod(text: string): (p: ReportPeriod)
    ensures p == MonthPeriod <==> text == "month"
    ensures p == QuarterPeriod <==> text == "quarter"
    ensures p == YearPeriod <==> text == "year"
    ensures p.OtherPeriod? ==> p.name == text
  {
    if text == "month" then MonthPeriod
    else if text == "quarter" then QuarterPeriod
    else if text == "year" then YearPeriod
    else OtherPeriod(text)
  }

  /** The start of the report period (`getTransactionsForPeriod`): the first
      day of the month, of the quarter or of the year of `today`; any other
      period name falls back to the month. */
  function PeriodStart(period: ReportPeriod, today: Date): (d: Date)
    ensures Valid(d) && d.year == today.year && d.day == 1 && d.month <= today.month
    ensures period == YearPeriod ==> d.month == 0
    ensures period == QuarterPeriod ==> d.month % 3 == 0 && today.month - d.month < 3
    ensures period.MonthPeriod? || period.OtherPeriod? ==> d.month == today.month
  {
    match period
    case MonthPeriod => MonthStart(today.year, today.month)
    case QuarterPeriod => MonthStart(today.year, (today.month / 3) * 3)
    case YearPeriod => MonthStart(today.year, 0)
    case OtherPeriod(_) => MonthStart(today.year, today.month)
  }

  /** `getTransactionsForPeriod`: every transaction dated on or after the
      start of the period (later dates are not cut off). */
  function TransactionsForPeriod(txs: seq<Transaction>, period: ReportPeriod, today: Date): (r: seq<Transaction>)
    ensures forall t :: t in r <==> t in txs && DayNumber(PeriodStart(period, today)) <= DayNumber(t.date)
    ensures forall t :: t in txs && Valid(t.date) && t.date.year == today.year && t.date.month == today.month ==> t in r
  {
    var start := PeriodStart(period, today);
    PeriodCoversCurrentMonth(period, today);
    Filter(txs, (t: Transaction) => DayNumber(start) <= DayNumber(t.date))
  }

  /** Every day of the current month lies on or after the start of any period. */
  lemma PeriodCoversCurrentMonth(period: ReportPeriod, today: Date)
    ensures forall d :: Valid(d) && d.year == today.year && d.month == today.month
                        ==> DayNumber(PeriodStart(period, today)) <= DayNumber(d)
  {
    var start := PeriodStart(period, today);
    MonthStartOrder(today.year, start.month, today.month);
  }

  /** A month report lists a subset of the quarter report, which lists a subset of the year report. */
  lemma PeriodsNest(txs: seq<Transaction>, today: Date)
    ensures forall t :: t in TransactionsForPeriod(txs, MonthPeriod, today) ==> t in TransactionsForPeriod(txs, QuarterPeriod, today)
    ensures forall t :: t in TransactionsForPeriod(txs, QuarterPeriod, today) ==> t in TransactionsForPeriod(txs, YearPeriod, today)
  {
    var m, q, y := PeriodStart(MonthPeriod, today), PeriodStart(QuarterPeriod, today), PeriodStart(YearPeriod, today);
    MonthStartOrder(today.year, q.month, m.month);
    MonthStartOrder(today.year, y.month, q.month);
  }

  datatype ReportStats = ReportStats(
    totalIncome: real,
    totalExpenses: real,
    netBalance: real,
    savingsRate: int,
    totalTransactions: nat,
    avgIncome: real,
    avgExpense: real)

  /** The mean amount of a list of transactions; 0 for none. */
  function Average(txs: seq<Transaction>): (a: real)
    ensures |txs| == 0 ==> a == 0.0
    ensures a * |txs| as real == Total(txs)
  {
    if |txs| > 0 then
      var a := Total(txs) / |txs| as real;
      assert a * |txs| as real == Total(txs);
      a
    else
      assert txs == [];
      0.0
  }

  /** `getReportStats`. */
  function GetReportStats(txs: seq<Transaction>, period: ReportPeriod, today: Date): (s: ReportStats)
    ensures var inPeriod := TransactionsForPeriod(txs, period, today);
      && s.totalTransactions == |inPeriod|
      && s.totalIncome == Total(OfKind(inPeriod, Income))
      && s.totalExpenses == Total(OfKind(inPeriod, Expense))
      && s.avgIncome == Average(OfKind(inPeriod, Income))
      && s.avgExpense == Average(OfKind(inPeriod, Expense))
    ensures s.netBalance == s.totalIncome - s.totalExpenses
    ensures s.savingsRate == SavingsRate(s.totalIncome, s.netBalance)
  {
    var inPeriod := TransactionsForPeriod(txs, period, today);
    var income, expenses := OfKind(inPeriod, Income), OfKind(inPeriod, Expense);
    var sum := Summarize(inPeriod);
    ReportStats(sum.income, sum.expenses, sum.net, sum.savingsRate, |inPeriod|,
                Average(income), Average(expenses))
  }

  // ---------------------------------------------------------------------
  // Expense breakdown by category name (`getCategoryExpenseData`).

  const OtherLabel: string := "Other"
  const OtherColor: string := "#666666"

  /** The name a transaction's category is shown under: that of the first
      category with its id; unknown ids go under "Other". */
  function CategoryLabel(cats: Categories, categoryId: int): string {
    match GetCategoryById(cats, categoryId)
    case Some(c) => c.name
    case None => OtherLabel
  }

  /** The colour recorded with that name: the category's, or the grey of "Other". */
  function CategoryColor(cats: Categories, categoryId: int): string {
    match GetCategoryById(cats, categoryId)
    case Some(c) => c.color
    case None => OtherColor
  }

  /** The name and colour come from the first category with that id, income
      categories first; an id no category has is shown as "Other" in grey. */
  lemma CategoryShownAs(cats: Categories, categoryId: int)
    ensures CategoryIndex(cats, categoryId) == -1 ==>
      CategoryLabel(cats, categoryId) == OtherLabel && CategoryColor(cats, categoryId) == OtherColor
    ensures var i := CategoryIndex(cats, categoryId);
      0 <= i ==>
        && CategoryLabel(cats, categoryId) == (cats.income + cats.expense)[i].name
        && CategoryColor(cats, categoryId) == (cats.income + cats.expense)[i].color
  {
  }

  /** Some transaction of `txs` is shown under `name`. */
  predicate LabelOccurs(txs: seq<Transaction>, cats: Categories, name: string)
    decreases |txs|
  {
    txs != [] &&
    (LabelOccurs(txs[..|txs| - 1], cats, name) || CategoryLabel(cats, txs[|txs| - 1].categoryId) == name)
  }

  lemma {:induction false} LabelOccursMeans(txs: seq<Transaction>, cats: Categories, name: string)
    ensures LabelOccurs(txs, cats, name) <==> exists t :: t in txs && CategoryLabel(cats, t.categoryId) == name
    decreases |txs|
  {
    if txs != [] {
      var init, last := txs[..|txs| - 1], txs[|txs| - 1];
      assert txs == init + [last];
      LabelOccursMeans(init, cats, name);
      if LabelOccurs(init, cats, name) {
        var u :| u in init && CategoryLabel(cats, u.categoryId) == name;
        assert u in txs;
      }
      if exists u :: u in txs && CategoryLabel(cats, u.categoryId) == name {
        var u :| u in txs && CategoryLabel(cats, u.categoryId) == name;
        if u != last {
          assert u in init;
        }
      }
    }
  }

  /** The total of the transactions shown under `name`. */
  function LabelTotal(txs: seq<Transaction>, cats: Categories, name: string): real
    decreases |txs|
  {
    if txs == [] then 0.0
    else
      var last := txs[|txs| - 1];
      LabelTotal(txs[..|txs| - 1], cats, name)
        + (if CategoryLabel(cats, last.categoryId) == name then last.amount else 0.0)
  }

  /** The colour recorded for `name`: that of the first transaction shown under it. */
  function FirstColor(txs: seq<Transaction>, cats: Categories, name: string): string
    decreases |txs|
  {
    if txs == [] then OtherColor
    else
      var init, last := txs[..|txs| - 1], txs[|txs| - 1];
      if LabelOccurs(init, cats, name) then FirstColor(init, cats, name)
      else if CategoryLabel(cats, last.categoryId) == name then CategoryColor(cats, last.categoryId)
      else OtherColor
  }

  /** The names in order of first appearance: the order in which `Object.keys`
      lists the keys of an object that was filled in that order. */
  function LabelOrder(txs: seq<Transaction>, cats: Categories): seq<string>
    decreases |txs|
  {
    if txs == [] then []
    else
      var init, last := txs[..|txs| - 1], txs[|txs| - 1];
      var name := CategoryLabel(cats, last.categoryId);
      if LabelOccurs(init, cats, name) then LabelOrder(init, cats) else LabelOrder(init, cats) + [name]
  }

  function SeqSum(xs: seq<real>): real
    decreases |xs|
  {
    if xs == [] then 0.0 else SeqSum(xs[..|xs| - 1]) + xs[|xs| - 1]
  }

  /** Raising one entry raises the sum by the same amount. */
  lemma {:induction false} SeqSumBump(xs: seq<real>, p: nat, delta: real)
    requires p < |xs|
    ensures SeqSum(xs[p := xs[p] + delta]) == SeqSum(xs) + delta
    decreases |xs|
  {
    var ys := xs[p := xs[p] + delta];
    if p < |xs| - 1 {
      assert ys[..|ys| - 1] == xs[..|xs| - 1][p := xs[p] + delta];
      SeqSumBump(xs[..|xs| - 1], p, delta);
    } else {
      assert ys[..|ys| - 1] == xs[..|xs| - 1];
    }
  }

  /** A name no transaction is shown under has total 0. */
  lemma {:induction false} LabelTotalAbsent(txs: seq<Transaction>, cats: Categories, name: string)
    requires !LabelOccurs(txs, cats, name)
    ensures LabelTotal(txs, cats, name) == 0.0
    decreases |txs|
  {
    if txs != [] {
      var init, last := txs[..|txs| - 1], txs[|txs| - 1];
      assert txs == init + [last];
      LabelTotalAbsent(init, cats, name);
    }
  }

  lemma LabelOccursOneMore(txs: seq<Transaction>, t: Transaction, cats: Categories, name: string)
    ensures LabelOccurs(txs + [t], cats, name) <==> LabelOccurs(txs, cats, name) || CategoryLabel(cats, t.categoryId) == name
  {
    assert (txs + [t])[..|txs|] == txs;
  }

  lemma LabelTotalOneMore(txs: seq<Transaction>, t: Transaction, cats: Categories, name: string)
    ensures LabelTotal(txs + [t], cats, name)
         == LabelTotal(txs, cats, name) + (if CategoryLabel(cats, t.categoryId) == name then t.amount else 0.0)
  {
    assert (txs + [t])[..|txs|] == txs;
  }

  lemma FirstColorOneMore(txs: seq<Transaction>, t: Transaction, cats: Categories, name: string)
    ensures FirstColor(txs + [t], cats, name)
         == if LabelOccurs(txs, cats, name) then FirstColor(txs, cats, name)
            else if CategoryLabel(cats, t.categoryId) == name then CategoryColor(cats, t.categoryId)
            else OtherColor
  {
    assert (txs + [t])[..|txs|] == txs;
  }

  lemma LabelOrderOneMore(txs: seq<Transaction>, t: Transaction, cats: Categories)
    ensures LabelOrder(txs + [t], cats)
         == if LabelOccurs(txs, cats, CategoryLabel(cats, t.categoryId)) then LabelOrder(txs, cats)
            else LabelOrder(txs, cats) + [CategoryLabel(cats, t.categoryId)]
  {
    assert (txs + [t])[..|txs|] == txs;
  }

  lemma TotalOneMore(txs: seq<Transaction>, t: Transaction)
    ensures Total(txs + [t]) == Total(txs) + t.amount
  {
    assert (txs + [t])[..|txs|] == txs;
  }

  // What the breakdown holds once the expenses `txs` have been visited,
  // one fact per predicate so that each step lemma sees only what it uses.

  /** No name is listed twice. */
  ghost predicate DistinctLabels(labels: seq<string>) {
    forall a, b :: 0 <= a < b < |labels| ==> labels[a] != labels[b]
  }

  /** The names listed are exactly those met so far. */
  ghost predicate LabelsCover(txs: seq<Transaction>, cats: Categories, labels: seq<string>) {
    forall n :: n in labels <==> LabelOccurs(txs, cats, n)
  }

  /** Each listed name carries its running total, and the totals add up to everything visited. */
  ghost predicate TotalsFit(txs: seq<Transaction>, cats: Categories, labels: seq<string>, data: seq<real>) {
    && |data| == |labels|
    && (forall k :: 0 <= k < |labels| ==> data[k] == LabelTotal(txs, cats, labels[k]))
    && SeqSum(data) == Total(txs)
  }

  /** Each listed name carries the colour of the first expense shown under it. */
  ghost predicate ColorsFit(txs: seq<Transaction>, cats: Categories, labels: seq<string>, colors: seq<string>) {
    && |colors| == |labels|
    && forall k :: 0 <= k < |labels| ==> colors[k] == FirstColor(txs, cats, labels[k])
  }

  lemma CoverOneMore(txs: seq<Transaction>, t: Transaction, cats: Categories, labels: seq<string>, labels': seq<string>)
    requires LabelsCover(txs, cats, labels)
    requires forall n :: n in labels' <==> n in labels || n == CategoryLabel(cats, t.categoryId)
    ensures LabelsCover(txs + [t], cats, labels')
  {
    forall n ensures n in labels' <==> LabelOccurs(txs + [t], cats, n) {
      LabelOccursOneMore(txs, t, cats, n);
    }
  }

  /** A name met for the first time starts its entry at the expense's amount. */
  lemma TotalsAddLabel(txs: seq<Transaction>, t: Transaction, cats: Categories, labels: seq<string>, data: seq<real>)
    requires TotalsFit(txs, cats, labels, data)
    requires !LabelOccurs(txs, cats, CategoryLabel(cats, t.categoryId))
    requires forall k :: 0 <= k < |labels| ==> labels[k] != CategoryLabel(cats, t.categoryId)
    ensures TotalsFit(txs + [t], cats, labels + [CategoryLabel(cats, t.categoryId)], data + [t.amount])
  {
    var name := CategoryLabel(cats, t.categoryId);
    var labels', data' := labels + [name], data + [t.amount];
    assert data'[..|data|] == data;
    TotalOneMore(txs, t);
    forall k | 0 <= k < |labels'| ensures data'[k] == LabelTotal(txs + [t], cats, labels'[k]) {
      LabelTotalOneMore(txs, t, cats, labels'[k]);
      if k == |labels| {
        LabelTotalAbsent(txs, cats, name);
      }
    }
  }

  /** A name met again has the expense's amount added to its entry. */
  lemma TotalsBump(txs: seq<Transaction>, t: Transaction, cats: Categories, labels: seq<string>, data: seq<real>, p: nat)
    requires TotalsFit(txs, cats, labels, data) && DistinctLabels(labels)
    requires p < |labels| && labels[p] == CategoryLabel(cats, t.categoryId)
    ensures TotalsFit(txs + [t], cats, labels, data[p := data[p] + t.amount])
  {
    var data' := data[p := data[p] + t.amount];
    SeqSumBump(data, p, t.amount);
    TotalOneMore(txs, t);
    forall k | 0 <= k < |labels| ensures data'[k] == LabelTotal(txs + [t], cats, labels[k]) {
      LabelTotalOneMore(txs, t, cats, labels[k]);
      if k < p {
        assert labels[k] != labels[p];
      } else if p < k {
        assert labels[p] != labels[k];
      }
    }
  }

  /** Colours already recorded stay; a name met for the first time takes the expense's colour. */
  lemma ColorsOneMore(txs: seq<Transaction>, t: Transaction, cats: Categories,
                      labels: seq<string>, colors: seq<string>, labels': seq<string>, colors': seq<string>)
    requires LabelsCover(txs, cats, labels) && ColorsFit(txs, cats, labels, colors)
    requires |labels'| == |colors'| && |labels| <= |labels'|
    requires labels'[..|labels|] == labels && colors'[..|colors|] == colors
    requires forall k :: |labels| <= k < |labels'| ==>
      labels'[k] == CategoryLabel(cats, t.categoryId) && colors'[k] == CategoryColor(cats, t.categoryId)
      && !LabelOccurs(txs, cats, labels'[k])
    ensures ColorsFit(txs + [t], cats, labels', colors')
  {
    forall k | 0 <= k < |labels'| ensures colors'[k] == FirstColor(txs + [t], cats, labels'[k]) {
      FirstColorOneMore(txs, t, cats, labels'[k]);
      if k < |labels| {
        assert labels'[k] == labels[k] && colors'[k] == colors[k];
        assert labels[k] in labels;
      }
    }
  }

  /** Everything the breakdown holds once the expenses `txs` have been visited. */
  ghost predicate BreakdownOf(txs: seq<Transaction>, cats: Categories,
                              labels: seq<string>, data: seq<real>, colors: seq<string>) {
    && labels == LabelOrder(txs, cats)
    && DistinctLabels(labels)
    && LabelsCover(txs, cats, labels)
    && TotalsFit(txs, cats, labels, data)
    && ColorsFit(txs, cats, labels, colors)
  }

  /** Before any expense is visited the breakdown is empty. */
  lemma BreakdownStart(cats: Categories)
    ensures BreakdownOf([], cats, [], [], [])
  {
  }

  /** Once every expense has been visited, the breakdown covers them all. */
  lemma BreakdownComplete(txs: seq<Transaction>, cats: Categories,
                          labels: seq<string>, data: seq<real>, colors: seq<string>)
    requires BreakdownOf(txs[..|txs|], cats, labels, data, colors)
    ensures BreakdownOf(txs, cats, labels, data, colors)
  {
    assert txs[..|txs|] == txs;
  }

  /** An expense under a name not met before appends that name, its amount and its colour. */
  lemma VisitNewName(visited: seq<Transaction>, t: Transaction, cats: Categories,
                     labels: seq<string>, data: seq<real>, colors: seq<string>)
    requires BreakdownOf(visited, cats, labels, data, colors)
    requires CategoryLabel(cats, t.categoryId) !in labels
    ensures BreakdownOf(visited + [t], cats, labels + [CategoryLabel(cats, t.categoryId)], data + [t.amount],
                        colors + [CategoryColor(cats, t.categoryId)])
  {
    var name := CategoryLabel(cats, t.categoryId);
    var labels' := labels + [name];
    LabelOrderOneMore(visited, t, cats);
    CoverOneMore(visited, t, cats, labels, labels');
    TotalsAddLabel(visited, t, cats, labels, data);
    ColorsOneMore(visited, t, cats, labels, colors, labels', colors + [CategoryColor(cats, t.categoryId)]);
  }

  lemma OrderKnownName(visited: seq<Transaction>, t: Transaction, cats: Categories, labels: seq<string>, p: nat)
    requires labels == LabelOrder(visited, cats) && LabelsCover(visited, cats, labels)
    requires p < |labels| && labels[p] == CategoryLabel(cats, t.categoryId)
    ensures LabelOrder(visited + [t], cats) == labels
  {
    assert labels[p] in labels;
    LabelOrderOneMore(visited, t, cats);
  }

  /** An expense under a name met before adds its amount to that name's entry. */
  lemma VisitKnownName(visited: seq<Transaction>, t: Transaction, cats: Categories,
                       labels: seq<string>, data: seq<real>, colors: seq<string>, p: nat)
    requires BreakdownOf(visited, cats, labels, data, colors)
    requires p < |labels| && labels[p] == CategoryLabel(cats, t.categoryId)
    ensures BreakdownOf(visited + [t], cats, labels, data[p := data[p] + t.amount], colors)
  {
    OrderKnownName(visited, t, cats, labels, p);
    CoverOneMore(visited, t, cats, labels, labels);
    TotalsBump(visited, t, cats, labels, data, p);
    ColorsOneMore(visited, t, cats, labels, colors, labels, colors);
  }

  /** Where the key `name` sits in an insertion-ordered key list, or -1. */
  function PositionOf(keys: seq<string>, name: string): (p: int)
    ensures -1 <= p < |keys|
    ensures p == -1 <==> name !in keys
    ensures 0 <= p ==> keys[p] == name
    decreases |keys|
  {
    if keys == [] then -1
    else if keys[|keys| - 1] == name then |keys| - 1
    else PositionOf(keys[..|keys| - 1], name)
  }

  /** The body of the source's `forEach`: an expense is added to the entry of
      its category name, which is created, with the category's colour, the
      first time the name is met. */
  method VisitExpense(cats: Categories, t: Transaction, labels: seq<string>, data: seq<real>, colors: seq<string>,
                      ghost visited: seq<Transaction>)
    returns (labels': seq<string>, data': seq<real>, colors': seq<string>)
    requires BreakdownOf(visited, cats, labels, data, colors)
    ensures BreakdownOf(visited + [t], cats, labels', data', colors')
  {
    var name := CategoryLabel(cats, t.categoryId);
    var p := PositionOf(labels, name);
    if p == -1 {
      labels', data', colors' := labels + [name], data + [t.amount], colors + [CategoryColor(cats, t.categoryId)];
      VisitNewName(visited, t, cats, labels, data, colors);
    } else {
      labels', data', colors' := labels, data[p := data[p] + t.amount], colors;
      VisitKnownName(visited, t, cats, labels, data, colors, p);
    }
  }

  /** `getCategoryExpenseData` for the month (year, month): one label per
      category name met among the month's expenses, in order of first
      appearance, with the total and the colour recorded for it. The
      dictionary the source builds is kept as these three parallel,
      insertion-ordered lists. */
  method CategoryExpenseData(txs: seq<Transaction>, cats: Categories, year: int, month: Month)
    returns (labels: seq<string>, data: seq<real>, colors: seq<string>)
    ensures labels == LabelOrder(MonthExpenses(txs, year, month), cats)
    ensures DistinctLabels(labels)
    ensures LabelsCover(MonthExpenses(txs, year, month), cats, labels)
    ensures TotalsFit(MonthExpenses(txs, year, month), cats, labels, data)
    ensures ColorsFit(MonthExpenses(txs, year, month), cats, labels, colors)
  {
    var expenses := MonthExpenses(txs, year, month);
    labels, data, colors := [], [], [];
    var i := 0;
    BreakdownStart(cats);
    assert expenses[..0] == [];
    while i < |expenses|
      invariant 0 <= i <= |expenses|
      invariant BreakdownOf(expenses[..i], cats, labels, data, colors)
    {
      assert expenses[..i + 1] == expenses[..i] + [expenses[i]];
      labels, data, colors := VisitExpense(cats, expenses[i], labels, data, colors, expenses[..i]);
      i := i + 1;
    }
    BreakdownComplete(expenses, cats, labels, data, colors);
  }

  // ---------------------------------------------------------------------
  // The twelve-month trend (`getMonthlyTrendData`).

  /** `toLocaleDateString('en-US', { month: 'short' })`, by month index. */
  const ShortMonthNames: seq<string> :=
    ["Jan", "Feb", "Mar", "Apr", "May", "Jun", "Jul", "Aug", "Sep", "Oct", "Nov", "Dec"]

  /** The calendar month `n` months before (year, month), counted on the
      running month index `12 * year + month`. */
  function MonthsBack(year: int, month: Month, n: nat): (r: (int, Month))
    ensures 12 * r.0 + r.1 == 12 * year + month - n
  {
    var index := 12 * year + month - n;
    (index / 12, index % 12)
  }

  /** Going back one month more is going to the previous calendar month. */
  lemma MonthsBackStep(year: int, month: Month, n: nat)
    ensures var r := MonthsBack(year, month, n);
      MonthsBack(year, month, n + 1) == PreviousMonth(r.0, r.1)
  {
    var r, s := MonthsBack(year, month, n), MonthsBack(year, month, n + 1);
    var p := PreviousMonth(r.0, r.1);
    assert 12 * p.0 + p.1 == 12 * r.0 + r.1 - 1;
    UniqueMonthIndex(s.0, s.1, p.0, p.1);
  }

  /** Different steps back land on different months, so twelve steps give twelve months. */
  lemma MonthsBackDistinct(year: int, month: Month, a: nat, b: nat)
    requires a != b
    ensures MonthsBack(year, month, a) != MonthsBack(year, month, b)
  {
  }

  lemma UniqueMonthIndex(y1: int, m1: Month, y2: int, m2: Month)
    requires 12 * y1 + m1 == 12 * y2 + m2
    ensures y1 == y2 && m1 == m2
  {
  }

  /** The month the source's loop lands on for step `i`: it takes today's
      date and calls `setMonth(getMonth() - i)`, which keeps the day of the
      month; a day the target month does not have rolls over into the month
      after it. */
  function SetMonthBack(today: Date, i: nat): (r: (int, Month))
    ensures today.day <= 28 ==> r == MonthsBack(today.year, today.month, i)
  {
    var (y, m) := MonthsBack(today.year, today.month, i);
    if today.day > DaysInMonth(y, m) then NextMonth(y, m) else (y, m)
  }

  /** On 31 March 2025 the source's loop visits March twice and February not at all. */
  lemma SetMonthBackRepeatsMarch()
    ensures SetMonthBack(Date(2025, 2, 31), 1) == SetMonthBack(Date(2025, 2, 31), 0) == (2025, 2)
    ensures MonthsBack(2025, 2, 1) == (2025, 1)
  {
  }

  /** One point of the trend: the short name of month `ym` and its income and expense totals. */
  predicate TrendPoint(txs: seq<Transaction>, ym: (int, Month), name: string, income: real, expenses: real) {
    && name == ShortMonthNames[ym.1]
    && income == Total(OfKind(InMonth(txs, ym.0, ym.1), Income))
    && expenses == Total(OfKind(InMonth(txs, ym.0, ym.1), Expense))
  }

  /** `getMonthlyTrendData` for the twelve months ending with the month of
      `today`, oldest first. */
  method MonthlyTrend(txs: seq<Transaction>, today: Date)
    returns (labels: seq<string>, income: seq<real>, expenses: seq<real>)
    ensures |labels| == |income| == |expenses| == 12
    ensures forall k :: 0 <= k < 12 ==>
      TrendPoint(txs, MonthsBack(today.year, today.month, 11 - k), labels[k], income[k], expenses[k])
  {
    labels, income, expenses := [], [], [];
    var i := 11;
    while i >= 0
      invariant -1 <= i <= 11
      invariant |labels| == |income| == |expenses| == 11 - i
      invariant forall k :: 0 <= k < 11 - i ==>
        TrendPoint(txs, MonthsBack(today.year, today.month, 11 - k), labels[k], income[k], expenses[k])
    {
      var ym := MonthsBack(today.year, today.month, i);
      var monthTxs := InMonth(txs, ym.0, ym.1);
      labels := labels + [ShortMonthNames[ym.1]];
      income := income + [Total(OfKind(monthTxs, Income))];
      expenses := expenses + [Total(OfKind(monthTxs, Expense))];
      assert TrendPoint(txs, ym, labels[11 - i], income[11 - i], expenses[11 - i]);
      i := i - 1;
    }
  }

  /** The last point of the trend shows the dashboard's figures for the current month. */
  lemma TrendEndsWithCurrentMonth(txs: seq<Transaction>, today: Date, name: string, income: real, expenses: real)
    requires TrendPoint(txs, MonthsBack(today.year, today.month, 0), name, income, expenses)
    ensures income == CalculateStats(txs, today.year, today.month).totalIncome
    ensures expenses == CalculateStats(txs, today.year, today.month).totalExpenses
  {
    var cur := MonthsBack(today.year, today.month, 0);
    UniqueMonthIndex(cur.0, cur.1, today.year, today.month);
  }

  /** The point before it shows the month the dashboard compares with. */
  lemma TrendPreviousPointIsComparedMonth(txs: seq<Transaction>, today: Date, name: string, income: real, expenses: real)
    requires TrendPoint(txs, MonthsBack(today.year, today.month, 1), name, income, expenses)
    ensures var (py, pm) := PreviousMonth(today.year, today.month);
      income == Summarize(InMonth(txs, py, pm)).income && expenses == Summarize(InMonth(txs, py, pm)).expenses
  {
    MonthsBackOne(today.year, today.month);
  }

  /** One month back is the previous calendar month. */
  lemma MonthsBackOne(year: int, month: Month)
    ensures MonthsBack(year, month, 1) == PreviousMonth(year, month)
  {
    var cur := MonthsBack(year, month, 0);
    UniqueMonthIndex(cur.0, cur.1, year, month);
    MonthsBackStep(year, month, 0);
  }
}
