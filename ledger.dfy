/** The ledger store and the category registry: transaction and category
    records, lookup by id, the sums every evaluator is built from, and the
    ledger's own updates (add or replace a transaction, delete by id, delete
    a category from both partitions, the transaction list filter). */
module Ledger {
  import opened Calendar
  import opened Seqs

  datatype Kind = Income | Expense

  /** A transaction. `createdAt` is the ISO timestamp text of its creation,
      kept as opaque text. */
  datatype Transaction = Transaction(
    id: int,
    kind: Kind,
    amount: real,
    description: string,
    categoryId: int,
    date: Date,
    notes: string,
    createdAt: string)

  /** The fields of the transaction form. */
  datatype TransactionForm = TransactionForm(
    kind: Kind,
    amount: real,
    description: string,
    categoryId: int,
    date: Date,
    notes: string)

  datatype Category = Category(id: int, name: string, icon: string, color: string)

  /** The registry's two partitions. */
  datatype Categories = Categories(income: seq<Category>, expense: seq<Category>)

  /** The transaction a submitted form describes. */
  function FromForm(form: TransactionForm, id: int, createdAt: string): (t: Transaction)
    ensures t.id == id && t.createdAt == createdAt
    ensures t.kind == form.kind && t.amount == form.amount && t.date == form.date
    ensures t.description == form.description && t.categoryId == form.categoryId
    ensures t.notes == form.notes
  {
    Transaction(id, form.kind, form.amount, form.description, form.categoryId,
                form.date, form.notes, createdAt)
  }

  // ---------------------------------------------------------------------
  // Sums: `.reduce((sum, t) => sum + t.amount, 0)`.

  function Total(txs: seq<Transaction>): real
    decreases |txs|
  {
    if txs == [] then 0.0 else Total(txs[..|txs| - 1]) + txs[|txs| - 1].amount
  }

  predicate NonNegativeAmounts(txs: seq<Transaction>) {
    forall t :: t in txs ==> t.amount >= 0.0
  }

  lemma {:induction false} TotalAppend(a: seq<Transaction>, b: seq<Transaction>)
    ensures Total(a + b) == Total(a) + Total(b)
    decreases |b|
  {
    if b != [] {
      assert (a + b)[..|a + b| - 1] == a + b[..|b| - 1];
      TotalAppend(a, b[..|b| - 1]);
    } else {
      assert a + b == a;
    }
  }

  lemma {:induction false} TotalNonNegative(txs: seq<Transaction>)
    ensures NonNegativeAmounts(txs) ==> Total(txs) >= 0.0
    decreases |txs|
  {
    if txs != [] {
      assert txs[|txs| - 1] in txs;
      TotalNonNegative(txs[..|txs| - 1]);
    }
  }

  /** With non-negative amounts, a sub-selection never sums to more than the whole. */
  lemma {:induction false} TotalOfFilterAtMost(txs: seq<Transaction>, keep: Transaction -> bool)
    requires NonNegativeAmounts(txs)
    ensures 0.0 <= Total(Filter(txs, keep)) <= Total(txs)
    decreases |txs|
  {
    if txs != [] {
      var init := txs[..|txs| - 1];
      assert txs == init + [txs[|txs| - 1]];
      assert txs[|txs| - 1] in txs;
      TotalOfFilterAtMost(init, keep);
    }
  }

  /** The transactions of one kind: `.filter(t => t.type === kind)`. */
  function OfKind(txs: seq<Transaction>, kind: Kind): (r: seq<Transaction>)
    ensures forall t :: t in r <==> t in txs && t.kind == kind
  {
    Filter(txs, (t: Transaction) => t.kind == kind)
  }

  /** The transactions dated in calendar month (year, month). */
  function InMonth(txs: seq<Transaction>, year: int, month: Month): (r: seq<Transaction>)
    ensures forall t :: t in r <==> t in txs && t.date.year == year && t.date.month == month
  {
    Filter(txs, (t: Transaction) => t.date.year == year && t.date.month == month)
  }

  /** The expenses dated in calendar month (year, month), in one filter. */
  function MonthExpenses(txs: seq<Transaction>, year: int, month: Month): (r: seq<Transaction>)
    ensures forall t :: t in r <==> t in txs && t.kind == Expense && t.date.year == year && t.date.month == month
  {
    Filter(txs, (t: Transaction) => t.kind == Expense && t.date.year == year && t.date.month == month)
  }

  /** The month's expenses in one filter are the expenses among the month's
      transactions, as the dashboard selects them. */
  lemma {:induction false} MonthExpensesOfMonth(txs: seq<Transaction>, year: int, month: Month)
    ensures MonthExpenses(txs, year, month) == OfKind(InMonth(txs, year, month), Expense)
    decreases |txs|
  {
    if txs != [] {
      var init, last := txs[..|txs| - 1], txs[|txs| - 1];
      MonthExpensesOfMonth(init, year, month);
      var a := InMonth(init, year, month);
      assert (a + [last])[..|a|] == a;
    }
  }

  /** With non-negative amounts, a narrower selection never sums to more than a wider one. */
  lemma {:induction false} TotalFilterMonotone(txs: seq<Transaction>, narrow: Transaction -> bool, wide: Transaction -> bool)
    requires NonNegativeAmounts(txs)
    requires forall t :: t in txs && narrow(t) ==> wide(t)
    ensures Total(Filter(txs, narrow)) <= Total(Filter(txs, wide))
    decreases |txs|
  {
    if txs != [] {
      var init := txs[..|txs| - 1];
      assert txs == init + [txs[|txs| - 1]];
      assert txs[|txs| - 1] in txs;
      TotalFilterMonotone(init, narrow, wide);
    }
  }

  /** Income counted positive, expenses negative: an independent definition of a net balance. */
  function SignedTotal(txs: seq<Transaction>): real
    decreases |txs|
  {
    if txs == [] then 0.0
    else
      var last := txs[|txs| - 1];
      SignedTotal(txs[..|txs| - 1]) + (if last.kind == Income then last.amount else -last.amount)
  }

  /** Income minus expenses is the signed sum of the whole list. */
  lemma {:induction false} IncomeMinusExpensesIsSignedTotal(txs: seq<Transaction>)
    ensures Total(OfKind(txs, Income)) - Total(OfKind(txs, Expense)) == SignedTotal(txs)
    decreases |txs|
  {
    if txs != [] {
      var init, last := txs[..|txs| - 1], txs[|txs| - 1];
      assert txs == init + [last];
      IncomeMinusExpensesIsSignedTotal(init);
      var inc, exp := OfKind(init, Income), OfKind(init, Expense);
      assert OfKind(txs, Income) == if last.kind == Income then inc + [last] else inc;
      assert OfKind(txs, Expense) == if last.kind == Expense then exp + [last] else exp;
      assert (inc + [last])[..|inc|] == inc;
      assert (exp + [last])[..|exp|] == exp;
    }
  }

  /** `part / whole * 100`, the percentage figure of budget and goal cards, for a positive whole. */
  function PercentOf(part: real, whole: real): (p: real)
    requires whole > 0.0
    ensures p * whole == part * 100.0
    ensures p < 0.0 <==> part < 0.0
    ensures p > 100.0 <==> part > whole
    ensures p == 100.0 <==> part == whole
  {
    var p := part / whole * 100.0;
    assert p * whole == part * 100.0;
    ScaleOrder(p, 0.0, whole);
    ScaleOrder(100.0, p, whole);
    ScaleOrder(p, 100.0, whole);
    p
  }

  /** Multiplying by a positive number keeps order. */
  lemma ScaleOrder(a: real, b: real, c: real)
    requires c > 0.0
    ensures a < b <==> a * c < b * c
  {
    if a < b {
      assert (b - a) * c > 0.0;
    } else {
      assert (a - b) * c >= 0.0;
    }
  }

  // ---------------------------------------------------------------------
  // Lookup by id.

  /** The test `category => category.id === id`. */
  function CategoryHasId(id: int): Category -> bool {
    (c: Category) => c.id == id
  }

  /** The position of the first category with that id in the income
      categories followed by the expense categories, or -1. */
  function CategoryIndex(cats: Categories, id: int): (i: int)
    ensures -1 <= i < |cats.income + cats.expense|
    ensures 0 <= i ==> (cats.income + cats.expense)[i].id == id
                       && forall j :: 0 <= j < i ==> (cats.income + cats.expense)[j].id != id
    ensures i == -1 <==> forall c :: c in cats.income + cats.expense ==> c.id != id
  {
    FindIndex(cats.income + cats.expense, CategoryHasId(id))
  }

  /** `getCategoryById`: the first category with that id, income partition first. */
  function GetCategoryById(cats: Categories, id: int): (r: Option<Category>)
    ensures r.Some? ==> r.value.id == id && (r.value in cats.income || r.value in cats.expense)
    ensures r.None? <==> CategoryIndex(cats, id) == -1
    ensures r.Some? ==> 0 <= CategoryIndex(cats, id) && r.value == (cats.income + cats.expense)[CategoryIndex(cats, id)]
    ensures (exists c :: c in cats.income && c.id == id) ==> r.Some? && r.value in cats.income
  {
    var all := cats.income + cats.expense;
    if exists c :: c in cats.income && c.id == id then
      FindIndexInPrefix(cats.income, cats.expense, CategoryHasId(id));
      Find(all, CategoryHasId(id))
    else
      Find(all, CategoryHasId(id))
  }

  /** The test `transaction => transaction.id === id`. */
  function HasId(id: int): Transaction -> bool {
    (t: Transaction) => t.id == id
  }

  /** The position `findIndex(t => t.id === id)`. */
  function TransactionIndex(txs: seq<Transaction>, id: int): (i: int)
    ensures -1 <= i < |txs|
    ensures 0 <= i ==> txs[i].id == id && forall j :: 0 <= j < i ==> txs[j].id != id
    ensures i == -1 <==> forall t :: t in txs ==> t.id != id
  {
    FindIndex(txs, HasId(id))
  }

  /** `getTransactionById`: the first transaction with that id. */
  function GetTransactionById(txs: seq<Transaction>, id: int): (r: Option<Transaction>)
    ensures r.Some? ==> r.value in txs && r.value.id == id
    ensures r.None? <==> forall t :: t in txs ==> t.id != id
    ensures r.Some? ==> 0 <= TransactionIndex(txs, id) && r.value == txs[TransactionIndex(txs, id)]
  {
    Find(txs, HasId(id))
  }

  // ---------------------------------------------------------------------
  // Ledger updates.

  /** `handleTransactionSubmit`: a new transaction (no edit id) is appended with
      a fresh id; an edit replaces the first transaction with the edited id,
      keeping its id and creation time. Editing an id that is not in the ledger
      fails (the source throws reading `.createdAt` of a missing transaction)
      before anything changes. */
  function SaveTransaction(txs: seq<Transaction>, editId: Option<int>, form: TransactionForm,
                           freshId: int, now: string): (r: Option<seq<Transaction>>)
    ensures editId.None? ==> r == Some(txs + [FromForm(form, freshId, now)])
    ensures editId.Some? ==> (r.None? <==> forall t :: t in txs ==> t.id != editId.value)
    ensures editId.Some? && r.Some? ==>
      var i := TransactionIndex(txs, editId.value);
      && |r.value| == |txs|
      && 0 <= i
      && r.value[i] == FromForm(form, editId.value, txs[i].createdAt)
      && forall j :: 0 <= j < |txs| && j != i ==> r.value[j] == txs[j]
  {
    match editId
    case None => Some(txs + [FromForm(form, freshId, now)])
    case Some(id) =>
      match GetTransactionById(txs, id)
      case None => None
      case Some(found) =>
        var i := TransactionIndex(txs, id);
        Some(txs[i := FromForm(form, id, found.createdAt)])
  }

  /** `deleteTransaction`: keep every transaction whose id differs. */
  function WithoutTransaction(txs: seq<Transaction>, id: int): (r: seq<Transaction>)
    ensures forall t :: t in r <==> t in txs && t.id != id
    ensures (forall t :: t in txs ==> t.id != id) ==> r == txs
  {
    var keep := (t: Transaction) => t.id != id;
    FilterKeepsAll(txs, keep);
    Filter(txs, keep)
  }

  /** `deleteCategory`: remove the id from both partitions. */
  function WithoutCategory(cats: Categories, id: int): (r: Categories)
    ensures forall c :: c in r.income <==> c in cats.income && c.id != id
    ensures forall c :: c in r.expense <==> c in cats.expense && c.id != id
    ensures GetCategoryById(r, id).None?
  {
    Categories(Filter(cats.income, (c: Category) => c.id != id), Filter(cats.expense, (c: Category) => c.id != id))
  }

  /** A created transaction can be found by its id, with every field as
      submitted; deleting that id makes it unreachable again. */
  lemma AddedTransactionIsRetrievable(txs: seq<Transaction>, form: TransactionForm, freshId: int, now: string)
    requires GetTransactionById(txs, freshId).None?
    ensures var saved := SaveTransaction(txs, None, form, freshId, now).value;
      && GetTransactionById(saved, freshId) == Some(FromForm(form, freshId, now))
      && WithoutTransaction(saved, freshId) == txs
  {
    var t := FromForm(form, freshId, now);
    var saved := txs + [t];
    assert forall j :: 0 <= j < |txs| ==> saved[j].id != freshId by {
      forall j | 0 <= j < |txs| ensures saved[j].id != freshId {
        assert saved[j] == txs[j] && txs[j] in txs;
      }
    }
    assert TransactionIndex(saved, freshId) == |txs|;
    assert saved[..|saved| - 1] == txs;
    FilterKeepsAll(txs, (x: Transaction) => x.id != freshId);
  }

  /** An edited transaction is what a later lookup of its id returns. */
  lemma EditedTransactionIsRetrievable(txs: seq<Transaction>, id: int, form: TransactionForm, freshId: int, now: string)
    requires GetTransactionById(txs, id).Some?
    ensures var saved := SaveTransaction(txs, Some(id), form, freshId, now);
      && saved.Some?
      && |saved.value| == |txs|
      && GetTransactionById(saved.value, id) == Some(FromForm(form, id, GetTransactionById(txs, id).value.createdAt))
  {
    var i := TransactionIndex(txs, id);
    var saved := SaveTransaction(txs, Some(id), form, freshId, now).value;
    assert forall j :: 0 <= j < i ==> saved[j] == txs[j];
    assert TransactionIndex(saved, id) == i;
  }

  // ---------------------------------------------------------------------
  // The transaction list filter (`applyFilters`), with the form inputs as
  // parameters: an empty date input or the choice "all" is `None`.

  /** One transaction against the four filter inputs. Dates are compared as
      their "YYYY-MM-DD" texts, as the source does. */
  predicate MatchesFilters(t: Transaction, from: Option<Date>, to: Option<Date>,
                           kind: Option<Kind>, categoryId: Option<int>)
  {
    && (from.Some? ==> StringLe(from.value, t.date))
    && (to.Some? ==> StringLe(t.date, to.value))
    && (kind.Some? ==> t.kind == kind.value)
    && (categoryId.Some? ==> t.categoryId == categoryId.value)
  }

  /** The test of the filters that are set, as one function. */
  function Matching(from: Option<Date>, to: Option<Date>, kind: Option<Kind>, categoryId: Option<int>): Transaction -> bool {
    (t: Transaction) => MatchesFilters(t, from, to, kind, categoryId)
  }

  /** `applyFilters`: each filter that is set narrows the list in turn. The
      result is the single filter by all of them, so the list order is kept. */
  function FilterTransactions(txs: seq<Transaction>, from: Option<Date>, to: Option<Date>,
                              kind: Option<Kind>, categoryId: Option<int>): (r: seq<Transaction>)
    ensures r == Filter(txs, Matching(from, to, kind, categoryId))
    ensures forall t :: t in r <==> t in txs && MatchesFilters(t, from, to, kind, categoryId)
    ensures |r| <= |txs|
  {
    var byFrom := if from.Some? then Filter(txs, Matching(from, None, None, None)) else txs;
    var byTo := if to.Some? then Filter(byFrom, Matching(None, to, None, None)) else byFrom;
    var byKind := if kind.Some? then Filter(byTo, Matching(None, None, kind, None)) else byTo;
    var r := if categoryId.Some? then Filter(byKind, Matching(None, None, None, categoryId)) else byKind;
    var none := Matching(None, None, None, None);
    FilterKeepsAll(txs, none);
    FilterStage(txs, none, txs, from.Some?, Matching(from, None, None, None), Matching(from, None, None, None));
    FilterStage(txs, Matching(from, None, None, None), byFrom, to.Some?, Matching(None, to, None, None),
                Matching(from, to, None, None));
    FilterStage(txs, Matching(from, to, None, None), byTo, kind.Some?, Matching(None, None, kind, None),
                Matching(from, to, kind, None));
    FilterStage(txs, Matching(from, to, kind, None), byKind, categoryId.Some?, Matching(None, None, None, categoryId),
                Matching(from, to, kind, categoryId));
    r
  }
}
