/** The recurring-transaction scheduler: when a rule is due, the transaction
    it generates, and what one run over the rule list produces. The run
    itself, which updates the application's lists in place, is
    `App.MRMApp.ProcessRecurringTransactions`; the functions here are its
    specification. */
module Scheduler {
  import opened Calendar
  import opened Seqs
  import opened Ledger

  /** The frequency text of a rule; any other text is kept as `OtherFrequency`. */
  datatype Frequency = Daily | Weekly | Monthly | Yearly | OtherFrequency(name: string)

  /** The `switch (recurring.frequency)` cases: the four known names, and anything else. */
  function ParseFrequency(text: string): (f: Frequency)
    ensures f == Daily <==> text == "daily"
    ensures f == Weekly <==> text == "weekly"
    ensures f == Monthly <==> text == "monthly"
    ensures f == Yearly <==> text == "yearly"
    ensures f.OtherFrequency? ==> f.name == text
  {
    if text == "daily" then Daily
    else if text == "weekly" then Weekly
    else if text == "monthly" then Monthly
    else if text == "yearly" then Yearly
    else OtherFrequency(text)
  }

  /** A recurring rule. An empty or unreadable start date is `None`: every
      comparison with it is false. `lastProcessed` is `None` until the rule
      first fires. */
  datatype RecurringRule = RecurringRule(
    id: int,
    kind: Kind,
    amount: real,
    description: string,
    categoryId: int,
    frequency: Frequency,
    startDate: Option<Date>,
    lastProcessed: Option<Date>,
    createdAt: string)

  /** The whole days that must separate two firings; none for an unknown frequency. */
  function IntervalDays(f: Frequency): (n: Option<int>)
    ensures n.Some? <==> !f.OtherFrequency?
    ensures n.Some? ==> 1 <= n.value <= 365
  {
    match f
    case Daily => Some(1)
    case Weekly => Some(7)
    case Monthly => Some(30)
    case Yearly => Some(365)
    case OtherFrequency(_) => None
  }

  /** `shouldProcessRecurring`. */
  predicate ShouldProcessRecurring(r: RecurringRule, today: Date) {
    if r.startDate.Some? && DayNumber(today) < DayNumber(r.startDate.value) then false
    else
      match r.lastProcessed
      case None => r.startDate.Some? && DayNumber(today) >= DayNumber(r.startDate.value)
      case Some(last) =>
        match IntervalDays(r.frequency)
        case None => false
        case Some(n) => DaysBetween(today, last) >= n
  }

  /** When a rule is due: never before its start date; before its first
      firing, exactly from the start date on; afterwards, exactly when a whole
      interval has passed since the last firing, and never for an unknown
      frequency. A due rule last fired on an earlier day. */
  lemma DueCharacterisation(r: RecurringRule, today: Date)
    ensures r.startDate.Some? && DayNumber(today) < DayNumber(r.startDate.value) ==> !ShouldProcessRecurring(r, today)
    ensures r.lastProcessed.None? ==>
      (ShouldProcessRecurring(r, today) <==> r.startDate.Some? && DayNumber(r.startDate.value) <= DayNumber(today))
    ensures r.lastProcessed.Some? && (r.startDate.None? || DayNumber(r.startDate.value) <= DayNumber(today)) ==>
      (ShouldProcessRecurring(r, today) <==>
         IntervalDays(r.frequency).Some? && DaysBetween(today, r.lastProcessed.value) >= IntervalDays(r.frequency).value)
    ensures r.lastProcessed.Some? && r.frequency.OtherFrequency? ==> !ShouldProcessRecurring(r, today)
    ensures ShouldProcessRecurring(r, today) && r.lastProcessed.Some? ==>
      DayNumber(r.lastProcessed.value) < DayNumber(today)
  {
  }

  /** The rule after it fired on `today`. */
  function Fired(r: RecurringRule, today: Date): (f: RecurringRule)
    ensures f.lastProcessed == Some(today)
    ensures f == r.(lastProcessed := Some(today))
  {
    r.(lastProcessed := Some(today))
  }

  const AutoSuffix: string := " (Auto)"
  const AutoNotes: string := "Automatically generated from recurring transaction"

  /** The transaction a rule generates on `today`, with the supplied id and creation time. */
  function Instance(r: RecurringRule, today: Date, id: int, now: string): (t: Transaction)
    ensures t.kind == r.kind && t.amount == r.amount && t.categoryId == r.categoryId
    ensures t.date == today && t.id == id && t.createdAt == now
    ensures t.description == r.description + AutoSuffix && t.notes == AutoNotes
  {
    Transaction(id, r.kind, r.amount, r.description + AutoSuffix, r.categoryId, today, AutoNotes, now)
  }

  /** What one rule becomes during a run on `today`: stamped with `today`
      exactly when it was due, and not due again that day either way. */
  function Step(r: RecurringRule, today: Date): (s: RecurringRule)
    ensures s.lastProcessed == if ShouldProcessRecurring(r, today) then Some(today) else r.lastProcessed
    ensures s == r.(lastProcessed := s.lastProcessed)
    ensures !ShouldProcessRecurring(s, today)
  {
    if ShouldProcessRecurring(r, today) then
      FiredIsNotDueSameDay(r, today);
      Fired(r, today)
    else r
  }

  /** The rule list after a run on `today`: every due rule fired, every other rule untouched. */
  function Advance(rules: seq<RecurringRule>, today: Date): (r: seq<RecurringRule>)
    ensures |r| == |rules|
    decreases |rules|
  {
    if rules == [] then []
    else Advance(rules[..|rules| - 1], today) + [Step(rules[|rules| - 1], today)]
  }

  /** Each rule is advanced on its own: a run changes no rule because of another. */
  lemma {:induction false} AdvanceSteps(rules: seq<RecurringRule>, today: Date)
    ensures forall i :: 0 <= i < |rules| ==> Advance(rules, today)[i] == Step(rules[i], today)
    decreases |rules|
  {
    if rules != [] {
      var init := rules[..|rules| - 1];
      AdvanceSteps(init, today);
      forall i | 0 <= i < |init| ensures rules[i] == init[i] { }
    }
  }

  /** The transactions a run on `today` appends, in rule order; the rule at
      position `i` uses the supplied id `ids[i]`. */
  function Generated(rules: seq<RecurringRule>, today: Date, ids: seq<int>, now: string): (g: seq<Transaction>)
    requires |rules| <= |ids|
    ensures |g| <= |rules|
    decreases |rules|
  {
    if rules == [] then []
    else
      var i := |rules| - 1;
      Generated(rules[..i], today, ids, now)
        + (if ShouldProcessRecurring(rules[i], today) then [Instance(rules[i], today, ids[i], now)] else [])
  }

  /** A run over one more rule: its transaction, if due, comes last. */
  lemma RunOneMore(rules: seq<RecurringRule>, i: nat, today: Date, ids: seq<int>, now: string)
    requires i < |rules| <= |ids|
    ensures Generated(rules[..i + 1], today, ids, now)
         == Generated(rules[..i], today, ids, now)
            + (if ShouldProcessRecurring(rules[i], today) then [Instance(rules[i], today, ids[i], now)] else [])
  {
    assert rules[..i + 1][..i] == rules[..i];
  }

  /** The positions of the due rules, in increasing order. */
  function DueIndices(rules: seq<RecurringRule>, today: Date): (d: seq<nat>)
    ensures forall k :: 0 <= k < |d| ==> d[k] < |rules| && ShouldProcessRecurring(rules[d[k]], today)
    ensures forall k, l :: 0 <= k < l < |d| ==> d[k] < d[l]
    ensures forall i :: 0 <= i < |rules| && ShouldProcessRecurring(rules[i], today) ==> i in d
    decreases |rules|
  {
    if rules == [] then []
    else
      var i := |rules| - 1;
      var before := DueIndices(rules[..i], today);
      if ShouldProcessRecurring(rules[i], today) then before + [i] else before
  }

  /** A run appends exactly one transaction per due rule, in rule order, and
      nothing for a rule that is not due. */
  lemma {:induction false} GeneratedPerDueRule(rules: seq<RecurringRule>, today: Date, ids: seq<int>, now: string)
    requires |rules| <= |ids|
    ensures var g, d := Generated(rules, today, ids, now), DueIndices(rules, today);
      && |g| == |d|
      && forall k :: 0 <= k < |d| ==> g[k] == Instance(rules[d[k]], today, ids[d[k]], now)
    decreases |rules|
  {
    if rules != [] {
      var i := |rules| - 1;
      var init := rules[..i];
      GeneratedPerDueRule(init, today, ids, now);
      var d := DueIndices(init, today);
      forall k | 0 <= k < |d| ensures init[d[k]] == rules[d[k]] {
        assert d[k] in d;
      }
    }
  }

  /** `t` carries the type, amount and category of rule `r`. */
  predicate CopiesRule(t: Transaction, r: RecurringRule) {
    t.kind == r.kind && t.amount == r.amount && t.categoryId == r.categoryId
  }

  /** Each generated transaction is dated `today` and copies the type, amount
      and category of a rule that was due. */
  lemma GeneratedCopiesRules(rules: seq<RecurringRule>, today: Date, ids: seq<int>, now: string)
    requires |rules| <= |ids|
    ensures forall t :: t in Generated(rules, today, ids, now) ==>
      t.date == today && exists i :: 0 <= i < |rules| && ShouldProcessRecurring(rules[i], today) && CopiesRule(t, rules[i])
  {
    var g, d := Generated(rules, today, ids, now), DueIndices(rules, today);
    GeneratedPerDueRule(rules, today, ids, now);
    forall t | t in g
      ensures t.date == today && exists i :: 0 <= i < |rules| && ShouldProcessRecurring(rules[i], today) && CopiesRule(t, rules[i])
    {
      var k :| 0 <= k < |g| && g[k] == t;
      assert ShouldProcessRecurring(rules[d[k]], today) && CopiesRule(t, rules[d[k]]);
    }
  }

  /** A rule that fired on `today` is not due again on `today`. */
  lemma FiredIsNotDueSameDay(r: RecurringRule, today: Date)
    requires ShouldProcessRecurring(r, today)
    ensures !ShouldProcessRecurring(Fired(r, today), today)
  {
  }

  /** A run leaves no rule due on the same day. */
  lemma NothingDueAfterRun(rules: seq<RecurringRule>, today: Date)
    ensures forall i :: 0 <= i < |rules| ==> !ShouldProcessRecurring(Advance(rules, today)[i], today)
  {
    AdvanceSteps(rules, today);
    forall i | 0 <= i < |rules| ensures !ShouldProcessRecurring(Advance(rules, today)[i], today) {
      if ShouldProcessRecurring(rules[i], today) {
        FiredIsNotDueSameDay(rules[i], today);
      }
    }
  }

  /** With no rule due, a run appends nothing. */
  lemma {:induction false} NothingDueGeneratesNothing(rules: seq<RecurringRule>, today: Date, ids: seq<int>, now: string)
    requires |rules| <= |ids|
    requires forall i :: 0 <= i < |rules| ==> !ShouldProcessRecurring(rules[i], today)
    ensures Generated(rules, today, ids, now) == []
    decreases |rules|
  {
    if rules != [] {
      NothingDueGeneratesNothing(rules[..|rules| - 1], today, ids, now);
    }
  }

  /** Idempotence within a day: a second run on the same day appends nothing
      and changes no rule. */
  lemma SecondRunSameDay(rules: seq<RecurringRule>, today: Date, ids: seq<int>, now: string)
    requires |rules| <= |ids|
    ensures Generated(Advance(rules, today), today, ids, now) == []
    ensures Advance(Advance(rules, today), today) == Advance(rules, today)
  {
    NothingDueAfterRun(rules, today);
    NothingDueGeneratesNothing(Advance(rules, today), today, ids, now);
  }

  /** After firing on `today`, a rule is next due on the first day that lies a
      whole interval after `today`; a rule of unknown frequency never again. */
  lemma NextFiring(r: RecurringRule, today: Date, later: Date)
    requires ShouldProcessRecurring(r, today)
    ensures ShouldProcessRecurring(Fired(r, today), later)
        <==> IntervalDays(r.frequency).Some? && DaysBetween(later, today) >= IntervalDays(r.frequency).value
  {
  }

  /** A weekly rule that started and last fired on 1 January 2025 is not due
      on 7 January and is due on 8 January. */
  lemma WeeklyRuleExample(r: RecurringRule)
    requires r.frequency == Weekly
    requires r.startDate == Some(Date(2025, 0, 1)) && r.lastProcessed == Some(Date(2025, 0, 1))
    ensures !ShouldProcessRecurring(r, Date(2025, 0, 7))
    ensures ShouldProcessRecurring(r, Date(2025, 0, 8))
  {
  }

  /** A monthly rule fires on its start day; a second run that day generates nothing. */
  lemma MonthlyRuleFirstDay(r: RecurringRule, ids: seq<int>, now: string)
    requires r.frequency == Monthly && r.startDate == Some(Date(2025, 0, 15)) && r.lastProcessed.None?
    requires |ids| >= 1
    ensures Generated([r], Date(2025, 0, 15), ids, now) == [Instance(r, Date(2025, 0, 15), ids[0], now)]
    ensures Generated(Advance([r], Date(2025, 0, 15)), Date(2025, 0, 15), ids, now) == []
  {
    assert [r][..0] == [];
    SecondRunSameDay([r], Date(2025, 0, 15), ids, now);
  }

  /** `deleteRecurring`: keep every rule whose id differs. */
  function WithoutRule(rules: seq<RecurringRule>, id: int): (r: seq<RecurringRule>)
    ensures forall x :: x in r <==> x in rules && x.id != id
    ensures |r| <= |rules|
  {
    Filter(rules, (x: RecurringRule) => x.id != id)
  }

  /** The fields of the recurring-rule form. */
  datatype RecurringForm = RecurringForm(
    kind: Kind,
    amount: real,
    description: string,
    categoryId: int,
    frequency: Frequency,
    startDate: Option<Date>)

  /** `handleRecurringSubmit`: a new rule that has never fired. */
  function NewRule(form: RecurringForm, id: int, createdAt: string): (r: RecurringRule)
    ensures r.lastProcessed.None? && r.id == id && r.createdAt == createdAt
    ensures r.kind == form.kind && r.amount == form.amount && r.categoryId == form.categoryId
    ensures r.description == form.description && r.frequency == form.frequency && r.startDate == form.startDate
  {
    RecurringRule(id, form.kind, form.amount, form.description, form.categoryId, form.frequency,
                  form.startDate, None, createdAt)
  }

  /** A new rule first fires on the first run on or after its start date. */
  lemma NewRuleFirstDue(form: RecurringForm, id: int, createdAt: string, today: Date)
    ensures ShouldProcessRecurring(NewRule(form, id, createdAt), today)
        <==> form.startDate.Some? && DayNumber(form.startDate.value) <= DayNumber(today)
  {
  }
}
