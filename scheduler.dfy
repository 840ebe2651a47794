// ScheduledTasksService: the daily job that turns due recurring rules into
// transactions and the monthly job that renews auto-renewing budgets.
// "Today", "now" and the due list are parameters: the clock is outside the
// model, and the due list is whatever findDueRecurringTransactions returns
// (active rules whose next execution date is on or before today).

module Scheduler {
  import opened Common
  import opened Calendar
  import opened Entities
  import opened Database
  import opened Money
  import opened BudgetQueries
  import opened BudgetAlert
  import opened RecurringService
  import opened TransactionService

  // ---------------------------------------------------------------------
  // calculateNextExecutionDate
  // ---------------------------------------------------------------------

  /** One period after d: a day, a week, a month (the day clamped to the
      length of the next month) or a year (29 February clamped to 28). */
  function NextExecutionDate(d: Date, s: ScheduleType): (r: Date)
    requires ValidDate(d)
    ensures ValidDate(r)
    ensures s == DAILY ==> EpochDay(r) == EpochDay(d) + 1
    ensures s == WEEKLY ==> EpochDay(r) == EpochDay(d) + 7
    ensures s == MONTHLY ==>
      r.year * 12 + r.month == d.year * 12 + d.month + 1 && r.day == Min(d.day, DaysInMonth(r.year, r.month))
    ensures s == YEARLY ==>
      r.year == d.year + 1 && r.month == d.month && r.day == Min(d.day, DaysInMonth(r.year, r.month))
  {
    match s
    case DAILY => PlusDays(d, 1)
    case WEEKLY => PlusWeeks(d, 1)
    case MONTHLY => PlusMonths(d, 1)
    case YEARLY => PlusYears(d, 1)
  }

  /** Every schedule moves the date strictly forward, so a processed rule
      is not due again on the same date. */
  lemma NextExecutionLater(d: Date, s: ScheduleType)
    requires ValidDate(d)
    ensures IsBefore(d, NextExecutionDate(d, s))
    ensures EpochDay(d) < EpochDay(NextExecutionDate(d, s))
  {
    var r := NextExecutionDate(d, s);
    match s
    case DAILY => EpochDayOrder(d, r);
    case WEEKLY => EpochDayOrder(d, r);
    case MONTHLY =>
      assert r.year > d.year || (r.year == d.year && r.month == d.month + 1);
      EpochDayOrder(d, r);
    case YEARLY => EpochDayOrder(d, r);
  }

  /** A yearly rule on 29 February runs on 28 February the next year. */
  lemma YearlyLeapDay(d: Date)
    requires ValidDate(d) && d.month == 2 && d.day == 29
    ensures NextExecutionDate(d, YEARLY) == Date(d.year + 1, 2, 28)
  {
    assert IsLeapYear(d.year);
    assert !IsLeapYear(d.year + 1);
  }

  // ---------------------------------------------------------------------
  // processRecurringTransactions
  // ---------------------------------------------------------------------

  /** The contract of findDueRecurringTransactions(today). */
  predicate IsDue(x: RecurringRule, today: Date)
  {
    x.isActive && !IsAfter(x.nextExecutionDate, today)
  }

  /** The end date has passed: today.isAfter(endDate), so a rule whose end
      date is today still runs. */
  predicate Expired(x: RecurringRule, today: Date)
  {
    x.endDate.Some? && IsAfter(today, x.endDate.value)
  }

  /** What a stored rule guarantees about its dates and category. */
  predicate RuleReady(x: RecurringRule, cats: seq<Category>)
  {
    ValidDate(x.nextExecutionDate) && x.categoryId in CategoryIds(cats)
  }

  /** What the stored budgets guarantee to the alert check. */
  predicate AlertReady(budgets: seq<Budget>, cats: seq<Category>)
  {
    forall b :: b in budgets ==> b.budgetAmount > 0 && b.categoryId in CategoryIds(cats)
  }

  /** Transaction.builder() in the job. */
  function RuleTransaction(id: Id, x: RecurringRule): Transaction
    requires ValidDate(x.nextExecutionDate)
  {
    Transaction(id, x.userId, x.categoryId, x.amount, x.description, AtStartOfDay(x.nextExecutionDate),
                true, Some(x.id))
  }

  /** A generated transaction: the rule's amount, description, user and
      category, dated at the start of the rule's execution day, flagged as
      automatic and linked back to the rule. */
  predicate FromRule(t: Transaction, x: RecurringRule)
  {
    ValidDate(x.nextExecutionDate) &&
    t.userId == x.userId && t.categoryId == x.categoryId && t.amount == x.amount &&
    t.description == x.description && t.transactionDate == AtStartOfDay(x.nextExecutionDate) &&
    t.isCreatedAutomatically && t.recurringTransactionId == Some(x.id)
  }

  /** The rule as saved by the job: deactivated when expired, otherwise
      moved on by one period. */
  function RuleAfterRun(x: RecurringRule, today: Date): RecurringRule
    requires ValidDate(x.nextExecutionDate)
  {
    if Expired(x, today) then SetActive(x, false)
    else x.(nextExecutionDate := NextExecutionDate(x.nextExecutionDate, x.scheduleType))
  }

  /** The tables the job writes. */
  datatype Run = Run(rules: seq<RecurringRule>, transactions: seq<Transaction>,
                     notifications: seq<Notification>, nextId: nat)

  function Snapshot(db: Db): Run
    reads db
  {
    Run(db.rules, db.transactions, db.notifications, db.nextId)
  }

  /** One iteration of the loop over the due list. */
  function ProcessOne(s: Run, budgets: seq<Budget>, cats: seq<Category>, x: RecurringRule, today: Date,
                      threshold: Threshold, now: int): Run
    requires RuleReady(x, cats) && AlertReady(budgets, cats) && ValidThreshold(threshold)
  {
    var saved := s.(rules := ReplaceBy(s.rules, RuleKey, RuleAfterRun(x, today)));
    if Expired(x, today) then saved
    else SaveWithAlerts(saved, budgets, cats, RuleTransaction(s.nextId, x), threshold, now)
  }

  /** Saving a new transaction t, then the alert check's notification. */
  function SaveWithAlerts(s: Run, budgets: seq<Budget>, cats: seq<Category>, t: Transaction,
                          threshold: Threshold, now: int): Run
    requires ValidDateTime(t.transactionDate) && AlertReady(budgets, cats) && ValidThreshold(threshold)
  {
    var txs := s.transactions + [t];
    var sent := AlertsFor(budgets, txs, cats, t, threshold, s.nextId + 1, now);
    Run(s.rules, txs, s.notifications + sent, s.nextId + 1 + |sent|)
  }

  /** The whole loop, rule by rule in the order of the due list. */
  function ProcessAll(s: Run, budgets: seq<Budget>, cats: seq<Category>, due: seq<RecurringRule>, today: Date,
                      threshold: Threshold, now: int): Run
    requires forall x :: x in due ==> RuleReady(x, cats)
    requires AlertReady(budgets, cats) && ValidThreshold(threshold)
    decreases |due|
  {
    if due == [] then s
    else ProcessOne(ProcessAll(s, budgets, cats, due[..|due| - 1], today, threshold, now),
                    budgets, cats, due[|due| - 1], today, threshold, now)
  }

  function Live(today: Date): RecurringRule -> bool
  {
    (x: RecurringRule) => !Expired(x, today)
  }

  /** txs is base followed by one generated transaction per rule of live,
      in order. */
  predicate Generated(base: seq<Transaction>, txs: seq<Transaction>, live: seq<RecurringRule>)
  {
    |txs| == |base| + |live| && txs[..|base|] == base &&
    forall k :: 0 <= k < |live| ==> FromRule(txs[|base| + k], live[k])
  }

  lemma GeneratedStep(base: seq<Transaction>, txs: seq<Transaction>, live: seq<RecurringRule>,
                      t: Transaction, x: RecurringRule)
    requires Generated(base, txs, live) && FromRule(t, x)
    ensures Generated(base, txs + [t], live + [x])
  {
    assert (txs + [t])[..|base|] == txs[..|base|];
  }

  /** Each rule of due has been saved as RuleAfterRun says; the other rows
      of orig are unchanged. */
  predicate RulesAfter(orig: seq<RecurringRule>, rules: seq<RecurringRule>, due: seq<RecurringRule>, today: Date)
  {
    |rules| == |orig| &&
    (forall i :: 0 <= i < |orig| && (forall x :: x in due ==> x.id != orig[i].id) ==> rules[i] == orig[i]) &&
    (forall i, x :: 0 <= i < |orig| && x in due && x.id == orig[i].id ==>
       ValidDate(x.nextExecutionDate) && rules[i] == RuleAfterRun(x, today))
  }

  lemma RulesAfterStep(orig: seq<RecurringRule>, rules: seq<RecurringRule>, due: seq<RecurringRule>,
                       x: RecurringRule, today: Date)
    requires RulesAfter(orig, rules, due, today) && ValidDate(x.nextExecutionDate)
    requires forall y :: y in due ==> y.id != x.id
    ensures RulesAfter(orig, ReplaceBy(rules, RuleKey, RuleAfterRun(x, today)), due + [x], today)
  {
    var next := ReplaceBy(rules, RuleKey, RuleAfterRun(x, today));
    forall i | 0 <= i < |orig| && (forall y :: y in due + [x] ==> y.id != orig[i].id)
      ensures next[i] == orig[i]
    {
      assert x in due + [x];
      forall y | y in due ensures y.id != orig[i].id {
        assert y in due + [x];
      }
    }
    forall i, y | 0 <= i < |orig| && y in due + [x] && y.id == orig[i].id
      ensures ValidDate(y.nextExecutionDate) && next[i] == RuleAfterRun(y, today)
    {
      if y != x {
        assert y in due;
      } else {
        forall z | z in due ensures z.id != orig[i].id { }
      }
    }
  }

  /** The job appends exactly one transaction per rule that has not
      expired, in the order of the due list, and keeps the stored ones. */
  lemma {:induction false} ProcessAllTransactions(s: Run, budgets: seq<Budget>, cats: seq<Category>,
                                                  due: seq<RecurringRule>, today: Date, threshold: Threshold,
                                                  now: int)
    requires forall x :: x in due ==> RuleReady(x, cats)
    requires AlertReady(budgets, cats) && ValidThreshold(threshold)
    ensures Generated(s.transactions, ProcessAll(s, budgets, cats, due, today, threshold, now).transactions,
                      Filter(due, Live(today)))
    decreases |due|
  {
    if due == [] {
      assert s.transactions[..|s.transactions|] == s.transactions;
    } else {
      var init, x := due[..|due| - 1], due[|due| - 1];
      assert due == init + [x];
      assert forall y :: y in init ==> y in due;
      ProcessAllTransactions(s, budgets, cats, init, today, threshold, now);
      FilterAppend(init, [x], Live(today));
      var mid := ProcessAll(s, budgets, cats, init, today, threshold, now);
      assert x in due;
      ProcessOneTransactions(mid, budgets, cats, x, today, threshold, now);
      if !Expired(x, today) {
        GeneratedStep(s.transactions, mid.transactions, Filter(init, Live(today)), RuleTransaction(mid.nextId, x), x);
      }
    }
  }

  lemma ProcessOneTransactions(s: Run, budgets: seq<Budget>, cats: seq<Category>, x: RecurringRule, today: Date,
                               threshold: Threshold, now: int)
    requires RuleReady(x, cats) && AlertReady(budgets, cats) && ValidThreshold(threshold)
    ensures ProcessOne(s, budgets, cats, x, today, threshold, now).transactions ==
      (if Expired(x, today) then s.transactions else s.transactions + [RuleTransaction(s.nextId, x)])
    ensures ProcessOne(s, budgets, cats, x, today, threshold, now).rules ==
      ReplaceBy(s.rules, RuleKey, RuleAfterRun(x, today))
    ensures Filter([x], Live(today)) == (if Expired(x, today) then [] else [x])
  {
  }

  /** Each rule of the due list is saved once, as RuleAfterRun says: an
      expired rule is deactivated with its next execution date kept, any
      other moves on by exactly one period. Rules not in the list stay. */
  lemma {:induction false} ProcessAllRules(s: Run, budgets: seq<Budget>, cats: seq<Category>,
                                           due: seq<RecurringRule>, today: Date, threshold: Threshold, now: int)
    requires forall x :: x in due ==> RuleReady(x, cats)
    requires AlertReady(budgets, cats) && ValidThreshold(threshold)
    requires forall a, b :: 0 <= a < b < |due| ==> due[a].id != due[b].id
    ensures RulesAfter(s.rules, ProcessAll(s, budgets, cats, due, today, threshold, now).rules, due, today)
    decreases |due|
  {
    if due != [] {
      var init, x := due[..|due| - 1], due[|due| - 1];
      assert due == init + [x];
      assert forall y :: y in init ==> y in due;
      forall y | y in init ensures y.id != x.id {
        var k :| 0 <= k < |init| && init[k] == y;
        assert due[k] == y;
      }
      ProcessAllRules(s, budgets, cats, init, today, threshold, now);
      var mid := ProcessAll(s, budgets, cats, init, today, threshold, now);
      assert x in due;
      ProcessOneTransactions(mid, budgets, cats, x, today, threshold, now);
      RulesAfterStep(s.rules, mid.rules, init, x, today);
    }
  }

  /** ProcessOne for a rule that has not expired, with the new transaction
      t, the table txs after saving it, and the alert's id named. */
  lemma ProcessOneLive(s: Run, budgets: seq<Budget>, cats: seq<Category>, x: RecurringRule, today: Date,
                       threshold: Threshold, now: int, t: Transaction, txs: seq<Transaction>, id: Id)
    requires RuleReady(x, cats) && AlertReady(budgets, cats) && ValidThreshold(threshold)
    requires !Expired(x, today) && t == RuleTransaction(s.nextId, x) && txs == s.transactions + [t]
    requires id == s.nextId + 1
    ensures ProcessOne(s, budgets, cats, x, today, threshold, now) ==
      Run(ReplaceBy(s.rules, RuleKey, RuleAfterRun(x, today)), txs,
          s.notifications + AlertsFor(budgets, txs, cats, t, threshold, id, now),
          id + |AlertsFor(budgets, txs, cats, t, threshold, id, now)|)
  {
    var saved := s.(rules := ReplaceBy(s.rules, RuleKey, RuleAfterRun(x, today)));
    ProcessOneSaves(s, budgets, cats, x, today, threshold, now);
    SaveWithAlertsNamed(saved, budgets, cats, t, threshold, now, txs, id);
  }

  lemma ProcessOneSaves(s: Run, budgets: seq<Budget>, cats: seq<Category>, x: RecurringRule, today: Date,
                        threshold: Threshold, now: int)
    requires RuleReady(x, cats) && AlertReady(budgets, cats) && ValidThreshold(threshold) && !Expired(x, today)
    ensures ProcessOne(s, budgets, cats, x, today, threshold, now) ==
      SaveWithAlerts(s.(rules := ReplaceBy(s.rules, RuleKey, RuleAfterRun(x, today))), budgets, cats,
                     RuleTransaction(s.nextId, x), threshold, now)
  {
  }

  lemma SaveWithAlertsNamed(s: Run, budgets: seq<Budget>, cats: seq<Category>, t: Transaction, threshold: Threshold,
                            now: int, txs: seq<Transaction>, id: Id)
    requires ValidDateTime(t.transactionDate) && AlertReady(budgets, cats) && ValidThreshold(threshold)
    requires txs == s.transactions + [t] && id == s.nextId + 1
    ensures SaveWithAlerts(s, budgets, cats, t, threshold, now) ==
      Run(s.rules, txs, s.notifications + AlertsFor(budgets, txs, cats, t, threshold, id, now),
          id + |AlertsFor(budgets, txs, cats, t, threshold, id, now)|)
  {
  }

  /** Saving a rule after its run keeps the rules table valid and keeps
      every other rule. */
  lemma RuleReplacedOk(rules: seq<RecurringRule>, cats: seq<Category>, next: nat, x: RecurringRule, today: Date)
    requires RulesOk(rules, cats, next) && x in rules
    ensures RulesOk(ReplaceBy(rules, RuleKey, RuleAfterRun(x, today)), cats, next)
    ensures forall y :: y in rules && y.id != x.id ==> y in ReplaceBy(rules, RuleKey, RuleAfterRun(x, today))
  {
    var n := RuleAfterRun(x, today);
    assert !TakenByOther(rules, RuleKey, RuleNameKey, n);
    UniqueReplace(rules, RuleKey, RuleNameKey, n);
    var after := ReplaceBy(rules, RuleKey, n);
    forall y | y in rules && y.id != x.id
      ensures y in after
    {
      var k :| 0 <= k < |rules| && rules[k] == y;
      assert after[k] == y;
    }
  }

  /** One pass of the loop body on the database. */
  method RunRule(db: Db, x: RecurringRule, today: Date, threshold: Threshold, now: int)
    requires db.Valid() && ValidThreshold(threshold) && x in db.rules
    modifies db`rules, db`transactions, db`notifications, db`nextId
    ensures db.Valid()
    ensures RuleReady(x, db.categories) && AlertReady(db.budgets, db.categories)
    ensures forall y :: y in old(db.rules) && y.id != x.id ==> y in db.rules
    ensures Snapshot(db) == ProcessOne(old(Snapshot(db)), db.budgets, db.categories, x, today, threshold, now)
  {
    ghost var s0 := Snapshot(db);
    var n := RuleAfterRun(x, today);
    RuleReplacedOk(db.rules, db.categories, db.nextId, x, today);
    db.rules := ReplaceBy(db.rules, RuleKey, n);
    if !Expired(x, today) {
      var r := Ok(RuleTransaction(db.nextId, x));
      ghost var alertId := SaveAndAlert(db, r.value, threshold, now);
      ProcessOneLive(s0, db.budgets, db.categories, x, today, threshold, now, r.value, db.transactions, alertId);
    }
  }

  lemma ProcessAllSnoc(s: Run, budgets: seq<Budget>, cats: seq<Category>, due: seq<RecurringRule>, i: nat,
                       today: Date, threshold: Threshold, now: int)
    requires forall x :: x in due ==> RuleReady(x, cats)
    requires AlertReady(budgets, cats) && ValidThreshold(threshold) && i < |due|
    ensures ProcessAll(s, budgets, cats, due[..i + 1], today, threshold, now) ==
            ProcessOne(ProcessAll(s, budgets, cats, due[..i], today, threshold, now), budgets, cats, due[i],
                       today, threshold, now)
  {
    assert due[..i + 1][..i] == due[..i];
  }

  /** processRecurringTransactions(today) over the due list. */
  method ProcessRecurringTransactions(db: Db, due: seq<RecurringRule>, today: Date, threshold: Threshold, now: int)
    requires db.Valid() && ValidThreshold(threshold)
    requires forall x :: x in due ==> x in db.rules && IsDue(x, today)
    requires forall a, b :: 0 <= a < b < |due| ==> due[a].id != due[b].id
    modifies db`rules, db`transactions, db`notifications, db`nextId
    ensures db.Valid()
    ensures forall x :: x in due ==> RuleReady(x, db.categories)
    ensures AlertReady(db.budgets, db.categories)
    ensures Snapshot(db) == ProcessAll(old(Snapshot(db)), db.budgets, db.categories, due, today, threshold, now)
  {
    ghost var start := Snapshot(db);
    var i := 0;
    while i < |due|
      invariant 0 <= i <= |due|
      invariant db.Valid()
      invariant forall x :: x in due ==> RuleReady(x, db.categories)
      invariant forall j :: i <= j < |due| ==> due[j] in db.rules
      invariant Snapshot(db) == ProcessAll(start, db.budgets, db.categories, due[..i], today, threshold, now)
    {
      var x := due[i];
      RunRule(db, x, today, threshold, now);
      ProcessAllSnoc(start, db.budgets, db.categories, due, i, today, threshold, now);
      i := i + 1;
    }
    assert due[..i] == due;
  }

  // ---------------------------------------------------------------------
  // renewBudgets
  // ---------------------------------------------------------------------

  /** YearMonth.now().minusMonths(1). */
  function LastMonth(now: Date): (ym: YearMonth)
    requires ValidDate(now)
    ensures ValidYearMonth(ym)
    ensures ym.year * 12 + ym.month == now.year * 12 + now.month - 1
  {
    PlusMonthsYM(YearMonthOf(now), -1)
  }

  /** Budget.builder() in renewBudgets: same user, category and amount, the
      month after, auto-renewing. */
  function Renewed(b: Budget, id: Id): Budget
    requires ValidDate(b.budgetMonth)
  {
    Budget(id, b.userId, b.categoryId, PlusMonths(b.budgetMonth, 1), b.budgetAmount, true)
  }

  /** The batch handed to saveAll, ids in order from firstId. */
  function RenewedAll(olds: seq<Budget>, firstId: Id): (r: seq<Budget>)
    requires forall b :: b in olds ==> ValidDate(b.budgetMonth)
    ensures |r| == |olds|
  {
    seq(|olds|, k requires 0 <= k < |olds| => Renewed(olds[k], firstId + k))
  }

  lemma RenewedAllSnoc(olds: seq<Budget>, i: nat, firstId: Id)
    requires forall b :: b in olds ==> ValidDate(b.budgetMonth)
    requires i < |olds|
    ensures RenewedAll(olds[..i + 1], firstId) == RenewedAll(olds[..i], firstId) + [Renewed(olds[i], firstId + i)]
  {
    assert forall b :: b in olds[..i + 1] ==> b in olds;
  }

  /** saveAll fails on the unique (user, category, month) constraint when a
      new budget meets a stored one or another new one. */
  predicate RenewClash(budgets: seq<Budget>, batch: seq<Budget>)
  {
    (exists i, j :: 0 <= i < |batch| && 0 <= j < |budgets| && BudgetMonthKey(batch[i]) == BudgetMonthKey(budgets[j])) ||
    (exists i, j :: 0 <= i < j < |batch| && BudgetMonthKey(batch[i]) == BudgetMonthKey(batch[j]))
  }

  /** A budget of last month renews into the month of now, with its day
      clamped to that month's length. */
  lemma RenewedIntoThisMonth(now: Date, b: Budget, id: Id)
    requires ValidDate(now) && ValidDate(b.budgetMonth) && YearMonthOf(b.budgetMonth) == LastMonth(now)
    ensures YearMonthOf(Renewed(b, id).budgetMonth) == YearMonthOf(now)
    ensures b.budgetMonth.day == 1 ==> Renewed(b, id).budgetMonth == FirstDay(YearMonthOf(now))
  {
    var m := Renewed(b, id).budgetMonth;
    MonthIndexInjective(m.year, m.month, now.year, now.month);
  }

  lemma MonthIndexInjective(y1: int, m1: int, y2: int, m2: int)
    requires 1 <= m1 <= 12 && 1 <= m2 <= 12 && y1 * 12 + m1 == y2 * 12 + m2
    ensures y1 == y2 && m1 == m2
  {
  }

  /** The batch renews exactly the auto-renewing budgets of last month: each
      of them has one counterpart in the batch, for the month of now, and
      each entry of the batch comes from one of them. */
  lemma RenewCoversLastMonth(budgets: seq<Budget>, now: Date, firstId: Id)
    requires ValidDate(now) && forall b :: b in budgets ==> ValidDate(b.budgetMonth)
    ensures var ym := LastMonth(now);
      var olds := FindBudgetsToRenew(budgets, FirstDay(ym), LastDay(ym));
      var batch := RenewedAll(olds, firstId);
      (forall b :: b in budgets && b.autoRenew && YearMonthOf(b.budgetMonth) == ym ==>
         exists k :: 0 <= k < |batch| && olds[k] == b && batch[k] == Renewed(b, firstId + k)) &&
      (forall k :: 0 <= k < |batch| ==>
         olds[k] in budgets && olds[k].autoRenew && YearMonthOf(olds[k].budgetMonth) == ym &&
         batch[k].userId == olds[k].userId && batch[k].categoryId == olds[k].categoryId &&
         batch[k].budgetAmount == olds[k].budgetAmount && batch[k].autoRenew &&
         YearMonthOf(batch[k].budgetMonth) == YearMonthOf(now))
  {
    var ym := LastMonth(now);
    var olds := FindBudgetsToRenew(budgets, FirstDay(ym), LastDay(ym));
    var batch := RenewedAll(olds, firstId);
    RenewComplete(budgets, ym, olds, batch, firstId);
    RenewSound(budgets, now, ym, olds, batch, firstId);
  }

  /** Every auto-renewing budget of the month has its counterpart. */
  lemma RenewComplete(budgets: seq<Budget>, ym: YearMonth, olds: seq<Budget>, batch: seq<Budget>, firstId: Id)
    requires ValidYearMonth(ym) && forall b :: b in budgets ==> ValidDate(b.budgetMonth)
    requires olds == FindBudgetsToRenew(budgets, FirstDay(ym), LastDay(ym)) && batch == RenewedAll(olds, firstId)
    ensures forall b :: b in budgets && b.autoRenew && YearMonthOf(b.budgetMonth) == ym ==>
      exists k :: 0 <= k < |batch| && olds[k] == b && batch[k] == Renewed(b, firstId + k)
  {
    forall b | b in budgets && b.autoRenew && YearMonthOf(b.budgetMonth) == ym
      ensures exists k :: 0 <= k < |batch| && olds[k] == b && batch[k] == Renewed(b, firstId + k)
    {
      RenewWindowIsMonth(budgets, ym, b);
      var k :| 0 <= k < |olds| && olds[k] == b;
      assert batch[k] == Renewed(b, firstId + k);
    }
  }

  /** Every entry of the batch renews one of them into the month of now. */
  lemma RenewSound(budgets: seq<Budget>, now: Date, ym: YearMonth, olds: seq<Budget>, batch: seq<Budget>, firstId: Id)
    requires ValidDate(now) && ym == LastMonth(now) && forall b :: b in budgets ==> ValidDate(b.budgetMonth)
    requires olds == FindBudgetsToRenew(budgets, FirstDay(ym), LastDay(ym)) && batch == RenewedAll(olds, firstId)
    ensures forall k :: 0 <= k < |batch| ==>
      olds[k] in budgets && olds[k].autoRenew && YearMonthOf(olds[k].budgetMonth) == ym &&
      batch[k].userId == olds[k].userId && batch[k].categoryId == olds[k].categoryId &&
      batch[k].budgetAmount == olds[k].budgetAmount && batch[k].autoRenew &&
      YearMonthOf(batch[k].budgetMonth) == YearMonthOf(now)
  {
    forall k | 0 <= k < |batch|
      ensures olds[k] in budgets && olds[k].autoRenew && YearMonthOf(olds[k].budgetMonth) == ym
      ensures YearMonthOf(batch[k].budgetMonth) == YearMonthOf(now)
    {
      assert olds[k] in olds;
      RenewWindowIsMonth(budgets, ym, olds[k]);
      RenewedIntoThisMonth(now, olds[k], firstId + k);
    }
  }

  /** Appending a batch without clash keeps the budgets table valid. */
  lemma RenewedAppendOk(budgets: seq<Budget>, cats: seq<Category>, olds: seq<Budget>, firstId: nat)
    requires BudgetsOk(budgets, cats, firstId)
    requires forall b :: b in olds ==> b in budgets
    requires !RenewClash(budgets, RenewedAll(olds, firstId))
    ensures BudgetsOk(budgets + RenewedAll(olds, firstId), cats, firstId + |olds|)
  {
    BatchEntriesOk(budgets, cats, olds, firstId);
    BatchIdsFresh(budgets, olds, firstId);
    BatchMonthsFree(budgets, olds, firstId);
  }

  /** Where a row of the batch comes from. */
  lemma BatchEntry(olds: seq<Budget>, firstId: nat, x: Budget) returns (i: nat)
    requires forall b :: b in olds ==> ValidDate(b.budgetMonth)
    requires x in RenewedAll(olds, firstId)
    ensures i < |olds| && x == Renewed(olds[i], firstId + i)
  {
    var batch := RenewedAll(olds, firstId);
    var k :| 0 <= k < |batch| && batch[k] == x;
    i := k;
  }

  lemma BatchEntriesOk(budgets: seq<Budget>, cats: seq<Category>, olds: seq<Budget>, firstId: nat)
    requires BudgetsOk(budgets, cats, firstId)
    requires forall b :: b in olds ==> b in budgets
    ensures var all := budgets + RenewedAll(olds, firstId);
      KeysBelow(all, BudgetKey, firstId + |olds|) &&
      forall x :: x in all ==> ValidDate(x.budgetMonth) && x.budgetAmount > 0 && x.categoryId in CategoryIds(cats)
  {
    var batch := RenewedAll(olds, firstId);
    forall x | x in batch
      ensures ValidDate(x.budgetMonth) && x.budgetAmount > 0 && x.categoryId in CategoryIds(cats)
      ensures BudgetKey(x) < firstId + |olds|
    {
      var i := BatchEntry(olds, firstId, x);
      assert olds[i] in olds;
    }
  }

  lemma BatchIdsFresh(budgets: seq<Budget>, olds: seq<Budget>, firstId: nat)
    requires Table(budgets, BudgetKey, firstId)
    requires forall b :: b in olds ==> ValidDate(b.budgetMonth)
    ensures UniqueBy(budgets + RenewedAll(olds, firstId), BudgetKey)
  {
    var batch := RenewedAll(olds, firstId);
    var all := budgets + batch;
    forall x, y | x in all && y in all && BudgetKey(x) == BudgetKey(y)
      ensures x == y
    {
      if x in batch && y in batch {
        var i := BatchEntry(olds, firstId, x);
        var j := BatchEntry(olds, firstId, y);
      } else if x in batch {
        var i := BatchEntry(olds, firstId, x);
      } else if y in batch {
        var j := BatchEntry(olds, firstId, y);
      }
    }
  }

  lemma BatchMonthsFree(budgets: seq<Budget>, olds: seq<Budget>, firstId: nat)
    requires UniqueBy(budgets, BudgetMonthKey)
    requires forall b :: b in olds ==> ValidDate(b.budgetMonth)
    requires !RenewClash(budgets, RenewedAll(olds, firstId))
    ensures UniqueBy(budgets + RenewedAll(olds, firstId), BudgetMonthKey)
  {
    var batch := RenewedAll(olds, firstId);
    var all := budgets + batch;
    forall x, y | x in all && y in all && BudgetMonthKey(x) == BudgetMonthKey(y)
      ensures x == y
    {
      if x in batch && y in batch {
        var i :| 0 <= i < |batch| && batch[i] == x;
        var j :| 0 <= j < |batch| && batch[j] == y;
      }
    }
  }

  /** The loop of renewBudgets that builds the new budgets; each takes the
      next id. */
  method BuildBatch(db: Db, toRenew: seq<Budget>) returns (batch: seq<Budget>)
    requires db.Valid() && forall b :: b in toRenew ==> b in db.budgets
    modifies db`nextId
    ensures db.Valid() && db.nextId == old(db.nextId) + |toRenew|
    ensures forall b :: b in toRenew ==> ValidDate(b.budgetMonth)
    ensures batch == RenewedAll(toRenew, old(db.nextId))
  {
    batch := [];
    var i := 0;
    while i < |toRenew|
      invariant 0 <= i <= |toRenew|
      invariant db.Valid() && db.nextId == old(db.nextId) + i
      invariant batch == RenewedAll(toRenew[..i], old(db.nextId))
    {
      var id := db.FreshId();
      RenewedAllSnoc(toRenew, i, old(db.nextId));
      batch := batch + [Renewed(toRenew[i], id)];
      i := i + 1;
    }
    assert toRenew[..i] == toRenew;
  }

  /** renewBudgets(now): the batch is saved whole, or the unique constraint
      refuses it and the transaction rolls back. */
  method RenewBudgets(db: Db, now: Date) returns (r: Result<seq<Budget>>)
    requires db.Valid() && ValidDate(now)
    modifies db`budgets, db`nextId
    ensures db.Valid()
    ensures forall b :: b in old(db.budgets) ==> ValidDate(b.budgetMonth)
    ensures var ym := LastMonth(now);
      var batch := RenewedAll(FindBudgetsToRenew(old(db.budgets), FirstDay(ym), LastDay(ym)), old(db.nextId));
      if RenewClash(old(db.budgets), batch) then r == Err(DataIntegrityViolation) && db.budgets == old(db.budgets)
      else r == Ok(batch) && db.budgets == old(db.budgets) + batch
  {
    var ym := LastMonth(now);
    var toRenew := FindBudgetsToRenew(db.budgets, FirstDay(ym), LastDay(ym));
    ghost var first := db.nextId;
    if |toRenew| == 0 {
      assert RenewedAll(toRenew, first) == [];
      assert db.budgets + [] == db.budgets;
      return Ok([]);
    }
    var batch := BuildBatch(db, toRenew);
    if RenewClash(db.budgets, batch) {
      return Err(DataIntegrityViolation);
    }
    RenewedAppendOk(db.budgets, db.categories, toRenew, first);
    db.budgets := db.budgets + batch;
    r := Ok(batch);
  }
}
