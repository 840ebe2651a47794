// DashboardServiceImpl.getDashboardStats: the income and expense totals of
// a date range, their difference, the expense of the preceding range of
// the same length, the expense breakdown, the largest expense, and the
// budget progress of the range's first month with the remaining amount of
// each budget filled in. "The current month" is taken from a date the
// caller passes instead of the clock.

module Dashboard {
  import opened Common
  import opened Calendar
  import opened Entities
  import opened Database
  import opened TransactionQueries
  import opened BudgetQueries

  /** A range of whole days, both ends included. */
  datatype Period = Period(start: Date, end: Date)

  predicate ValidPeriod(p: Period)
  {
    ValidDate(p.start) && ValidDate(p.end)
  }

  /** The two request parameters, or the current month when either is
      missing. */
  function ResolvePeriod(startDate: Option<Date>, endDate: Option<Date>, today: Date): (p: Period)
    requires ValidDate(today)
    requires startDate.Some? ==> ValidDate(startDate.value)
    requires endDate.Some? ==> ValidDate(endDate.value)
    ensures ValidPeriod(p)
    ensures startDate.Some? && endDate.Some? ==> p == Period(startDate.value, endDate.value)
    ensures startDate.None? || endDate.None? ==>
      YearMonthOf(p.start) == YearMonthOf(today) && p.start.day == 1 &&
      YearMonthOf(p.end) == YearMonthOf(today) && p.end.day == DaysInMonth(today.year, today.month)
  {
    if startDate.None? || endDate.None? then
      var ym := YearMonthOf(today);
      Period(FirstDay(ym), LastDay(ym))
    else
      Period(startDate.value, endDate.value)
  }

  /** The default range holds exactly the days of the current month. */
  lemma DefaultPeriodIsMonth(today: Date, d: Date)
    requires ValidDate(today) && ValidDate(d)
    ensures var p := ResolvePeriod(None, None, today);
      !IsBefore(d, p.start) && !IsAfter(d, p.end) <==> YearMonthOf(d) == YearMonthOf(today)
  {
    MonthRange(YearMonthOf(today), d);
  }

  /** The query bounds [start 00:00, (end + 1 day) 00:00). */
  function WindowStart(p: Period): DateTime
    requires ValidPeriod(p)
  {
    AtStartOfDay(p.start)
  }

  function WindowEnd(p: Period): DateTime
    requires ValidPeriod(p)
  {
    AtStartOfDay(PlusDays(p.end, 1))
  }

  /** A transaction time lies in the window exactly when its date lies in
      the period, the end day included as a whole. */
  lemma WindowIsPeriod(p: Period, t: DateTime)
    requires ValidPeriod(p) && ValidDateTime(t)
    ensures InWindow(Transaction(0, 0, 0, 0, None, t, false, None), WindowStart(p), WindowEnd(p))
        <==> !IsBefore(t.date, p.start) && !IsAfter(t.date, p.end)
  {
    WholeDayWindow(p.start, p.end, t);
  }

  /** The number of days of the period, ChronoUnit.DAYS.between + 1. */
  function PeriodLength(p: Period): int
    requires ValidPeriod(p)
  {
    DaysBetween(p.start, p.end) + 1
  }

  /** Both ends moved back by the period's length. */
  function PreviousPeriod(p: Period): (q: Period)
    requires ValidPeriod(p)
    ensures ValidPeriod(q)
    ensures PeriodLength(q) == PeriodLength(p)
    ensures EpochDay(q.end) == EpochDay(p.start) - 1
  {
    var days := PeriodLength(p);
    Period(MinusDays(p.start, days), MinusDays(p.end, days))
  }

  /** The previous window ends where the current one starts. */
  lemma PreviousWindowAdjacent(p: Period)
    requires ValidPeriod(p)
    ensures WindowEnd(PreviousPeriod(p)) == WindowStart(p)
  {
    var q := PreviousPeriod(p);
    EpochDaySame(PlusDays(q.end, 1), p.start);
  }

  /** For a non-empty period the two windows together cover
      [previous start, end): the expense of the doubled range is the sum
      of the two figures the dashboard reports. */
  lemma PreviousAndCurrentExpense(txs: seq<Transaction>, cats: seq<Category>, user: Id, p: Period)
    requires ValidPeriod(p) && !IsAfter(p.start, p.end)
    ensures SumByCategoryType(txs, cats, user, EXPENSE, WindowStart(PreviousPeriod(p)), WindowEnd(p)) ==
            SumByCategoryType(txs, cats, user, EXPENSE, WindowStart(PreviousPeriod(p)), WindowEnd(PreviousPeriod(p))) +
            SumByCategoryType(txs, cats, user, EXPENSE, WindowStart(p), WindowEnd(p))
  {
    var q := PreviousPeriod(p);
    PreviousWindowAdjacent(p);
    EpochDayOrder(p.end, p.start);
    SumByCategoryTypeSplit(txs, cats, user, EXPENSE, WindowStart(q), WindowStart(p), WindowEnd(p));
  }

  /** startDate.withDayOfMonth(1): the budgets shown are those of the
      first month of the range, whatever its end. */
  function BudgetMonth(p: Period): (d: Date)
    requires ValidPeriod(p)
    ensures ValidDate(d) && d.day == 1 && YearMonthOf(d) == YearMonthOf(p.start)
  {
    Date(p.start.year, p.start.month, 1)
  }

  /** A progress entry after setAmountRemaining(budget - spent). */
  function WithRemaining(e: BudgetProgress): (f: BudgetProgress)
    ensures f.amountRemaining == Some(e.budgetAmount - e.amountSpent)
    ensures f.budgetId == e.budgetId && f.categoryId == e.categoryId && f.categoryName == e.categoryName
    ensures f.amountSpent == e.amountSpent && f.budgetAmount == e.budgetAmount
  {
    e.(amountRemaining := Some(e.budgetAmount - e.amountSpent))
  }

  /** The forEach over the progress list, setting each entry's remaining
      amount in place; nothing else about an entry changes. */
  method FillRemaining(entries: array<BudgetProgress>)
    modifies entries
    ensures forall i :: 0 <= i < entries.Length ==> entries[i] == WithRemaining(old(entries[i]))
  {
    var i := 0;
    while i < entries.Length
      invariant 0 <= i <= entries.Length
      invariant forall j :: 0 <= j < i ==> entries[j] == WithRemaining(old(entries[j]))
      invariant forall j :: i <= j < entries.Length ==> entries[j] == old(entries[j])
    {
      entries[i] := WithRemaining(entries[i]);
      i := i + 1;
    }
  }

  /** The response; the daily spending trend is not part of the model. */
  datatype DashboardStats = DashboardStats(
    totalIncome: int,
    totalExpense: int,
    netSavings: int,
    expenseBreakdown: seq<CategorySpending>,
    budgetProgress: seq<BudgetProgress>,
    previousPeriodExpense: int,
    biggestExpense: Option<TopTransaction>)

  /** The figures of the response for one user and one period: income and
      expense of the window, their difference, the expense of the previous
      period, the breakdown and the largest expense of the window, and one
      progress entry per budget of the period's first month, with its
      remaining amount filled in. */
  function Stats(txs: seq<Transaction>, cats: seq<Category>, budgets: seq<Budget>, user: Id, p: Period)
    : (s: DashboardStats)
    requires ValidPeriod(p)
    ensures s.netSavings == s.totalIncome - s.totalExpense
    ensures s.totalIncome == SumByCategoryType(txs, cats, user, INCOME, WindowStart(p), WindowEnd(p))
    ensures s.totalExpense == SumByCategoryType(txs, cats, user, EXPENSE, WindowStart(p), WindowEnd(p))
    ensures s.previousPeriodExpense == SumByCategoryType(txs, cats, user, EXPENSE,
              WindowStart(PreviousPeriod(p)), WindowEnd(PreviousPeriod(p)))
    ensures s.budgetProgress == MonthProgress(budgets, txs, cats, user, BudgetMonth(p))
    ensures s.expenseBreakdown == ExpenseBreakdown(txs, cats, user, WindowStart(p), WindowEnd(p))
    ensures s.biggestExpense == TopExpense(txs, cats, user, WindowStart(p), WindowEnd(p))
  {
    var from, to := WindowStart(p), WindowEnd(p);
    var income := SumByCategoryType(txs, cats, user, INCOME, from, to);
    var expense := SumByCategoryType(txs, cats, user, EXPENSE, from, to);
    var q := PreviousPeriod(p);
    DashboardStats(income, expense, income - expense, ExpenseBreakdown(txs, cats, user, from, to),
                   MonthProgress(budgets, txs, cats, user, BudgetMonth(p)),
                   SumByCategoryType(txs, cats, user, EXPENSE, WindowStart(q), WindowEnd(q)),
                   TopExpense(txs, cats, user, from, to))
  }

  /** The progress list of one month after the forEach. */
  function MonthProgress(budgets: seq<Budget>, txs: seq<Transaction>, cats: seq<Category>, user: Id, month: Date)
    : seq<BudgetProgress>
  {
    FilledIn(FindBudgetProgressData(budgets, txs, cats, user, month))
  }

  /** Each entry's remaining amount is its budget minus what was spent,
      negative once the budget is overspent. */
  lemma MonthProgressRemaining(budgets: seq<Budget>, txs: seq<Transaction>, cats: seq<Category>, user: Id,
                               month: Date)
    ensures var r := MonthProgress(budgets, txs, cats, user, month);
      forall i :: 0 <= i < |r| ==> r[i].amountRemaining == Some(r[i].budgetAmount - r[i].amountSpent)
  {
    FilledInRemaining(FindBudgetProgressData(budgets, txs, cats, user, month));
  }

  /** e is the filled-in progress of some budget of the user for month. */
  ghost predicate EntryOfBudget(budgets: seq<Budget>, txs: seq<Transaction>, cats: seq<Category>, user: Id,
                                month: Date, e: BudgetProgress)
  {
    exists b :: b in budgets && b.userId == user && b.budgetMonth == month &&
                e == WithRemaining(Progress(txs, cats, b))
  }

  /** Every entry is the progress of a budget of the user for that month. */
  lemma MonthProgressFromBudgets(budgets: seq<Budget>, txs: seq<Transaction>, cats: seq<Category>, user: Id,
                                 month: Date)
    ensures forall e :: e in MonthProgress(budgets, txs, cats, user, month) ==>
      EntryOfBudget(budgets, txs, cats, user, month, e)
  {
    var progress := FindBudgetProgressData(budgets, txs, cats, user, month);
    var r := FilledIn(progress);
    forall e | e in r
      ensures EntryOfBudget(budgets, txs, cats, user, month, e)
    {
      var i :| 0 <= i < |r| && r[i] == e;
      assert progress[i] == progress[i];
      var b :| b in budgets && b.userId == user && b.budgetMonth == month && progress[i] == Progress(txs, cats, b);
    }
  }

  /** Every budget of the user for that month has its entry. */
  lemma MonthProgressCoversBudgets(budgets: seq<Budget>, txs: seq<Transaction>, cats: seq<Category>, user: Id,
                                   month: Date, b: Budget)
    requires b in budgets && b.userId == user && b.budgetMonth == month
    ensures WithRemaining(Progress(txs, cats, b)) in MonthProgress(budgets, txs, cats, user, month)
  {
    var progress := FindBudgetProgressData(budgets, txs, cats, user, month);
    var i :| 0 <= i < |progress| && progress[i] == Progress(txs, cats, b);
    assert FilledIn(progress)[i] == WithRemaining(Progress(txs, cats, b));
  }

  lemma FilledInRemaining(entries: seq<BudgetProgress>)
    ensures var r := FilledIn(entries);
      forall i :: 0 <= i < |r| ==> r[i].amountRemaining == Some(r[i].budgetAmount - r[i].amountSpent)
  {
  }

  /** Every entry with its remaining amount set. */
  function FilledIn(entries: seq<BudgetProgress>): (r: seq<BudgetProgress>)
    ensures |r| == |entries| && forall i :: 0 <= i < |r| ==> r[i] == WithRemaining(entries[i])
  {
    seq(|entries|, i requires 0 <= i < |entries| => WithRemaining(entries[i]))
  }

  /** getDashboardStats for the authenticated user. Reads the tables and
      changes none of them. */
  method GetDashboardStats(db: Db, username: string, startDate: Option<Date>, endDate: Option<Date>,
                           today: Date) returns (r: Result<DashboardStats>)
    requires ValidDate(today)
    requires startDate.Some? ==> ValidDate(startDate.value)
    requires endDate.Some? ==> ValidDate(endDate.value)
    ensures match CurrentUser(db.users, username, SecurityUserMissing(username))
      case Err(e) => r == Err(e)
      case Ok(u) =>
        r == Ok(Stats(db.transactions, db.categories, db.budgets, u.id, ResolvePeriod(startDate, endDate, today)))
  {
    var cu := CurrentUser(db.users, username, SecurityUserMissing(username));
    if cu.Err? {
      return Err(cu.error);
    }
    var user := cu.value.id;
    var p := ResolvePeriod(startDate, endDate, today);
    var progress := FindBudgetProgressData(db.budgets, db.transactions, db.categories, user, BudgetMonth(p));
    var entries := new BudgetProgress[|progress|](i requires 0 <= i < |progress| => progress[i]);
    FillRemaining(entries);
    assert entries[..] == FilledIn(progress);
    assert entries[..] == MonthProgress(db.budgets, db.transactions, db.categories, user, BudgetMonth(p));
    var s := Stats(db.transactions, db.categories, db.budgets, user, p);
    r := Ok(s.(budgetProgress := entries[..]));
  }
}
