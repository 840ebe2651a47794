// BudgetAlertServiceImpl: after a transaction is saved, look up the budget
// of its user, category and month; if there is one, add up the spending of
// that month and compare the rounded ratio with the configured threshold.
// Reaching it saves one in-app notification (the e-mail that follows is
// sent to an external service and its failure is swallowed). Nothing
// records earlier alerts, so each later transaction over the threshold
// alerts again.

module BudgetAlert {
  import opened Common
  import opened Calendar
  import opened Entities
  import opened Database
  import opened Money
  import opened TransactionQueries
  import opened BudgetQueries

  /** transactionMonth.atDay(1).atStartOfDay(). */
  function WindowStart(ym: YearMonth): DateTime
    requires ValidYearMonth(ym)
  {
    AtStartOfDay(FirstDay(ym))
  }

  /** transactionMonth.atEndOfMonth().atTime(23, 59, 59). */
  function WindowEnd(ym: YearMonth): DateTime
    requires ValidYearMonth(ym)
  {
    AtTime(LastDay(ym), 23, 59, 59)
  }

  /** 23:59:59 as nanoseconds of the day. */
  const LastSecondOfDay: int := 86399 * NanosPerSecond

  /** The inclusive window [day 1 00:00:00, last day 23:59:59] holds a time
      exactly when it lies in the month and is not inside the last second's
      fraction after 23:59:59 on the last day. */
  lemma AlertWindow(ym: YearMonth, t: DateTime)
    requires ValidYearMonth(ym) && ValidDateTime(t)
    ensures Timeline(WindowStart(ym)) <= Timeline(t) <= Timeline(WindowEnd(ym)) <==>
            YearMonthOf(t.date) == ym && (t.date == LastDay(ym) ==> t.nanoOfDay <= LastSecondOfDay)
  {
    var first, last := FirstDay(ym), LastDay(ym);
    EpochDayOrder(t.date, first);
    EpochDayOrder(last, t.date);
    MonthRange(ym, t.date);
    var e := EpochDay(t.date);
    if e < EpochDay(first) {
      assert Timeline(t) < EpochDay(first) * NanosPerDay;
    }
    if e > EpochDay(last) {
      assert Timeline(t) >= (EpochDay(last) + 1) * NanosPerDay;
    }
  }

  /** A transaction half a second after 23:59:59 on the last day of the
      month counts against the budget in the progress figures but is
      outside the alert's window. */
  lemma LastSecondFractionMissed(b: Budget, t: Transaction)
    requires ValidDate(b.budgetMonth)
    requires t.userId == b.userId && t.categoryId == b.categoryId
    requires t.transactionDate == DateTime(LastDay(YearMonthOf(b.budgetMonth)), LastSecondOfDay + 500_000_000)
    ensures CountsAgainst(b, t)
    ensures !OfUserCategoryBetween(b.userId, b.categoryId, WindowStart(YearMonthOf(b.budgetMonth)),
                                   WindowEnd(YearMonthOf(b.budgetMonth)))(t)
  {
    AlertWindow(YearMonthOf(b.budgetMonth), t.transactionDate);
  }

  /** totalSpent: the amounts of the user's transactions in the category
      within the window; the category's type is not looked at. */
  function MonthSpending(txs: seq<Transaction>, user: Id, categoryId: Id, ym: YearMonth): int
    requires ValidYearMonth(ym)
  {
    SumOf(FindByUserCategoryBetween(txs, user, categoryId, WindowStart(ym), WindowEnd(ym)), Amount)
  }

  /** A new transaction adds its amount to the month's spending when it is
      the user's, in the category and inside the window, and nothing
      otherwise. */
  lemma MonthSpendingSnoc(txs: seq<Transaction>, user: Id, categoryId: Id, ym: YearMonth, x: Transaction)
    requires ValidYearMonth(ym) && ValidDateTime(x.transactionDate)
    ensures MonthSpending(txs + [x], user, categoryId, ym) ==
            MonthSpending(txs, user, categoryId, ym) +
            (if x.userId == user && x.categoryId == categoryId && YearMonthOf(x.transactionDate.date) == ym &&
                (x.transactionDate.date == LastDay(ym) ==> x.transactionDate.nanoOfDay <= LastSecondOfDay)
             then x.amount else 0)
  {
    SumOfFilterSnoc(txs, x, OfUserCategoryBetween(user, categoryId, WindowStart(ym), WindowEnd(ym)), Amount);
    AlertWindow(ym, x.transactionDate);
  }

  /** Away from the last second's fraction, the alert's total is the
      progress query's amountSpent for the same budget. */
  lemma MonthSpendingIsAmountSpent(txs: seq<Transaction>, b: Budget)
    requires ValidDate(b.budgetMonth)
    requires forall i :: 0 <= i < |txs| ==> ValidDateTime(txs[i].transactionDate)
    requires forall i :: 0 <= i < |txs| ==> txs[i].transactionDate.nanoOfDay <= LastSecondOfDay
    ensures MonthSpending(txs, b.userId, b.categoryId, YearMonthOf(b.budgetMonth)) == AmountSpent(txs, b)
  {
    var ym := YearMonthOf(b.budgetMonth);
    var p := OfUserCategoryBetween(b.userId, b.categoryId, WindowStart(ym), WindowEnd(ym));
    forall i | 0 <= i < |txs|
      ensures p(txs[i]) == SpentOn(b)(txs[i])
    {
      AlertWindow(ym, txs[i].transactionDate);
    }
    FilterSame(txs, p, SpentOn(b));
  }

  /** What createAndSendAlerts receives. */
  datatype Alert = Alert(budget: Budget, totalSpent: int)

  /** The decision of checkBudgetAfterTransaction for transaction t. */
  function AlertFor(budgets: seq<Budget>, txs: seq<Transaction>, t: Transaction, threshold: Threshold)
    : (r: Option<Alert>)
    requires ValidDateTime(t.transactionDate) && ValidThreshold(threshold)
    requires forall b :: b in budgets ==> b.budgetAmount > 0
    ensures r.Some? ==>
      var ym := YearMonthOf(t.transactionDate.date);
      r.value.budget in budgets &&
      BudgetMonthKey(r.value.budget) == (t.userId, t.categoryId, FirstDay(ym)) &&
      r.value.totalSpent == MonthSpending(txs, t.userId, t.categoryId, ym) &&
      ReachesThreshold(SpendingRatio(r.value.totalSpent, r.value.budget.budgetAmount), threshold)
    ensures (forall b :: b in budgets ==>
               BudgetMonthKey(b) != (t.userId, t.categoryId, FirstDay(YearMonthOf(t.transactionDate.date)))) ==>
            r.None?
  {
    var ym := YearMonthOf(t.transactionDate.date);
    match FindByUserCategoryMonth(budgets, t.userId, t.categoryId, FirstDay(ym))
    case None => None
    case Some(b) =>
      var total := MonthSpending(txs, t.userId, t.categoryId, ym);
      if ReachesThreshold(SpendingRatio(total, b.budgetAmount), threshold) then Some(Alert(b, total))
      else None
  }

  /** Under the unique constraint on budgets: an alert is raised if and only
      if the budget of the transaction's user, category and month exists and
      the month's spending ratio reaches the threshold. */
  lemma AlertForExact(budgets: seq<Budget>, txs: seq<Transaction>, t: Transaction, threshold: Threshold)
    requires ValidDateTime(t.transactionDate) && ValidThreshold(threshold)
    requires forall b :: b in budgets ==> b.budgetAmount > 0
    requires UniqueBy(budgets, BudgetMonthKey)
    ensures AlertFor(budgets, txs, t, threshold).Some? <==>
      var ym := YearMonthOf(t.transactionDate.date);
      exists b :: b in budgets && BudgetMonthKey(b) == (t.userId, t.categoryId, FirstDay(ym)) &&
        ReachesThreshold(SpendingRatio(MonthSpending(txs, t.userId, t.categoryId, ym), b.budgetAmount), threshold)
  {
    var ym := YearMonthOf(t.transactionDate.date);
    var total := MonthSpending(txs, t.userId, t.categoryId, ym);
    if b :| b in budgets && BudgetMonthKey(b) == (t.userId, t.categoryId, FirstDay(ym)) &&
            ReachesThreshold(SpendingRatio(total, b.budgetAmount), threshold) {
      FindByUnique(budgets, BudgetMonthKey, b);
    }
  }

  /** No memory of earlier alerts: once a transaction has raised one, a
      later non-negative transaction of the same user, category and month
      raises one again. */
  lemma AlertRepeats(budgets: seq<Budget>, txs: seq<Transaction>, t: Transaction, x: Transaction,
                     threshold: Threshold)
    requires ValidThreshold(threshold) && forall b :: b in budgets ==> b.budgetAmount > 0
    requires ValidDateTime(t.transactionDate) && ValidDateTime(x.transactionDate)
    requires forall y :: y in txs ==> y.amount >= 0
    requires x.amount >= 0 && x.userId == t.userId && x.categoryId == t.categoryId
    requires YearMonthOf(x.transactionDate.date) == YearMonthOf(t.transactionDate.date)
    requires AlertFor(budgets, txs, t, threshold).Some?
    ensures AlertFor(budgets, txs + [x], x, threshold).Some?
  {
    var ym := YearMonthOf(t.transactionDate.date);
    var a := AlertFor(budgets, txs, t, threshold).value;
    var rows := FindByUserCategoryBetween(txs, t.userId, t.categoryId, WindowStart(ym), WindowEnd(ym));
    SumOfNonNegative(rows, Amount);
    MonthSpendingSnoc(txs, t.userId, t.categoryId, ym, x);
    var after := MonthSpending(txs + [x], t.userId, t.categoryId, ym);
    SpendingRatioMonotone(a.totalSpent, after, a.budget.budgetAmount);
    MulMonotone(SpendingRatio(a.totalSpent, a.budget.budgetAmount),
                SpendingRatio(after, a.budget.budgetAmount), threshold.den);
  }

  /** budget.getCategory().getName(). */
  function BudgetCategoryName(cats: seq<Category>, b: Budget): (name: string)
    requires b.categoryId in CategoryIds(cats)
    ensures exists c :: c in cats && c.id == b.categoryId && c.name == name
  {
    match FindBy(cats, CategoryKey, b.categoryId)
    case Some(c) => c.name
    case None => assert false; ""
  }

  /** The alert text: both amounts with toPlainString. */
  function AlertMessage(total: int, budgetAmount: int, categoryName: string): string
  {
    "Budget Alert: You have spent $" + PlainString(total) + " of your $" + PlainString(budgetAmount) +
    " budget for " + categoryName + "."
  }

  /** Notification.builder() in createAndSendAlerts: for the budget's
      user, unread, created now. */
  function AlertNotification(id: Id, a: Alert, cats: seq<Category>, now: int): (n: Notification)
    requires a.budget.categoryId in CategoryIds(cats)
    ensures n.id == id && n.userId == a.budget.userId && !n.isRead && n.createdAt == now
    ensures n.message == AlertMessage(a.totalSpent, a.budget.budgetAmount, BudgetCategoryName(cats, a.budget))
  {
    Notification(id, a.budget.userId,
                 AlertMessage(a.totalSpent, a.budget.budgetAmount, BudgetCategoryName(cats, a.budget)), false, now)
  }

  /** The notifications createAndSendAlerts saves for transaction t: none
      or one. */
  function AlertsFor(budgets: seq<Budget>, txs: seq<Transaction>, cats: seq<Category>,
                     t: Transaction, threshold: Threshold, id: Id, now: int): (ns: seq<Notification>)
    requires ValidDateTime(t.transactionDate) && ValidThreshold(threshold)
    requires forall b :: b in budgets ==> b.budgetAmount > 0 && b.categoryId in CategoryIds(cats)
    ensures |ns| <= 1
  {
    match AlertFor(budgets, txs, t, threshold)
    case None => []
    case Some(a) => [AlertNotification(id, a, cats, now)]
  }

  /** checkBudgetAfterTransaction for a transaction already saved: at most
      one notification is saved, exactly when AlertFor decides so. */
  method CheckBudgetAfterTransaction(db: Db, t: Transaction, threshold: Threshold, now: int)
    returns (sent: Option<Notification>)
    requires db.Valid() && ValidThreshold(threshold) && t in db.transactions
    modifies db`notifications, db`nextId
    ensures db.Valid()
    ensures db.notifications ==
            old(db.notifications) + AlertsFor(db.budgets, db.transactions, db.categories, t, threshold, old(db.nextId), now)
    ensures db.nextId == old(db.nextId) + |AlertsFor(db.budgets, db.transactions, db.categories, t, threshold, old(db.nextId), now)|
    ensures match AlertFor(db.budgets, db.transactions, t, threshold)
      case None => sent == None && db.nextId == old(db.nextId)
      case Some(a) => sent == Some(AlertNotification(old(db.nextId), a, db.categories, now))
  {
    var decision := AlertFor(db.budgets, db.transactions, t, threshold);
    if decision.None? {
      return None;
    }
    var id := db.FreshId();
    var n := AlertNotification(id, decision.value, db.categories, now);
    UniqueAppend(db.notifications, NotificationKey, n);
    db.notifications := db.notifications + [n];
    sent := Some(n);
  }
}
