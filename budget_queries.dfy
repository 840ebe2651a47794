// BudgetRepository: the derived queries and the JPQL queries over the
// budgets table, as functions of the stored rows. BETWEEN on budgetMonth is
// inclusive at both ends; the progress query's correlated sub-select adds
// up the transactions of the budget's user and category in the budget's
// calendar month.

module BudgetQueries {
  import opened Common
  import opened Calendar
  import opened Entities
  import opened TransactionQueries

  /** start <= b.budgetMonth <= end. */
  predicate MonthBetween(b: Budget, start: Date, end: Date)
  {
    !IsBefore(b.budgetMonth, start) && !IsAfter(b.budgetMonth, end)
  }

  /** WHERE b.user = :user AND b.budgetMonth BETWEEN :start AND :end. */
  function OfUserBetween(user: Id, start: Date, end: Date): Budget -> bool
  {
    (b: Budget) => b.userId == user && MonthBetween(b, start, end)
  }

  /** findByUserAndBudgetMonthBetween: the user's budgets in [start, end],
      in table order. */
  function FindByUserAndBudgetMonthBetween(budgets: seq<Budget>, user: Id, start: Date, end: Date)
    : (r: seq<Budget>)
    ensures forall b :: b in r <==> b in budgets && b.userId == user && MonthBetween(b, start, end)
    ensures multiset(r) <= multiset(budgets)
  {
    Filter(budgets, OfUserBetween(user, start, end))
  }

  /** findByUserAndCategoryAndBudgetMonth: an exact match on the three
      columns of the unique constraint. */
  function FindByUserCategoryMonth(budgets: seq<Budget>, user: Id, categoryId: Id, month: Date)
    : (r: Option<Budget>)
    ensures r.Some? ==> (r.value in budgets && r.value.userId == user &&
                         r.value.categoryId == categoryId && r.value.budgetMonth == month)
    ensures r.None? <==> forall b :: b in budgets ==> BudgetMonthKey(b) != (user, categoryId, month)
  {
    FindBy(budgets, BudgetMonthKey, (user, categoryId, month))
  }

  /** Under the unique constraint there is at most one match, so the lookup
      returns that one whichever row order the table has. */
  lemma FindByUserCategoryMonthUnique(budgets: seq<Budget>, b: Budget)
    requires UniqueBy(budgets, BudgetMonthKey) && b in budgets
    ensures FindByUserCategoryMonth(budgets, b.userId, b.categoryId, b.budgetMonth) == Some(b)
  {
    FindByUnique(budgets, BudgetMonthKey, b);
  }

  /** WHERE b.autoRenew = true AND b.budgetMonth BETWEEN :start AND :end. */
  function RenewableBetween(start: Date, end: Date): Budget -> bool
  {
    (b: Budget) => b.autoRenew && MonthBetween(b, start, end)
  }

  /** findBudgetsToRenew: every user's auto-renewing budgets in [start, end]. */
  function FindBudgetsToRenew(budgets: seq<Budget>, start: Date, end: Date): (r: seq<Budget>)
    ensures forall b :: b in r <==> b in budgets && b.autoRenew && MonthBetween(b, start, end)
    ensures multiset(r) <= multiset(budgets)
  {
    Filter(budgets, RenewableBetween(start, end))
  }

  /** For budget months, which are day 1, the whole-month window
      [day 1, last day] selects exactly the budgets of that month. */
  lemma RenewWindowIsMonth(budgets: seq<Budget>, ym: YearMonth, b: Budget)
    requires ValidYearMonth(ym) && ValidDate(b.budgetMonth)
    ensures b in FindBudgetsToRenew(budgets, FirstDay(ym), LastDay(ym)) <==>
            b in budgets && b.autoRenew && YearMonthOf(b.budgetMonth) == ym
  {
    MonthRange(ym, b.budgetMonth);
  }

  // ---------------------------------------------------------------------
  // findBudgetProgressData
  // ---------------------------------------------------------------------

  /** The dashboard's progress entry; amountRemaining stays null until the
      service fills it in. */
  datatype BudgetProgress = BudgetProgress(
    budgetId: Id,
    categoryId: Id,
    categoryName: string,
    amountSpent: int,
    budgetAmount: int,
    amountRemaining: Option<int>)

  /** A transaction counted against budget b: same user, same category, and
      YEAR and MONTH of its date equal to those of the budget month. */
  predicate CountsAgainst(b: Budget, t: Transaction)
  {
    t.userId == b.userId && t.categoryId == b.categoryId &&
    YearMonthOf(t.transactionDate.date) == YearMonthOf(b.budgetMonth)
  }

  function SpentOn(b: Budget): Transaction -> bool
  {
    (t: Transaction) => CountsAgainst(b, t)
  }

  /** The correlated sub-select COALESCE(SUM(t.amount), 0). */
  function AmountSpent(txs: seq<Transaction>, b: Budget): int
  {
    SumOf(Filter(txs, SpentOn(b)), Amount)
  }

  /** No transaction of the month means 0 spent. */
  lemma AmountSpentNone(txs: seq<Transaction>, b: Budget)
    requires forall t :: t in txs ==> !CountsAgainst(b, t)
    ensures AmountSpent(txs, b) == 0
  {
    SumOfNone(txs, SpentOn(b), Amount);
  }

  /** A new transaction in the budget's month adds its amount; any other
      leaves the figure as it was. */
  lemma AmountSpentSnoc(txs: seq<Transaction>, b: Budget, t: Transaction)
    ensures AmountSpent(txs + [t], b) ==
            AmountSpent(txs, b) + (if CountsAgainst(b, t) then t.amount else 0)
  {
    SumOfFilterSnoc(txs, t, SpentOn(b), Amount);
  }

  function Progress(txs: seq<Transaction>, cats: seq<Category>, b: Budget): (p: BudgetProgress)
    ensures p.budgetId == b.id && p.categoryId == b.categoryId && p.budgetAmount == b.budgetAmount
    ensures p.amountSpent == AmountSpent(txs, b) && p.amountRemaining.None?
  {
    var name := match FindBy(cats, CategoryKey, b.categoryId)
      case Some(c) => c.name
      case None => "";
    BudgetProgress(b.id, b.categoryId, name, AmountSpent(txs, b), b.budgetAmount, None)
  }

  /** WHERE b.user = :user AND b.budgetMonth = :month. */
  function OfUserInMonth(user: Id, month: Date): Budget -> bool
  {
    (b: Budget) => b.userId == user && b.budgetMonth == month
  }

  /** findBudgetProgressData: one entry per budget of the user whose
      budgetMonth is the given date, in table order. */
  function FindBudgetProgressData(budgets: seq<Budget>, txs: seq<Transaction>, cats: seq<Category>,
                                  user: Id, month: Date): (r: seq<BudgetProgress>)
    ensures |r| == |Filter(budgets, OfUserInMonth(user, month))|
    ensures forall i :: 0 <= i < |r| ==>
      exists b :: (b in budgets && b.userId == user && b.budgetMonth == month &&
                   r[i] == Progress(txs, cats, b))
    ensures forall b :: b in budgets && b.userId == user && b.budgetMonth == month ==>
      Progress(txs, cats, b) in r
  {
    var selected := Filter(budgets, OfUserInMonth(user, month));
    var r := seq(|selected|, i requires 0 <= i < |selected| => Progress(txs, cats, selected[i]));
    forall i | 0 <= i < |r|
      ensures exists b :: (b in budgets && b.userId == user && b.budgetMonth == month &&
                           r[i] == Progress(txs, cats, b))
    {
      assert selected[i] in selected;
    }
    forall b | b in budgets && b.userId == user && b.budgetMonth == month
      ensures Progress(txs, cats, b) in r
    {
      var i :| 0 <= i < |selected| && selected[i] == b;
      assert r[i] == Progress(txs, cats, b);
    }
    r
  }
}
