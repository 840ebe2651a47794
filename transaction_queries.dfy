// TransactionRepository: the derived queries and the JPQL queries over the
// transactions table, as functions of the stored rows. `t.category` in a
// query is an inner join on category_id; a half-open window [start, end)
// compares transactionDate with >= and <, BETWEEN is inclusive at both ends.

module TransactionQueries {
  import opened Common
  import opened Calendar
  import opened Entities

  function Amount(t: Transaction): int { t.amount }

  /** The category the row's category_id points at, through the join. */
  function CategoryOf(cats: seq<Category>, t: Transaction): Option<Category>
  {
    FindBy(cats, CategoryKey, t.categoryId)
  }

  /** t.category.categoryType = type (false when the join finds nothing). */
  predicate HasType(cats: seq<Category>, t: Transaction, ty: CategoryType)
  {
    var c := CategoryOf(cats, t);
    c.Some? && c.value.categoryType == ty
  }

  /** start <= t.transactionDate < end. */
  predicate InWindow(t: Transaction, start: DateTime, end: DateTime)
  {
    Timeline(start) <= Timeline(t.transactionDate) < Timeline(end)
  }

  /** ORDER BY t.transactionDate DESC. */
  predicate DateDesc(a: Transaction, b: Transaction)
  {
    Timeline(a.transactionDate) >= Timeline(b.transactionDate)
  }

  lemma DateDescTotal()
    ensures TotalPreorder(DateDesc)
  {
  }

  /** existsByCategory. */
  function ExistsByCategory(txs: seq<Transaction>, categoryId: Id): (b: bool)
    ensures b <==> exists t :: t in txs && t.categoryId == categoryId
  {
    if txs == [] then false
    else
      assert txs == [txs[0]] + txs[1..];
      txs[0].categoryId == categoryId || ExistsByCategory(txs[1..], categoryId)
  }

  /** findByUserAndCategoryAndTransactionDateBetween: both ends included. */
  function FindByUserCategoryBetween(txs: seq<Transaction>, user: Id, categoryId: Id,
                                     start: DateTime, end: DateTime): (r: seq<Transaction>)
    ensures forall t :: t in r ==>
      (t in txs && t.userId == user && t.categoryId == categoryId &&
       Timeline(start) <= Timeline(t.transactionDate) <= Timeline(end))
    ensures forall t :: (t in txs && t.userId == user && t.categoryId == categoryId &&
      Timeline(start) <= Timeline(t.transactionDate) <= Timeline(end)) ==> t in r
  {
    Filter(txs, OfUserCategoryBetween(user, categoryId, start, end))
  }

  /** WHERE t.user = :user AND t.category = :category AND t.transactionDate
      BETWEEN :start AND :end. */
  function OfUserCategoryBetween(user: Id, categoryId: Id, start: DateTime, end: DateTime): Transaction -> bool
  {
    (t: Transaction) => t.userId == user && t.categoryId == categoryId &&
      !IsBeforeTime(t.transactionDate, start) && !IsBeforeTime(end, t.transactionDate)
  }

  /** WHERE t.user = :user. */
  function OfUser(user: Id): Transaction -> bool
  {
    (t: Transaction) => t.userId == user
  }

  /** WHERE t.user = :user AND start <= t.transactionDate < end. */
  function OfUserInWindow(user: Id, start: DateTime, end: DateTime): Transaction -> bool
  {
    (t: Transaction) => t.userId == user && InWindow(t, start, end)
  }

  /** Sorting the selected rows most recent first: the same rows, in order. */
  function NewestFirst(rows: seq<Transaction>): (r: seq<Transaction>)
    ensures SortedBy(r, DateDesc)
    ensures multiset(r) == multiset(rows)
    ensures forall t :: t in r <==> t in rows
  {
    SortRows(rows, DateDesc)
  }

  /** findAllByUser: the user's rows, most recent first. */
  function FindAllByUser(txs: seq<Transaction>, user: Id): (r: seq<Transaction>)
    ensures SortedBy(r, DateDesc)
    ensures multiset(r) == multiset(Filter(txs, OfUser(user)))
    ensures forall t :: t in r <==> t in txs && t.userId == user
  {
    NewestFirst(Filter(txs, OfUser(user)))
  }

  /** findByUserAndDateRange: the user's rows with start <= date < end, most
      recent first. */
  function FindByUserAndDateRange(txs: seq<Transaction>, user: Id, start: DateTime, end: DateTime)
    : (r: seq<Transaction>)
    ensures SortedBy(r, DateDesc)
    ensures multiset(r) == multiset(Filter(txs, OfUserInWindow(user, start, end)))
    ensures forall t :: t in r <==> t in txs && t.userId == user && InWindow(t, start, end)
  {
    NewestFirst(Filter(txs, OfUserInWindow(user, start, end)))
  }

  /** The rows sumAmountByCategoryType adds up. */
  predicate TypedInWindow(cats: seq<Category>, user: Id, ty: CategoryType, start: DateTime, end: DateTime,
                          t: Transaction)
  {
    t.userId == user && HasType(cats, t, ty) && InWindow(t, start, end)
  }

  /** sumAmountByCategoryType: COALESCE(SUM(amount), 0). */
  function SumByCategoryType(txs: seq<Transaction>, cats: seq<Category>, user: Id, ty: CategoryType,
                             start: DateTime, end: DateTime): int
  {
    SumOf(Filter(txs, (t: Transaction) => TypedInWindow(cats, user, ty, start, end, t)), Amount)
  }

  /** With no matching row the sum is 0, not null. */
  lemma SumByCategoryTypeEmpty(txs: seq<Transaction>, cats: seq<Category>, user: Id, ty: CategoryType,
                               start: DateTime, end: DateTime)
    requires forall t :: t in txs ==> !TypedInWindow(cats, user, ty, start, end, t)
    ensures SumByCategoryType(txs, cats, user, ty, start, end) == 0
  {
    SumOfNone(txs, (t: Transaction) => TypedInWindow(cats, user, ty, start, end, t), Amount);
  }

  /** Adjacent half-open windows add up: [a, c) = [a, b) + [b, c). */
  lemma SumByCategoryTypeSplit(txs: seq<Transaction>, cats: seq<Category>, user: Id, ty: CategoryType,
                               a: DateTime, b: DateTime, c: DateTime)
    requires Timeline(a) <= Timeline(b) <= Timeline(c)
    ensures SumByCategoryType(txs, cats, user, ty, a, c) ==
            SumByCategoryType(txs, cats, user, ty, a, b) + SumByCategoryType(txs, cats, user, ty, b, c)
  {
    SumOfSplit(txs, (t: Transaction) => TypedInWindow(cats, user, ty, a, c, t),
                    (t: Transaction) => TypedInWindow(cats, user, ty, a, b, t),
                    (t: Transaction) => TypedInWindow(cats, user, ty, b, c, t), Amount);
  }

  // ---------------------------------------------------------------------
  // findExpenseBreakdownByCategory: GROUP BY category name, ORDER BY SUM DESC
  // ---------------------------------------------------------------------

  datatype CategorySpending = CategorySpending(categoryName: string, totalAmount: int)

  /** t.category.name (only asked of rows the join found). */
  function CategoryName(cats: seq<Category>, t: Transaction): string
  {
    match CategoryOf(cats, t)
    case Some(c) => c.name
    case None => ""
  }

  /** The rows the expense queries range over. */
  function ExpenseRows(txs: seq<Transaction>, cats: seq<Category>, user: Id, start: DateTime, end: DateTime)
    : seq<Transaction>
  {
    Filter(txs, (t: Transaction) => TypedInWindow(cats, user, EXPENSE, start, end, t))
  }

  /** SUM(t.amount) over one group. */
  function GroupTotal(rows: seq<Transaction>, cats: seq<Category>, name: string): int
  {
    SumOf(Filter(rows, (t: Transaction) => CategoryName(cats, t) == name), Amount)
  }

  function Names(rows: seq<Transaction>, cats: seq<Category>): (r: seq<string>)
    ensures |r| == |rows|
    ensures forall i :: 0 <= i < |rows| ==> r[i] == CategoryName(cats, rows[i])
  {
    seq(|rows|, i requires 0 <= i < |rows| => CategoryName(cats, rows[i]))
  }

  /** Some row falls in the group called name. */
  predicate HasGroup(rows: seq<Transaction>, cats: seq<Category>, name: string)
  {
    exists t :: t in rows && CategoryName(cats, t) == name
  }

  /** The distinct category names of the rows: the groups. */
  function GroupNames(rows: seq<Transaction>, cats: seq<Category>): (names: seq<string>)
    ensures Distinct(names)
    ensures forall t :: t in rows ==> CategoryName(cats, t) in names
    ensures forall n :: n in names ==> HasGroup(rows, cats, n)
  {
    var all := Names(rows, cats);
    var names := Dedup(all);
    forall t | t in rows
      ensures CategoryName(cats, t) in names
    {
      var k :| 0 <= k < |rows| && rows[k] == t;
      assert all[k] == CategoryName(cats, t);
    }
    forall n | n in names
      ensures HasGroup(rows, cats, n)
    {
      var k :| 0 <= k < |all| && all[k] == n;
      assert rows[k] in rows;
    }
    names
  }

  /** ORDER BY SUM(t.amount) DESC on group names. */
  function TotalDesc(rows: seq<Transaction>, cats: seq<Category>): (string, string) -> bool
  {
    (a: string, b: string) => GroupTotal(rows, cats, a) >= GroupTotal(rows, cats, b)
  }

  /** The groups, largest total first. */
  function SortedGroups(rows: seq<Transaction>, cats: seq<Category>): (sorted: seq<string>)
    ensures Distinct(sorted) && SortedBy(sorted, TotalDesc(rows, cats))
    ensures forall t :: t in rows ==> CategoryName(cats, t) in sorted
    ensures forall n :: n in sorted ==> HasGroup(rows, cats, n)
  {
    var names := GroupNames(rows, cats);
    var sorted := SortBy(names, TotalDesc(rows, cats));
    DistinctPermutation(names, sorted);
    assert forall n :: n in sorted <==> n in multiset(sorted);
    assert forall n :: n in names <==> n in multiset(names);
    sorted
  }

  /** One (name, SUM) entry per group of the rows, largest total first. */
  function Breakdown(rows: seq<Transaction>, cats: seq<Category>): (r: seq<CategorySpending>)
    ensures forall i, j :: 0 <= i < j < |r| ==> r[i].categoryName != r[j].categoryName
    ensures forall i, j :: 0 <= i < j < |r| ==> r[i].totalAmount >= r[j].totalAmount
    ensures forall i :: 0 <= i < |r| ==> r[i].totalAmount == GroupTotal(rows, cats, r[i].categoryName)
    ensures forall i :: 0 <= i < |r| ==> HasGroup(rows, cats, r[i].categoryName)
    ensures forall t :: t in rows ==> exists i :: 0 <= i < |r| && r[i].categoryName == CategoryName(cats, t)
  {
    var sorted := SortedGroups(rows, cats);
    var r := Totals(rows, cats, sorted);
    forall i, j | 0 <= i < j < |r|
      ensures r[i].totalAmount >= r[j].totalAmount
    {
      assert TotalDesc(rows, cats)(sorted[i], sorted[j]);
    }
    forall i | 0 <= i < |r|
      ensures HasGroup(rows, cats, r[i].categoryName)
    {
      assert sorted[i] in sorted;
    }
    forall t | t in rows
      ensures exists i :: 0 <= i < |r| && r[i].categoryName == CategoryName(cats, t)
    {
      var i :| 0 <= i < |sorted| && sorted[i] == CategoryName(cats, t);
      assert r[i].categoryName == sorted[i];
    }
    r
  }

  /** SELECT name, SUM(amount) for each listed group, in the listed order. */
  function Totals(rows: seq<Transaction>, cats: seq<Category>, names: seq<string>): (r: seq<CategorySpending>)
    ensures |r| == |names|
    ensures forall i :: 0 <= i < |r| ==> r[i].categoryName == names[i]
    ensures forall i :: 0 <= i < |r| ==> r[i].totalAmount == GroupTotal(rows, cats, names[i])
  {
    seq(|names|, i requires 0 <= i < |names| => CategorySpending(names[i], GroupTotal(rows, cats, names[i])))
  }

  /** findExpenseBreakdownByCategory over the user's expenses in [start, end). */
  function ExpenseBreakdown(txs: seq<Transaction>, cats: seq<Category>, user: Id, start: DateTime, end: DateTime)
    : (r: seq<CategorySpending>)
    ensures forall i, j :: 0 <= i < j < |r| ==> r[i].categoryName != r[j].categoryName
    ensures forall i, j :: 0 <= i < j < |r| ==> r[i].totalAmount >= r[j].totalAmount
    ensures forall i :: 0 <= i < |r| ==>
      r[i].totalAmount == GroupTotal(ExpenseRows(txs, cats, user, start, end), cats, r[i].categoryName)
    ensures forall i :: 0 <= i < |r| ==>
      HasGroup(ExpenseRows(txs, cats, user, start, end), cats, r[i].categoryName)
    ensures forall t :: t in ExpenseRows(txs, cats, user, start, end) ==>
      exists i :: 0 <= i < |r| && r[i].categoryName == CategoryName(cats, t)
  {
    Breakdown(ExpenseRows(txs, cats, user, start, end), cats)
  }

  // ---------------------------------------------------------------------
  // findTopExpenseTransaction: ORDER BY amount DESC LIMIT 1
  // ---------------------------------------------------------------------

  datatype TopTransaction = TopTransaction(
    transactionId: Id,
    description: Option<string>,
    amount: int,
    transactionDate: DateTime)

  /** A row of largest amount, the first such one in row order. */
  function MaxByAmount(rows: seq<Transaction>): (r: Option<Transaction>)
    ensures r.None? <==> rows == []
    ensures r.Some? ==> r.value in rows && forall t :: t in rows ==> t.amount <= r.value.amount
  {
    if rows == [] then None
    else
      assert rows == [rows[0]] + rows[1..];
      match MaxByAmount(rows[1..])
      case None => Some(rows[0])
      case Some(m) => if rows[0].amount >= m.amount then Some(rows[0]) else Some(m)
  }

  /** null when no expense lies in the window. */
  function TopExpense(txs: seq<Transaction>, cats: seq<Category>, user: Id, start: DateTime, end: DateTime)
    : (r: Option<TopTransaction>)
    ensures r.None? <==> forall t :: t in txs ==> !TypedInWindow(cats, user, EXPENSE, start, end, t)
    ensures r.Some? ==> exists t :: (t in txs && TypedInWindow(cats, user, EXPENSE, start, end, t) &&
      r.value == TopTransaction(t.id, t.description, t.amount, t.transactionDate))
    ensures r.Some? ==> forall t :: t in txs && TypedInWindow(cats, user, EXPENSE, start, end, t) ==>
      t.amount <= r.value.amount
  {
    var rows := ExpenseRows(txs, cats, user, start, end);
    match MaxByAmount(rows)
    case None =>
      assert forall t :: t in txs && TypedInWindow(cats, user, EXPENSE, start, end, t) ==> t in rows;
      None
    case Some(t) => Some(TopTransaction(t.id, t.description, t.amount, t.transactionDate))
  }
}
