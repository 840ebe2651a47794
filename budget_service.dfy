// BudgetServiceImpl: create a monthly budget for one of the user's
// categories, list the budgets of a month, and read, update or delete one
// budget after the ownership check. A second budget for the same user,
// category and month is refused by the table's unique constraint, not by
// the service.

module BudgetService {
  import opened Common
  import opened Calendar
  import opened Entities
  import opened Database
  import opened Digits
  import opened Validation
  import opened BudgetQueries

  function BudgetNotFound(id: Id): string
  {
    "Budget not found with id: " + IdText(id)
  }

  const BudgetDenied: string := "You do not have permission to access this budget"
  const BudgetCategoryMissing: string := "Category not found"
  const BudgetCategoryDenied: string := "You do not have permission to create a budget for this category"

  /** findBudgetAndVerifyOwnership. */
  function FindBudgetOwned(users: seq<User>, budgets: seq<Budget>, username: string, id: Id)
    : (r: Result<Budget>)
    ensures r.Ok? ==> (r.value in budgets && r.value.id == id &&
      exists u :: u in users && u.username == username && r.value.userId == u.id)
    ensures r.Err? ==> r.error in {ResourceNotFound(SecurityUserMissing(username)),
                                   ResourceNotFound(BudgetNotFound(id)), AccessDenied(BudgetDenied)}
    ensures (exists u :: u in users && u.username == username) && (forall b :: b in budgets ==> b.id != id) ==>
      r == Err(ResourceNotFound(BudgetNotFound(id)))
  {
    match CurrentUser(users, username, SecurityUserMissing(username))
    case Err(e) => Err(e)
    case Ok(u) => FindOwned(budgets, BudgetKey, BudgetOwner, id, u.id, BudgetNotFound(id), BudgetDenied)
  }

  /** A foreign budget is refused, whoever asks. */
  lemma FindBudgetOwnedForeign(users: seq<User>, budgets: seq<Budget>, username: string, u: User, b: Budget)
    requires UniqueBy(users, UsernameKey) && UniqueBy(budgets, BudgetKey)
    requires u in users && u.username == username && b in budgets && b.userId != u.id
    ensures FindBudgetOwned(users, budgets, username, b.id) == Err(AccessDenied(BudgetDenied))
  {
    FindByUnique(users, UsernameKey, u);
    FindByUnique(budgets, BudgetKey, b);
  }

  /** YearMonth.parse(budgetMonth).atDay(1). */
  function BudgetMonthOf(req: BudgetRequest): (d: Date)
    requires ValidBudgetRequest(req)
    ensures ValidDate(d) && d.day == 1 && 0 <= d.year <= 9999
    ensures FormatYearMonth(YearMonthOf(d)) == req.budgetMonth.value
  {
    var ym := ParseBudgetMonth(req.budgetMonth.value);
    BudgetMonthRoundTrip(req.budgetMonth.value);
    FirstDay(ym)
  }

  /** Budget.builder() in createBudget. */
  function BuildBudget(id: Id, owner: Id, req: BudgetRequest): (b: Budget)
    requires ValidBudgetRequest(req)
    ensures b.id == id && b.userId == owner && b.categoryId == req.categoryId.value
    ensures b.budgetMonth == BudgetMonthOf(req) && b.budgetAmount == req.budgetAmount.value
    ensures b.autoRenew == req.autoRenew.value
  {
    Budget(id, owner, req.categoryId.value, BudgetMonthOf(req), req.budgetAmount.value, req.autoRenew.value)
  }

  /** createBudget. */
  method CreateBudget(db: Db, username: string, req: BudgetRequest) returns (r: Result<Budget>)
    requires db.Valid() && ValidBudgetRequest(req)
    modifies db`budgets, db`nextId
    ensures db.Valid()
    ensures r.Err? ==> db.budgets == old(db.budgets)
    ensures match CurrentUser(db.users, username, SecurityUserMissing(username))
      case Err(e) => r == Err(e)
      case Ok(u) =>
        match FindOwned(db.categories, CategoryKey, CategoryOwner, req.categoryId.value, u.id,
                        BudgetCategoryMissing, BudgetCategoryDenied)
        case Err(e) => r == Err(e)
        case Ok(_) =>
          var b := BuildBudget(old(db.nextId), u.id, req);
          if Taken(old(db.budgets), BudgetMonthKey, BudgetMonthKey(b)) then r == Err(DataIntegrityViolation)
          else r == Ok(b) && db.budgets == old(db.budgets) + [b]
  {
    var cu := CurrentUser(db.users, username, SecurityUserMissing(username));
    if cu.Err? {
      return Err(cu.error);
    }
    var u := cu.value;
    var cat := FindOwned(db.categories, CategoryKey, CategoryOwner, req.categoryId.value, u.id,
                         BudgetCategoryMissing, BudgetCategoryDenied);
    if cat.Err? {
      return Err(cat.error);
    }
    if Taken(db.budgets, BudgetMonthKey, BudgetMonthKey(BuildBudget(db.nextId, u.id, req))) {
      return Err(DataIntegrityViolation);
    }
    var id := db.FreshId();
    var b := BuildBudget(id, u.id, req);
    UniqueAppend(db.budgets, BudgetKey, b);
    UniqueAppend(db.budgets, BudgetMonthKey, b);
    db.budgets := db.budgets + [b];
    r := Ok(b);
  }

  /** The text of an int as Integer.toString gives it. */
  function IntText(i: int): string
  {
    if i < 0 then "-" + ToDecimal(-i) else ToDecimal(i)
  }

  /** The range of ChronoField.YEAR, which LocalDate.of checks first. */
  const MaxYear: int := 999_999_999

  /** LocalDate.of(year, month, 1) with a year outside the YEAR range. */
  function YearOutOfRange(year: int): string
  {
    "Invalid value for Year (valid values -999999999 - 999999999): " + IntText(year)
  }

  /** LocalDate.of(year, month, 1) with a valid year and a month outside
      1..12. */
  function MonthOutOfRange(month: int): string
  {
    "Invalid value for MonthOfYear (valid values 1 - 12): " + IntText(month)
  }

  /** getBudgets: the user's budgets with budgetMonth between day 1 and
      the last day (lengthOfMonth) of the month. LocalDate.of tests the
      year before the month. */
  function GetBudgets(users: seq<User>, budgets: seq<Budget>, username: string, year: int, month: int)
    : (r: Result<seq<Budget>>)
    ensures (forall u :: u in users ==> u.username != username) ==>
      r == Err(ResourceNotFound(SecurityUserMissing(username)))
    ensures (exists u :: u in users && u.username == username) && !(-MaxYear <= year <= MaxYear) ==>
      r == Err(DateTimeError(YearOutOfRange(year)))
    ensures (exists u :: u in users && u.username == username) && -MaxYear <= year <= MaxYear && !(1 <= month <= 12) ==>
      r == Err(DateTimeError(MonthOutOfRange(month)))
    ensures r.Ok? ==> -MaxYear <= year <= MaxYear && 1 <= month <= 12 && exists u :: (u in users && u.username == username &&
      r.value == FindByUserAndBudgetMonthBetween(budgets, u.id, FirstDay(YearMonth(year, month)),
                                                 LastDay(YearMonth(year, month))))
  {
    match CurrentUser(users, username, SecurityUserMissing(username))
    case Err(e) => Err(e)
    case Ok(u) =>
      if !(-MaxYear <= year <= MaxYear) then Err(DateTimeError(YearOutOfRange(year)))
      else if !(1 <= month <= 12) then Err(DateTimeError(MonthOutOfRange(month)))
      else
        var ym := YearMonth(year, month);
        Ok(FindByUserAndBudgetMonthBetween(budgets, u.id, FirstDay(ym), LastDay(ym)))
  }

  /** The inclusive range [day 1, last day] returns exactly the user's
      budgets of that calendar month, in any year, leap or not. */
  lemma GetBudgetsIsMonth(users: seq<User>, budgets: seq<Budget>, username: string, year: int, month: int, b: Budget)
    requires GetBudgets(users, budgets, username, year, month).Ok?
    requires ValidDate(b.budgetMonth)
    ensures exists u :: (u in users && u.username == username &&
      (b in GetBudgets(users, budgets, username, year, month).value <==>
       b in budgets && b.userId == u.id && b.budgetMonth.year == year && b.budgetMonth.month == month))
  {
    var u := CurrentUser(users, username, SecurityUserMissing(username)).value;
    MonthRange(YearMonth(year, month), b.budgetMonth);
    assert u in users && u.username == username;
  }

  /** updateBudget: only budgetAmount and autoRenew are set; the category and
      the month of the request are ignored. */
  function ApplyBudgetUpdate(b: Budget, req: BudgetRequest): (n: Budget)
    requires ValidBudgetRequest(req)
    ensures n.id == b.id && n.userId == b.userId && n.categoryId == b.categoryId
    ensures n.budgetMonth == b.budgetMonth
    ensures n.budgetAmount == req.budgetAmount.value && n.autoRenew == req.autoRenew.value
  {
    b.(budgetAmount := req.budgetAmount.value, autoRenew := req.autoRenew.value)
  }

  method UpdateBudget(db: Db, username: string, id: Id, req: BudgetRequest) returns (r: Result<Budget>)
    requires db.Valid() && ValidBudgetRequest(req)
    modifies db`budgets
    ensures db.Valid()
    ensures match FindBudgetOwned(db.users, old(db.budgets), username, id)
      case Err(e) => r == Err(e) && db.budgets == old(db.budgets)
      case Ok(b) =>
        var n := ApplyBudgetUpdate(b, req);
        r == Ok(n) && db.budgets == ReplaceBy(old(db.budgets), BudgetKey, n)
  {
    var found := FindBudgetOwned(db.users, db.budgets, username, id);
    if found.Err? {
      return Err(found.error);
    }
    var n := ApplyBudgetUpdate(found.value, req);
    assert !TakenByOther(db.budgets, BudgetKey, BudgetMonthKey, n);
    UniqueReplace(db.budgets, BudgetKey, BudgetMonthKey, n);
    db.budgets := ReplaceBy(db.budgets, BudgetKey, n);
    r := Ok(n);
  }

  /** deleteBudget. */
  method DeleteBudget(db: Db, username: string, id: Id) returns (r: Result<()>)
    requires db.Valid()
    modifies db`budgets
    ensures db.Valid()
    ensures match FindBudgetOwned(db.users, old(db.budgets), username, id)
      case Err(e) => r == Err(e) && db.budgets == old(db.budgets)
      case Ok(_) => r == Ok(()) && db.budgets == RemoveBy(old(db.budgets), BudgetKey, id)
  {
    var found := FindBudgetOwned(db.users, db.budgets, username, id);
    if found.Err? {
      return Err(found.error);
    }
    db.budgets := RemoveBy(db.budgets, BudgetKey, id);
    r := Ok(());
  }
}
