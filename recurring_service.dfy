// RecurringTransactionServiceImpl: the rules from which the scheduler
// generates transactions. A new rule is active and first runs on its start
// date; an update rewrites the rule's definition but not its schedule
// position or its active flag; a status change touches the flag alone; an
// active rule cannot be deleted. Every access by id goes through the
// ownership check, and the category of a create or update must be the
// user's own.

module RecurringService {
  import opened Common
  import opened Calendar
  import opened Entities
  import opened Database
  import opened Money
  import opened Validation

  /** RecurringTransactionRequest as a request body. */
  datatype RuleRequest = RuleRequest(
    name: string,
    amount: int,
    description: Option<string>,
    startDate: Date,
    endDate: Option<Date>,
    scheduleType: string,
    categoryId: Id)

  /** The constraints of RecurringTransactionRequest that do not depend
      on the clock: a non-blank name, an amount of at least 0.01 and a
      schedule type the validator accepts. The dates are LocalDate values,
      hence valid calendar dates. */
  predicate WellFormedRuleRequest(req: RuleRequest)
  {
    !IsBlank(req.name) && req.amount >= MinAmount && ScheduleTypeValid(Some(req.scheduleType)) &&
    ValidDate(req.startDate) && (req.endDate.Some? ==> ValidDate(req.endDate.value))
  }

  /** The request after Bean Validation on the given day: well formed, and
      @FutureOrPresent puts the start date on today or later. */
  predicate ValidRuleRequest(req: RuleRequest, today: Date)
  {
    WellFormedRuleRequest(req) && !IsBefore(req.startDate, today)
  }

  function RuleNotFound(id: Id): string
  {
    "Recurring transaction not found with id: " + IdText(id)
  }

  const RuleDenied: string := "You do not have permission to access this resource"

  function RuleCategoryNotFound(id: Id): string
  {
    "Category not found with id: " + IdText(id)
  }

  const RuleCategoryDenied: string := "You do not have permission to use this category"
  const RuleStillActive: string := "Cannot delete an active recurring transaction. Please deactivate it first."

  /** ScheduleType.valueOf(scheduleType.toUpperCase()), which cannot fail on
      a value that passed @ValidScheduleType. */
  function ResolveScheduleType(s: string): (t: ScheduleType)
    requires ScheduleTypeValid(Some(s))
    ensures ScheduleTypeName(t) == ToUpper(s)
  {
    AcceptedTypesResolve(Some(s));
    ScheduleTypeValueOf(ToUpper(s)).value
  }

  /** findRuleAndVerifyOwnership. */
  function FindRuleOwned(users: seq<User>, rules: seq<RecurringRule>, username: string, id: Id)
    : (r: Result<RecurringRule>)
    ensures r.Ok? ==> (r.value in rules && r.value.id == id &&
      exists u :: u in users && u.username == username && r.value.userId == u.id)
    ensures r.Err? ==> r.error in {ResourceNotFound(UserMissing), ResourceNotFound(RuleNotFound(id)),
                                   AccessDenied(RuleDenied)}
    ensures (exists u :: u in users && u.username == username) && (forall x :: x in rules ==> x.id != id) ==>
      r == Err(ResourceNotFound(RuleNotFound(id)))
  {
    match CurrentUser(users, username, UserMissing)
    case Err(e) => Err(e)
    case Ok(u) => FindOwned(rules, RuleKey, RuleOwner, id, u.id, RuleNotFound(id), RuleDenied)
  }

  /** With unique keys, a rule of another user is refused and the user's
      own rule is found. */
  lemma FindRuleOwnedExact(users: seq<User>, rules: seq<RecurringRule>, username: string, u: User,
                           x: RecurringRule)
    requires UniqueBy(users, UsernameKey) && UniqueBy(rules, RuleKey)
    requires u in users && u.username == username && x in rules
    ensures x.userId == u.id ==> FindRuleOwned(users, rules, username, x.id) == Ok(x)
    ensures x.userId != u.id ==> FindRuleOwned(users, rules, username, x.id) == Err(AccessDenied(RuleDenied))
  {
    FindByUnique(users, UsernameKey, u);
    FindByUnique(rules, RuleKey, x);
  }

  /** findCategoryAndVerifyOwnership. */
  function RuleCategory(cats: seq<Category>, user: Id, categoryId: Id): (r: Result<Category>)
    ensures r.Ok? ==> r.value in cats && r.value.id == categoryId && r.value.userId == user
    ensures r.Err? ==> r.error in {ResourceNotFound(RuleCategoryNotFound(categoryId)),
                                   AccessDenied(RuleCategoryDenied)}
  {
    FindOwned(cats, CategoryKey, CategoryOwner, categoryId, user, RuleCategoryNotFound(categoryId),
              RuleCategoryDenied)
  }

  /** RecurringTransaction.builder() in createRecurringTransaction: the
      first execution is on the start date and the rule starts active. */
  function BuildRule(id: Id, owner: Id, req: RuleRequest): (r: RecurringRule)
    requires WellFormedRuleRequest(req)
    ensures r.id == id && r.userId == owner && r.categoryId == req.categoryId
    ensures r.name == req.name && r.amount == req.amount && r.description == req.description
    ensures r.startDate == req.startDate && r.endDate == req.endDate
    ensures r.nextExecutionDate == req.startDate && r.isActive
    ensures ScheduleTypeName(r.scheduleType) == ToUpper(req.scheduleType)
  {
    RecurringRule(id, owner, req.categoryId, req.name, req.amount, req.description, req.startDate,
                  req.endDate, req.startDate, true, ResolveScheduleType(req.scheduleType))
  }

  /** The seven setters of updateRecurringTransaction. */
  function ApplyRuleUpdate(x: RecurringRule, req: RuleRequest): (n: RecurringRule)
    requires WellFormedRuleRequest(req)
    ensures n.id == x.id && n.userId == x.userId
    ensures n.nextExecutionDate == x.nextExecutionDate && n.isActive == x.isActive
    ensures n.name == req.name && n.amount == req.amount && n.description == req.description
    ensures n.startDate == req.startDate && n.endDate == req.endDate && n.categoryId == req.categoryId
    ensures ScheduleTypeName(n.scheduleType) == ToUpper(req.scheduleType)
  {
    x.(name := req.name, amount := req.amount, description := req.description,
       startDate := req.startDate, endDate := req.endDate,
       scheduleType := ResolveScheduleType(req.scheduleType), categoryId := req.categoryId)
  }

  /** An update is a fresh build that keeps the rule's identity, schedule
      position and active flag. */
  lemma ApplyRuleUpdateIsRebuild(x: RecurringRule, req: RuleRequest)
    requires WellFormedRuleRequest(req)
    ensures ApplyRuleUpdate(x, req) ==
            BuildRule(x.id, x.userId, req).(nextExecutionDate := x.nextExecutionDate, isActive := x.isActive)
  {
  }

  /** setActive in updateStatus. */
  function SetActive(x: RecurringRule, active: bool): (n: RecurringRule)
    ensures n.isActive == active
    ensures n.(isActive := x.isActive) == x
  {
    x.(isActive := active)
  }

  /** ORDER BY nextExecutionDate ASC. */
  predicate NextFirst(a: RecurringRule, b: RecurringRule)
  {
    !IsBefore(b.nextExecutionDate, a.nextExecutionDate)
  }

  lemma NextFirstTotal()
    ensures TotalPreorder(NextFirst)
  {
  }

  function RuleOwnedBy(user: Id): RecurringRule -> bool
  {
    (x: RecurringRule) => x.userId == user
  }

  /** findByUserOrderByNextExecutionDateAsc. */
  function RulesOfUser(rules: seq<RecurringRule>, user: Id): (r: seq<RecurringRule>)
    ensures SortedBy(r, NextFirst)
    ensures multiset(r) == multiset(Filter(rules, RuleOwnedBy(user)))
    ensures forall x :: x in r <==> x in rules && x.userId == user
  {
    NextFirstTotal();
    SortRows(Filter(rules, RuleOwnedBy(user)), NextFirst)
  }

  /** getAllUserRecurringTransactions. */
  function GetAllUserRules(users: seq<User>, rules: seq<RecurringRule>, username: string)
    : (r: Result<seq<RecurringRule>>)
    ensures r.Err? <==> forall u :: u in users ==> u.username != username
    ensures r.Ok? ==> exists u :: u in users && u.username == username && r.value == RulesOfUser(rules, u.id)
  {
    match CurrentUser(users, username, UserMissing)
    case Err(e) => Err(e)
    case Ok(u) => Ok(RulesOfUser(rules, u.id))
  }

  /** createRecurringTransaction on the given day. A new rule never has a
      first execution in the past. A name longer than its column and a
      name the user already has are both refused by the database. */
  method CreateRule(db: Db, username: string, req: RuleRequest, today: Date) returns (r: Result<RecurringRule>)
    requires db.Valid() && ValidRuleRequest(req, today)
    modifies db`rules, db`nextId
    ensures db.Valid()
    ensures r.Ok? ==> !IsBefore(r.value.nextExecutionDate, today)
    ensures r.Err? ==> db.rules == old(db.rules)
    ensures match CurrentUser(db.users, username, UserMissing)
      case Err(e) => r == Err(e)
      case Ok(u) =>
        match RuleCategory(db.categories, u.id, req.categoryId)
        case Err(e) => r == Err(e)
        case Ok(_) =>
          var x := BuildRule(old(db.nextId), u.id, req);
          if |req.name| > RuleNameWidth || Taken(old(db.rules), RuleNameKey, (u.id, req.name)) then
            r == Err(DataIntegrityViolation)
          else r == Ok(x) && db.rules == old(db.rules) + [x]
  {
    var cu := CurrentUser(db.users, username, UserMissing);
    if cu.Err? {
      return Err(cu.error);
    }
    var u := cu.value;
    var cat := RuleCategory(db.categories, u.id, req.categoryId);
    if cat.Err? {
      return Err(cat.error);
    }
    if |req.name| > RuleNameWidth || Taken(db.rules, RuleNameKey, (u.id, req.name)) {
      return Err(DataIntegrityViolation);
    }
    var id := db.FreshId();
    var x := BuildRule(id, u.id, req);
    UniqueAppend(db.rules, RuleKey, x);
    UniqueAppend(db.rules, RuleNameKey, x);
    db.rules := db.rules + [x];
    r := Ok(x);
  }

  /** updateRecurringTransaction on the given day: the ownership check of
      the rule comes before the category check. The new start date is not
      in the past, but the next execution date is kept as it was. */
  method UpdateRule(db: Db, username: string, id: Id, req: RuleRequest, today: Date)
    returns (r: Result<RecurringRule>)
    requires db.Valid() && ValidRuleRequest(req, today)
    modifies db`rules
    ensures db.Valid()
    ensures r.Ok? ==> !IsBefore(r.value.startDate, today)
    ensures r.Err? ==> db.rules == old(db.rules)
    ensures match FindRuleOwned(db.users, old(db.rules), username, id)
      case Err(e) => r == Err(e)
      case Ok(x) =>
        match RuleCategory(db.categories, x.userId, req.categoryId)
        case Err(e) => r == Err(e)
        case Ok(_) =>
          var n := ApplyRuleUpdate(x, req);
          if |n.name| > RuleNameWidth || TakenByOther(old(db.rules), RuleKey, RuleNameKey, n) then
            r == Err(DataIntegrityViolation)
          else r == Ok(n) && db.rules == ReplaceBy(old(db.rules), RuleKey, n)
  {
    var found := FindRuleOwned(db.users, db.rules, username, id);
    if found.Err? {
      return Err(found.error);
    }
    var x := found.value;
    var cat := RuleCategory(db.categories, x.userId, req.categoryId);
    if cat.Err? {
      return Err(cat.error);
    }
    var n := ApplyRuleUpdate(x, req);
    if |n.name| > RuleNameWidth || TakenByOther(db.rules, RuleKey, RuleNameKey, n) {
      return Err(DataIntegrityViolation);
    }
    UniqueReplace(db.rules, RuleKey, RuleNameKey, n);
    db.rules := ReplaceBy(db.rules, RuleKey, n);
    r := Ok(n);
  }

  /** updateStatus: only the active flag of that one rule changes. */
  method UpdateStatus(db: Db, username: string, id: Id, active: bool) returns (r: Result<RecurringRule>)
    requires db.Valid()
    modifies db`rules
    ensures db.Valid()
    ensures match FindRuleOwned(db.users, old(db.rules), username, id)
      case Err(e) => r == Err(e) && db.rules == old(db.rules)
      case Ok(x) => r == Ok(SetActive(x, active)) && db.rules == ReplaceBy(old(db.rules), RuleKey, SetActive(x, active))
  {
    var found := FindRuleOwned(db.users, db.rules, username, id);
    if found.Err? {
      return Err(found.error);
    }
    var n := SetActive(found.value, active);
    assert !TakenByOther(db.rules, RuleKey, RuleNameKey, n);
    UniqueReplace(db.rules, RuleKey, RuleNameKey, n);
    db.rules := ReplaceBy(db.rules, RuleKey, n);
    r := Ok(n);
  }

  /** Generated transactions still point at the rule: the foreign key
      recurring_transaction_id refuses the delete. */
  predicate RuleReferenced(txs: seq<Transaction>, id: Id)
  {
    exists t :: t in txs && t.recurringTransactionId == Some(id)
  }

  /** deleteRecurringTransaction: only an inactive rule is removed. */
  method DeleteRule(db: Db, username: string, id: Id) returns (r: Result<()>)
    requires db.Valid()
    modifies db`rules
    ensures db.Valid()
    ensures r.Err? ==> db.rules == old(db.rules)
    ensures match FindRuleOwned(db.users, old(db.rules), username, id)
      case Err(e) => r == Err(e)
      case Ok(x) =>
        if x.isActive then r == Err(IllegalState(RuleStillActive))
        else if RuleReferenced(db.transactions, id) then r == Err(DataIntegrityViolation)
        else r == Ok(()) && db.rules == RemoveBy(old(db.rules), RuleKey, id)
  {
    var found := FindRuleOwned(db.users, db.rules, username, id);
    if found.Err? {
      return Err(found.error);
    }
    if found.value.isActive {
      return Err(IllegalState(RuleStillActive));
    }
    if RuleReferenced(db.transactions, id) {
      return Err(DataIntegrityViolation);
    }
    db.rules := RemoveBy(db.rules, RuleKey, id);
    r := Ok(());
  }
}
