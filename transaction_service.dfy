// TransactionServiceImpl: record, list, read, update and delete the current
// user's transactions. A manual transaction runs the budget alert check once
// saved; one created from a template takes the template's amount when it
// has one, is dated now, and runs no alert check. Listing filters by date
// only when both ends are given, over whole days.

module TransactionService {
  import opened Common
  import opened Calendar
  import opened Entities
  import opened Database
  import opened Money
  import opened TransactionQueries
  import opened BudgetAlert

  /** TransactionRequest after Bean Validation: amount at least 0.01; the
      date is a LocalDateTime, hence a valid one. */
  datatype TransactionRequest = TransactionRequest(
    amount: int,
    description: Option<string>,
    transactionDate: DateTime,
    categoryId: Id)

  predicate ValidTransactionRequest(req: TransactionRequest)
  {
    req.amount >= MinAmount && ValidDateTime(req.transactionDate)
  }

  /** CreateTransactionFromTemplateRequest: an optional amount, at least
      0.01 when present. */
  datatype FromTemplateRequest = FromTemplateRequest(amount: Option<int>)

  predicate ValidFromTemplateRequest(req: FromTemplateRequest)
  {
    req.amount.Some? ==> req.amount.value >= MinAmount
  }

  function TransactionNotFound(id: Id): string
  {
    "Transaction not found with id: " + IdText(id)
  }

  const TransactionDenied: string := "You do not have permission to access this transaction"

  function TxCategoryNotFound(id: Id): string
  {
    "Category not found with id: " + IdText(id)
  }

  const TxCategoryDenied: string := "You do not have permission to use this category"

  function TxTemplateNotFound(id: Id): string
  {
    "Template not found with id: " + IdText(id)
  }

  const TxTemplateDenied: string := "You do not have permission to use this template"
  const AmountRequired: string := "Amount is required as this template does not have a pre-defined amount."

  /** findTransactionAndVerifyOwnership. */
  function FindTransactionOwned(users: seq<User>, txs: seq<Transaction>, username: string, id: Id)
    : (r: Result<Transaction>)
    ensures r.Ok? ==> (r.value in txs && r.value.id == id &&
      exists u :: u in users && u.username == username && r.value.userId == u.id)
    ensures r.Err? ==> r.error in {ResourceNotFound(UserMissing), ResourceNotFound(TransactionNotFound(id)),
                                   AccessDenied(TransactionDenied)}
    ensures (exists u :: u in users && u.username == username) && (forall t :: t in txs ==> t.id != id) ==>
      r == Err(ResourceNotFound(TransactionNotFound(id)))
  {
    match CurrentUser(users, username, UserMissing)
    case Err(e) => Err(e)
    case Ok(u) => FindOwned(txs, TransactionKey, TransactionOwner, id, u.id, TransactionNotFound(id),
                            TransactionDenied)
  }

  /** findCategoryAndVerifyOwnership. */
  function TxCategory(cats: seq<Category>, user: Id, categoryId: Id): (r: Result<Category>)
    ensures r.Ok? ==> r.value in cats && r.value.id == categoryId && r.value.userId == user
    ensures r.Err? ==> r.error in {ResourceNotFound(TxCategoryNotFound(categoryId)), AccessDenied(TxCategoryDenied)}
  {
    FindOwned(cats, CategoryKey, CategoryOwner, categoryId, user, TxCategoryNotFound(categoryId), TxCategoryDenied)
  }

  /** findTemplateAndVerifyOwnership. */
  function TxTemplate(templates: seq<Template>, user: Id, templateId: Id): (r: Result<Template>)
    ensures r.Ok? ==> r.value in templates && r.value.id == templateId && r.value.userId == user
    ensures r.Err? ==> r.error in {ResourceNotFound(TxTemplateNotFound(templateId)), AccessDenied(TxTemplateDenied)}
  {
    FindOwned(templates, TemplateKey, TemplateOwner, templateId, user, TxTemplateNotFound(templateId),
              TxTemplateDenied)
  }

  /** getTransactionAmount: the template's own amount wins over the
      request's; with neither there is no amount. */
  function TransactionAmount(req: FromTemplateRequest, template: Template): (r: Result<int>)
    ensures r.Ok? <==> template.amount.Some? || req.amount.Some?
    ensures template.amount.Some? ==> r == Ok(template.amount.value)
    ensures template.amount.None? && req.amount.Some? ==> r == Ok(req.amount.value)
    ensures r.Err? ==> r.error == IllegalArgument(AmountRequired)
  {
    if template.amount.Some? then Ok(template.amount.value)
    else if req.amount.Some? then Ok(req.amount.value)
    else Err(IllegalArgument(AmountRequired))
  }

  /** Transaction.builder() in createTransaction. */
  function BuildTransaction(id: Id, owner: Id, req: TransactionRequest): (t: Transaction)
    ensures t.id == id && t.userId == owner && t.categoryId == req.categoryId
    ensures t.amount == req.amount && t.description == req.description
    ensures t.transactionDate == req.transactionDate
    ensures !t.isCreatedAutomatically && t.recurringTransactionId.None?
  {
    Transaction(id, owner, req.categoryId, req.amount, req.description, req.transactionDate, false, None)
  }

  /** Transaction.builder() in createTransactionFromTemplate. */
  function BuildFromTemplate(id: Id, owner: Id, template: Template, amount: int, now: DateTime): (t: Transaction)
    ensures t.id == id && t.userId == owner && t.categoryId == template.categoryId
    ensures t.amount == amount && t.description == template.description && t.transactionDate == now
    ensures !t.isCreatedAutomatically && t.recurringTransactionId.None?
  {
    Transaction(id, owner, template.categoryId, amount, template.description, now, false, None)
  }

  /** The four setters of updateTransaction; the owner, the automatic flag
      and the link to a recurring rule stay. */
  function ApplyTransactionUpdate(t: Transaction, req: TransactionRequest): (n: Transaction)
    ensures n.id == t.id && n.userId == t.userId
    ensures n.isCreatedAutomatically == t.isCreatedAutomatically
    ensures n.recurringTransactionId == t.recurringTransactionId
    ensures n == BuildTransaction(t.id, t.userId, req).(isCreatedAutomatically := t.isCreatedAutomatically,
                                                         recurringTransactionId := t.recurringTransactionId)
  {
    t.(amount := req.amount, description := req.description, transactionDate := req.transactionDate,
       categoryId := req.categoryId)
  }

  /** transactionRepository.save of a new row: it takes the next key. */
  method SaveNew(db: Db, t: Transaction)
    requires db.Valid() && t.id == db.nextId
    requires ValidDateTime(t.transactionDate) && t.categoryId in CategoryIds(db.categories)
    modifies db`transactions, db`nextId
    ensures db.Valid()
    ensures db.transactions == old(db.transactions) + [t] && db.nextId == old(db.nextId) + 1
  {
    var _ := db.FreshId();
    UniqueAppend(db.transactions, TransactionKey, t);
    db.transactions := db.transactions + [t];
  }

  /** Save a new transaction, then run the alert check on it. */
  method SaveAndAlert(db: Db, t: Transaction, threshold: Threshold, now: int) returns (ghost alertId: Id)
    requires db.Valid() && t.id == db.nextId && ValidThreshold(threshold)
    requires ValidDateTime(t.transactionDate) && t.categoryId in CategoryIds(db.categories)
    modifies db`transactions, db`notifications, db`nextId
    ensures db.Valid()
    ensures db.transactions == old(db.transactions) + [t]
    ensures alertId == t.id + 1
    ensures db.notifications ==
      old(db.notifications) + AlertsFor(db.budgets, db.transactions, db.categories, t, threshold, alertId, now)
    ensures db.nextId == alertId + |AlertsFor(db.budgets, db.transactions, db.categories, t, threshold, alertId, now)|
  {
    SaveNew(db, t);
    alertId := db.nextId;
    var _ := CheckBudgetAfterTransaction(db, t, threshold, now);
  }

  /** The checks before createTransaction saves: the current user, then
      the category's existence and ownership. */
  function CreateChecks(users: seq<User>, cats: seq<Category>, username: string, categoryId: Id)
    : (r: Result<User>)
    ensures r.Ok? ==> r.value in users && r.value.username == username
    ensures r.Ok? ==> exists c :: c in cats && c.id == categoryId && c.userId == r.value.id
  {
    match CurrentUser(users, username, UserMissing)
    case Err(e) => Err(e)
    case Ok(u) =>
      match TxCategory(cats, u.id, categoryId)
      case Err(e) => Err(e)
      case Ok(_) => Ok(u)
  }

  lemma CreateChecksCategory(users: seq<User>, cats: seq<Category>, username: string, categoryId: Id)
    requires CreateChecks(users, cats, username, categoryId).Ok?
    ensures categoryId in CategoryIds(cats)
  {
    var c :| c in cats && c.id == categoryId;
    CategoryIdsMember(cats, c);
  }

  /** createTransaction: save, then run the budget alert check on the saved
      transaction. */
  method CreateTransaction(db: Db, username: string, req: TransactionRequest, threshold: Threshold, now: int)
    returns (r: Result<Transaction>, ghost alertId: Id)
    requires db.Valid() && ValidTransactionRequest(req) && ValidThreshold(threshold)
    modifies db`transactions, db`notifications, db`nextId
    ensures db.Valid()
    ensures match CreateChecks(db.users, db.categories, username, req.categoryId)
      case Err(e) => r == Err(e) && db.transactions == old(db.transactions) && db.notifications == old(db.notifications)
      case Ok(u) => r == Ok(BuildTransaction(old(db.nextId), u.id, req)) && db.transactions == old(db.transactions) + [r.value]
    ensures r.Ok? ==> alertId == r.value.id + 1
    ensures r.Ok? ==> (db.notifications == old(db.notifications) +
      AlertsFor(db.budgets, db.transactions, db.categories, r.value, threshold, alertId, now))
  {
    var checked := CreateChecks(db.users, db.categories, username, req.categoryId);
    if checked.Err? {
      return Err(checked.error), 0;
    }
    var t := BuildTransaction(db.nextId, checked.value.id, req);
    CreateChecksCategory(db.users, db.categories, username, req.categoryId);
    r := Ok(t);
    alertId := SaveAndAlert(db, r.value, threshold, now);
  }

  /** createTransactionFromTemplate: no alert check is run. */
  method CreateFromTemplate(db: Db, username: string, templateId: Id, req: FromTemplateRequest, now: DateTime)
    returns (r: Result<Transaction>)
    requires db.Valid() && ValidFromTemplateRequest(req) && ValidDateTime(now)
    modifies db`transactions, db`nextId
    ensures db.Valid()
    ensures r.Err? ==> db.transactions == old(db.transactions)
    ensures match CurrentUser(db.users, username, UserMissing)
      case Err(e) => r == Err(e)
      case Ok(u) =>
        match TxTemplate(db.templates, u.id, templateId)
        case Err(e) => r == Err(e)
        case Ok(template) =>
          match TransactionAmount(req, template)
          case Err(e) => r == Err(e)
          case Ok(amount) =>
            var t := BuildFromTemplate(old(db.nextId), u.id, template, amount, now);
            r == Ok(t) && db.transactions == old(db.transactions) + [t]
  {
    var cu := CurrentUser(db.users, username, UserMissing);
    if cu.Err? {
      return Err(cu.error);
    }
    var u := cu.value;
    var found := TxTemplate(db.templates, u.id, templateId);
    if found.Err? {
      return Err(found.error);
    }
    var amount := TransactionAmount(req, found.value);
    if amount.Err? {
      return Err(amount.error);
    }
    var t := BuildFromTemplate(db.nextId, u.id, found.value, amount.value, now);
    SaveNew(db, t);
    r := Ok(t);
  }

  /** getTransactions: the window [start 00:00, (end + 1 day) 00:00) when
      both dates are given, all of the user's transactions otherwise. */
  function GetTransactions(users: seq<User>, txs: seq<Transaction>, username: string,
                           start: Option<Date>, end: Option<Date>): (r: Result<seq<Transaction>>)
    requires start.Some? ==> ValidDate(start.value)
    requires end.Some? ==> ValidDate(end.value)
    ensures r.Err? <==> forall u :: u in users ==> u.username != username
    ensures r.Ok? ==> exists u :: (u in users && u.username == username &&
      r.value == (if start.Some? && end.Some?
                  then FindByUserAndDateRange(txs, u.id, AtStartOfDay(start.value),
                                              AtStartOfDay(PlusDays(end.value, 1)))
                  else FindAllByUser(txs, u.id)))
  {
    match CurrentUser(users, username, UserMissing)
    case Err(e) => Err(e)
    case Ok(u) =>
      if start.Some? && end.Some? then
        Ok(FindByUserAndDateRange(txs, u.id, AtStartOfDay(start.value), AtStartOfDay(PlusDays(end.value, 1))))
      else Ok(FindAllByUser(txs, u.id))
  }

  /** With both dates, a transaction is listed exactly when it is the
      user's and its date falls on a day from start to end, both included;
      with either date missing, every transaction of the user is. */
  lemma GetTransactionsDays(users: seq<User>, txs: seq<Transaction>, username: string,
                            start: Option<Date>, end: Option<Date>, t: Transaction)
    requires start.Some? ==> ValidDate(start.value)
    requires end.Some? ==> ValidDate(end.value)
    requires ValidDateTime(t.transactionDate)
    requires GetTransactions(users, txs, username, start, end).Ok?
    ensures exists u :: (u in users && u.username == username &&
      (t in GetTransactions(users, txs, username, start, end).value <==>
       t in txs && t.userId == u.id &&
       (start.Some? && end.Some? ==>
          !IsBefore(t.transactionDate.date, start.value) && !IsAfter(t.transactionDate.date, end.value))))
  {
    var u := CurrentUser(users, username, UserMissing).value;
    if start.Some? && end.Some? {
      WholeDayWindow(start.value, end.value, t.transactionDate);
    }
    assert u in users && u.username == username;
  }

  /** updateTransaction: the transaction's ownership check comes before the
      category check; no alert check is run. */
  method UpdateTransaction(db: Db, username: string, id: Id, req: TransactionRequest)
    returns (r: Result<Transaction>)
    requires db.Valid() && ValidTransactionRequest(req)
    modifies db`transactions
    ensures db.Valid()
    ensures match FindTransactionOwned(db.users, old(db.transactions), username, id)
      case Err(e) => r == Err(e) && db.transactions == old(db.transactions)
      case Ok(t) =>
        match TxCategory(db.categories, t.userId, req.categoryId)
        case Err(e) => r == Err(e) && db.transactions == old(db.transactions)
        case Ok(_) =>
          var n := ApplyTransactionUpdate(t, req);
          r == Ok(n) && db.transactions == ReplaceBy(old(db.transactions), TransactionKey, n)
  {
    var found := FindTransactionOwned(db.users, db.transactions, username, id);
    if found.Err? {
      return Err(found.error);
    }
    var t := found.value;
    var cat := TxCategory(db.categories, t.userId, req.categoryId);
    if cat.Err? {
      return Err(cat.error);
    }
    var n := ApplyTransactionUpdate(t, req);
    assert !TakenByOther(db.transactions, TransactionKey, TransactionKey, n);
    UniqueReplace(db.transactions, TransactionKey, TransactionKey, n);
    db.transactions := ReplaceBy(db.transactions, TransactionKey, n);
    r := Ok(n);
  }

  /** deleteTransaction. */
  method DeleteTransaction(db: Db, username: string, id: Id) returns (r: Result<()>)
    requires db.Valid()
    modifies db`transactions
    ensures db.Valid()
    ensures match FindTransactionOwned(db.users, old(db.transactions), username, id)
      case Err(e) => r == Err(e) && db.transactions == old(db.transactions)
      case Ok(_) => r == Ok(()) && db.transactions == RemoveBy(old(db.transactions), TransactionKey, id)
  {
    var found := FindTransactionOwned(db.users, db.transactions, username, id);
    if found.Err? {
      return Err(found.error);
    }
    db.transactions := RemoveBy(db.transactions, TransactionKey, id);
    r := Ok(());
  }
}
