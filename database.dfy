// The database behind the repositories: one table per entity, each a
// sequence of rows, and a generator of fresh primary keys standing in for
// the UUID generator. Valid() collects what every writer keeps true: unique
// primary keys below the generator, the @UniqueConstraint and unique
// columns, the NOT NULL foreign keys to categories, and the value ranges
// the request constraints guarantee. The lookups every service shares (the
// authenticated user, findById followed by the ownership check) are here.

module Database {
  import opened Common
  import opened Calendar
  import opened Entities
  import opened Digits

  /** Every key is below the next key the generator hands out. */
  ghost predicate KeysBelow<T>(s: seq<T>, key: T -> Id, bound: nat)
  {
    forall x :: x in s ==> key(x) < bound
  }

  /** A table with a primary key. */
  ghost predicate Table<T>(s: seq<T>, key: T -> Id, bound: nat)
  {
    UniqueBy(s, key) && KeysBelow(s, key, bound)
  }

  /** The ids of the stored categories, the targets of category_id. */
  function CategoryIds(cats: seq<Category>): set<Id>
  {
    set c | c in cats :: c.id
  }

  ghost predicate UsersOk(users: seq<User>, next: nat)
  {
    Table(users, UserKey, next) && UniqueBy(users, UsernameKey) && UniqueBy(users, EmailKey) &&
    forall u :: u in users ==> u.verificationToken.Some? ==> u.verificationTokenExpiry.Some?
  }

  ghost predicate CategoriesOk(cats: seq<Category>, next: nat)
  {
    Table(cats, CategoryKey, next) && UniqueBy(cats, CategoryNameKey)
  }

  ghost predicate TransactionsOk(txs: seq<Transaction>, cats: seq<Category>, next: nat)
  {
    Table(txs, TransactionKey, next) &&
    forall t :: t in txs ==> ValidDateTime(t.transactionDate) && t.categoryId in CategoryIds(cats)
  }

  ghost predicate BudgetsOk(budgets: seq<Budget>, cats: seq<Category>, next: nat)
  {
    Table(budgets, BudgetKey, next) && UniqueBy(budgets, BudgetMonthKey) &&
    forall b :: b in budgets ==>
      ValidDate(b.budgetMonth) && b.budgetAmount > 0 && b.categoryId in CategoryIds(cats)
  }

  ghost predicate RulesOk(rules: seq<RecurringRule>, cats: seq<Category>, next: nat)
  {
    Table(rules, RuleKey, next) && UniqueBy(rules, RuleNameKey) &&
    forall r :: r in rules ==>
      ValidDate(r.startDate) && ValidDate(r.nextExecutionDate) &&
      (r.endDate.Some? ==> ValidDate(r.endDate.value)) && r.categoryId in CategoryIds(cats)
  }

  ghost predicate TemplatesOk(templates: seq<Template>, cats: seq<Category>, next: nat)
  {
    Table(templates, TemplateKey, next) && UniqueBy(templates, TemplateNameKey) &&
    forall t :: t in templates ==> t.categoryId in CategoryIds(cats)
  }

  ghost predicate NotificationsOk(notifications: seq<Notification>, next: nat)
  {
    Table(notifications, NotificationKey, next)
  }

  ghost predicate RefreshTokensOk(tokens: seq<RefreshToken>, next: nat)
  {
    Table(tokens, RefreshTokenKey, next) && UniqueBy(tokens, TokenKey)
  }

  ghost predicate CountriesOk(countries: seq<Country>, next: nat)
  {
    Table(countries, CountryKey, next)
  }

  class Db {
    var users: seq<User>
    var categories: seq<Category>
    var transactions: seq<Transaction>
    var budgets: seq<Budget>
    var rules: seq<RecurringRule>
    var templates: seq<Template>
    var notifications: seq<Notification>
    var refreshTokens: seq<RefreshToken>
    var countries: seq<Country>
    var nextId: nat

    ghost predicate Valid()
      reads this
    {
      UsersOk(users, nextId) && CategoriesOk(categories, nextId) &&
      TransactionsOk(transactions, categories, nextId) &&
      BudgetsOk(budgets, categories, nextId) && RulesOk(rules, categories, nextId) &&
      TemplatesOk(templates, categories, nextId) && NotificationsOk(notifications, nextId) &&
      RefreshTokensOk(refreshTokens, nextId) && CountriesOk(countries, nextId)
    }

    /** An empty schema. */
    constructor ()
      ensures Valid()
      ensures users == [] && categories == [] && transactions == [] && budgets == []
      ensures rules == [] && templates == [] && notifications == [] && refreshTokens == []
      ensures countries == [] && nextId == 0
    {
      users, categories, transactions, budgets := [], [], [], [];
      rules, templates, notifications, refreshTokens := [], [], [], [];
      countries, nextId := [], 0;
    }

    /** The UUID generator: an id that no stored row has and that is never
        handed out again. */
    method FreshId() returns (id: Id)
      requires Valid()
      modifies this`nextId
      ensures Valid() && id == old(nextId) && nextId == id + 1
    {
      id := nextId;
      nextId := nextId + 1;
    }
  }

  // ---------------------------------------------------------------------
  // How the category ids move when the categories table changes
  // ---------------------------------------------------------------------

  lemma CategoryIdsAppend(cats: seq<Category>, c: Category)
    ensures CategoryIds(cats + [c]) == CategoryIds(cats) + {c.id}
  {
    assert c in cats + [c];
    forall id | id in CategoryIds(cats)
      ensures id in CategoryIds(cats + [c])
    {
      var x :| x in cats && x.id == id;
      assert x in cats + [c];
    }
  }

  lemma CategoryIdsMember(cats: seq<Category>, c: Category)
    requires c in cats
    ensures c.id in CategoryIds(cats)
  {
  }

  lemma CategoryIdsReplace(cats: seq<Category>, c: Category)
    requires c.id in CategoryIds(cats)
    ensures CategoryIds(ReplaceBy(cats, CategoryKey, c)) == CategoryIds(cats)
  {
    var r := ReplaceBy(cats, CategoryKey, c);
    forall id | id in CategoryIds(cats)
      ensures id in CategoryIds(r)
    {
      var i :| 0 <= i < |cats| && cats[i].id == id;
      assert r[i] in r && r[i].id == id;
    }
  }

  lemma CategoryIdsRemove(cats: seq<Category>, k: Id)
    ensures CategoryIds(RemoveBy(cats, CategoryKey, k)) == CategoryIds(cats) - {k}
  {
    var r := RemoveBy(cats, CategoryKey, k);
    forall id | id in CategoryIds(cats) - {k}
      ensures id in CategoryIds(r)
    {
      var x :| x in cats && x.id == id;
      assert x in r;
    }
  }

  // ---------------------------------------------------------------------
  // Lookups shared by the services
  // ---------------------------------------------------------------------

  /** An id as it appears in a message (UUID.toString in the source). */
  function IdText(id: Id): string
  {
    ToDecimal(id)
  }

  /** The message of SecurityUtils.getCurrentUser. */
  function SecurityUserMissing(username: string): string
  {
    "Authenticated user '" + username + "' not found in the database."
  }

  /** The message of the services' private getCurrentUser. */
  const UserMissing: string := "Authenticated user not found"

  /** userRepository.findByUsername(name).orElseThrow(ResourceNotFound). */
  function CurrentUser(users: seq<User>, username: string, missing: string): (r: Result<User>)
    ensures r.Ok? ==> r.value in users && r.value.username == username
    ensures r.Err? <==> forall u :: u in users ==> u.username != username
    ensures r.Err? ==> r.error == ResourceNotFound(missing)
  {
    match FindBy(users, UsernameKey, username)
    case None => Err(ResourceNotFound(missing))
    case Some(u) => Ok(u)
  }

  /**
   * repository.findById(id).orElseThrow(ResourceNotFound(notFound)),
   * then AccessDenied(denied) unless the row belongs to the user.
   */
  function FindOwned<T>(rows: seq<T>, key: T -> Id, owner: T -> Id, id: Id, user: Id,
                        notFound: string, denied: string): (r: Result<T>)
    ensures r.Ok? ==> r.value in rows && key(r.value) == id && owner(r.value) == user
    ensures r == Err(ResourceNotFound(notFound)) <==> forall x :: x in rows ==> key(x) != id
    ensures r.Err? ==> r == Err(ResourceNotFound(notFound)) || r == Err(AccessDenied(denied))
    ensures r == Err(AccessDenied(denied)) ==>
      exists x :: x in rows && key(x) == id && owner(x) != user
    ensures UniqueBy(rows, key) ==>
      (r.Ok? <==> exists x :: x in rows && key(x) == id && owner(x) == user)
  {
    match FindBy(rows, key, id)
    case None => Err(ResourceNotFound(notFound))
    case Some(x) => if owner(x) == user then Ok(x) else Err(AccessDenied(denied))
  }

  function CategoryOwner(c: Category): Id { c.userId }
  function TransactionOwner(t: Transaction): Id { t.userId }
  function BudgetOwner(b: Budget): Id { b.userId }
  function RuleOwner(r: RecurringRule): Id { r.userId }
  function TemplateOwner(t: Template): Id { t.userId }
  function NotificationOwner(n: Notification): Id { n.userId }
}
