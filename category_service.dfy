// CategoryServiceImp: create, list, read, update and delete the current
// user's categories. Every access by id goes through the ownership check;
// deleting is refused while a transaction still uses the category. The
// unique constraint on (user, name) and the foreign keys that budgets,
// templates and recurring rules hold on the category are the database's.

module CategoryService {
  import opened Common
  import opened Entities
  import opened Database
  import opened Validation
  import opened TransactionQueries

  function CategoryNotFound(id: Id): string
  {
    "Category not found with id: " + IdText(id)
  }

  const CategoryDenied: string := "You do not have permission to access this category"

  /** CategoryType.valueOf(type.toUpperCase()), which cannot fail on a value
      that passed @ValidCategoryType. */
  function ResolveCategoryType(s: string): (t: CategoryType)
    requires CategoryTypeValid(Some(s))
    ensures CategoryTypeName(t) == ToUpper(s)
  {
    AcceptedTypesResolve(Some(s));
    CategoryTypeValueOf(ToUpper(s)).value
  }

  /** Category.builder() in createCategory: the request's fields, the
      current user and the creation time. An explicit null color is stored
      as null, the @Builder.Default being overridden. */
  function BuildCategory(id: Id, owner: Id, req: CategoryRequest, now: int): (c: Category)
    requires ValidCategoryRequest(req)
    ensures c.id == id && c.userId == owner && c.createdAt == now
    ensures c.name == req.name.value && c.description == req.description && c.color == req.color
    ensures CategoryTypeName(c.categoryType) == ToUpper(req.categoryType.value)
  {
    Category(id, owner, req.name.value, req.description, ResolveCategoryType(req.categoryType.value),
             req.color, now)
  }

  /** The four setters of updateCategory; id, owner and creation time stay. */
  function ApplyCategoryUpdate(c: Category, req: CategoryRequest): (u: Category)
    requires ValidCategoryRequest(req)
    ensures u == BuildCategory(c.id, c.userId, req, c.createdAt)
  {
    c.(name := req.name.value, description := req.description,
       categoryType := ResolveCategoryType(req.categoryType.value), color := req.color)
  }

  /** findCategoryAndVerifyOwnership. */
  function FindCategoryOwned(users: seq<User>, cats: seq<Category>, username: string, id: Id)
    : (r: Result<Category>)
    ensures r.Ok? ==> (r.value in cats && r.value.id == id &&
      exists u :: u in users && u.username == username && r.value.userId == u.id)
    ensures r.Err? ==> r.error in {ResourceNotFound(SecurityUserMissing(username)),
                                   ResourceNotFound(CategoryNotFound(id)), AccessDenied(CategoryDenied)}
    ensures (forall u :: u in users ==> u.username != username) ==>
      r == Err(ResourceNotFound(SecurityUserMissing(username)))
    ensures (exists u :: u in users && u.username == username) && (forall c :: c in cats ==> c.id != id) ==>
      r == Err(ResourceNotFound(CategoryNotFound(id)))
  {
    match CurrentUser(users, username, SecurityUserMissing(username))
    case Err(e) => Err(e)
    case Ok(u) => FindOwned(cats, CategoryKey, CategoryOwner, id, u.id, CategoryNotFound(id), CategoryDenied)
  }

  /** With unique keys, the check passes exactly on the user's own row. */
  lemma FindCategoryOwnedExact(users: seq<User>, cats: seq<Category>, username: string, id: Id, u: User)
    requires UniqueBy(users, UsernameKey) && UniqueBy(cats, CategoryKey)
    requires u in users && u.username == username
    ensures FindCategoryOwned(users, cats, username, id).Ok? <==>
            exists c :: c in cats && c.id == id && c.userId == u.id
    ensures (exists c :: c in cats && c.id == id && c.userId != u.id) ==>
            FindCategoryOwned(users, cats, username, id) == Err(AccessDenied(CategoryDenied))
  {
    FindByUnique(users, UsernameKey, u);
    if c :| c in cats && c.id == id {
      FindByUnique(cats, CategoryKey, c);
    }
  }

  /** ORDER BY createdAt DESC. */
  predicate NewerFirst(a: Category, b: Category)
  {
    a.createdAt >= b.createdAt
  }

  function OwnedBy(user: Id): Category -> bool
  {
    (c: Category) => c.userId == user
  }

  /** findByUserOrderByCreatedAtDesc. */
  function CategoriesOfUser(cats: seq<Category>, user: Id): (r: seq<Category>)
    ensures SortedBy(r, NewerFirst)
    ensures multiset(r) == multiset(Filter(cats, OwnedBy(user)))
    ensures forall c :: c in r <==> c in cats && c.userId == user
  {
    SortRows(Filter(cats, OwnedBy(user)), NewerFirst)
  }

  /** getAllUserCategories. */
  function GetAllUserCategories(users: seq<User>, cats: seq<Category>, username: string)
    : (r: Result<seq<Category>>)
    ensures r.Err? <==> forall u :: u in users ==> u.username != username
    ensures r.Ok? ==> exists u :: u in users && u.username == username && r.value == CategoriesOfUser(cats, u.id)
  {
    match CurrentUser(users, username, SecurityUserMissing(username))
    case Err(e) => Err(e)
    case Ok(u) => Ok(CategoriesOfUser(cats, u.id))
  }

  /** The database refuses a category name longer than its column and a
      name its owner already uses. */
  predicate NameRefused(cats: seq<Category>, owner: Id, name: string)
  {
    |name| > CategoryNameWidth || Taken(cats, CategoryNameKey, (owner, name))
  }

  /** createCategory. */
  method CreateCategory(db: Db, username: string, req: CategoryRequest, now: int) returns (r: Result<Category>)
    requires db.Valid() && ValidCategoryRequest(req)
    modifies db`categories, db`nextId
    ensures db.Valid()
    ensures match CurrentUser(db.users, username, SecurityUserMissing(username))
      case Err(e) => r == Err(e) && db.categories == old(db.categories)
      case Ok(u) =>
        if NameRefused(old(db.categories), u.id, req.name.value) then
          r == Err(DataIntegrityViolation) && db.categories == old(db.categories)
        else
          var c := BuildCategory(old(db.nextId), u.id, req, now);
          r == Ok(c) && db.categories == old(db.categories) + [c]
  {
    var cu := CurrentUser(db.users, username, SecurityUserMissing(username));
    if cu.Err? {
      return Err(cu.error);
    }
    var u := cu.value;
    if NameRefused(db.categories, u.id, req.name.value) {
      return Err(DataIntegrityViolation);
    }
    var id := db.FreshId();
    var c := BuildCategory(id, u.id, req, now);
    UniqueAppend(db.categories, CategoryKey, c);
    UniqueAppend(db.categories, CategoryNameKey, c);
    CategoryIdsAppend(db.categories, c);
    db.categories := db.categories + [c];
    r := Ok(c);
  }

  /** updateCategory, refused by the database like createCategory. */
  method UpdateCategory(db: Db, username: string, id: Id, req: CategoryRequest) returns (r: Result<Category>)
    requires db.Valid() && ValidCategoryRequest(req)
    modifies db`categories
    ensures db.Valid()
    ensures match FindCategoryOwned(db.users, old(db.categories), username, id)
      case Err(e) => r == Err(e) && db.categories == old(db.categories)
      case Ok(c) =>
        var n := ApplyCategoryUpdate(c, req);
        if |n.name| > CategoryNameWidth || TakenByOther(old(db.categories), CategoryKey, CategoryNameKey, n) then
          r == Err(DataIntegrityViolation) && db.categories == old(db.categories)
        else
          r == Ok(n) && db.categories == ReplaceBy(old(db.categories), CategoryKey, n)
  {
    var found := FindCategoryOwned(db.users, db.categories, username, id);
    if found.Err? {
      return Err(found.error);
    }
    var n := ApplyCategoryUpdate(found.value, req);
    if |n.name| > CategoryNameWidth || TakenByOther(db.categories, CategoryKey, CategoryNameKey, n) {
      return Err(DataIntegrityViolation);
    }
    UniqueReplace(db.categories, CategoryKey, CategoryNameKey, n);
    CategoryIdsReplace(db.categories, n);
    db.categories := ReplaceBy(db.categories, CategoryKey, n);
    r := Ok(n);
  }

  /** A budget, template or recurring rule still points at the category:
      the foreign keys refuse the delete. */
  predicate CategoryReferenced(budgets: seq<Budget>, templates: seq<Template>, rules: seq<RecurringRule>, id: Id)
  {
    (exists b :: b in budgets && b.categoryId == id) ||
    (exists t :: t in templates && t.categoryId == id) ||
    (exists x :: x in rules && x.categoryId == id)
  }

  const CategoryInUse: string := "Cannot delete category with existing transactions."

  /** deleteCategory. */
  method DeleteCategory(db: Db, username: string, id: Id) returns (r: Result<()>)
    requires db.Valid()
    modifies db`categories
    ensures db.Valid()
    ensures r.Err? ==> db.categories == old(db.categories)
    ensures FindCategoryOwned(db.users, old(db.categories), username, id).Err? ==>
      r == Err(FindCategoryOwned(db.users, old(db.categories), username, id).error)
    ensures FindCategoryOwned(db.users, old(db.categories), username, id).Ok? ==>
      if ExistsByCategory(db.transactions, id) then r == Err(IllegalState(CategoryInUse))
      else if CategoryReferenced(db.budgets, db.templates, db.rules, id) then r == Err(DataIntegrityViolation)
      else r == Ok(()) && db.categories == RemoveBy(old(db.categories), CategoryKey, id)
  {
    var found := FindCategoryOwned(db.users, db.categories, username, id);
    if found.Err? {
      return Err(found.error);
    }
    if ExistsByCategory(db.transactions, id) {
      return Err(IllegalState(CategoryInUse));
    }
    if CategoryReferenced(db.budgets, db.templates, db.rules, id) {
      return Err(DataIntegrityViolation);
    }
    CategoryIdsRemove(db.categories, id);
    db.categories := RemoveBy(db.categories, CategoryKey, id);
    r := Ok(());
  }
}
