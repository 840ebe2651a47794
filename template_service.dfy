// TransactionTemplateServiceImpl: named presets for transactions. Create
// and update first check that the category exists and is the user's; read,
// update and delete go through the ownership check. Template names are
// unique per user by the table's constraint, not by a service check.

module TemplateService {
  import opened Common
  import opened Entities
  import opened Database
  import opened Money

  /** TransactionTemplateRequest after Bean Validation: the name is
      non-blank, the optional amount is at least 0.01. */
  datatype TemplateRequest = TemplateRequest(
    name: string,
    amount: Option<int>,
    description: Option<string>,
    categoryId: Id)

  predicate ValidTemplateRequest(req: TemplateRequest)
  {
    !IsBlank(req.name) && (req.amount.Some? ==> req.amount.value >= MinAmount)
  }

  function TemplateNotFound(id: Id): string
  {
    "Template not found with id: " + IdText(id)
  }

  const TemplateDenied: string := "You do not have permission to access this template"
  const TemplateCategoryMissing: string := "Category not found"
  const TemplateCategoryDenied: string := "You do not have permission to use this category"

  /** findTemplateAndVerifyOwnership. */
  function FindTemplateOwned(users: seq<User>, templates: seq<Template>, username: string, id: Id)
    : (r: Result<Template>)
    ensures r.Ok? ==> (r.value in templates && r.value.id == id &&
      exists u :: u in users && u.username == username && r.value.userId == u.id)
    ensures r.Err? ==> r.error in {ResourceNotFound(SecurityUserMissing(username)),
                                   ResourceNotFound(TemplateNotFound(id)), AccessDenied(TemplateDenied)}
    ensures (exists u :: u in users && u.username == username) && (forall t :: t in templates ==> t.id != id) ==>
      r == Err(ResourceNotFound(TemplateNotFound(id)))
  {
    match CurrentUser(users, username, SecurityUserMissing(username))
    case Err(e) => Err(e)
    case Ok(u) => FindOwned(templates, TemplateKey, TemplateOwner, id, u.id, TemplateNotFound(id), TemplateDenied)
  }

  /** The category check of create and update. */
  function TemplateCategory(cats: seq<Category>, user: Id, categoryId: Id): (r: Result<Category>)
    ensures r.Ok? ==> r.value in cats && r.value.id == categoryId && r.value.userId == user
    ensures r.Err? ==> r.error in {ResourceNotFound(TemplateCategoryMissing), AccessDenied(TemplateCategoryDenied)}
  {
    FindOwned(cats, CategoryKey, CategoryOwner, categoryId, user, TemplateCategoryMissing, TemplateCategoryDenied)
  }

  /** The four setters of updateTemplate (the builder of createTemplate sets
      the same four); a null amount in the request clears the stored one. */
  function ApplyTemplate(t: Template, req: TemplateRequest): (n: Template)
    ensures n.id == t.id && n.userId == t.userId
    ensures n.name == req.name && n.amount == req.amount && n.description == req.description
    ensures n.categoryId == req.categoryId
  {
    t.(name := req.name, amount := req.amount, description := req.description, categoryId := req.categoryId)
  }

  /** ORDER BY name ASC. */
  predicate NameAsc(a: Template, b: Template)
  {
    LexLe(a.name, b.name)
  }

  lemma NameAscTotal()
    ensures TotalPreorder(NameAsc)
  {
    LexLeTotalPreorder();
  }

  function TemplateOwnedBy(user: Id): Template -> bool
  {
    (t: Template) => t.userId == user
  }

  /** findByUserOrderByNameAsc. */
  function TemplatesOfUser(templates: seq<Template>, user: Id): (r: seq<Template>)
    ensures SortedBy(r, NameAsc)
    ensures multiset(r) == multiset(Filter(templates, TemplateOwnedBy(user)))
    ensures forall t :: t in r <==> t in templates && t.userId == user
  {
    SortByName(Filter(templates, TemplateOwnedBy(user)))
  }

  function SortByName(s: seq<Template>): (r: seq<Template>)
    ensures SortedBy(r, NameAsc) && multiset(r) == multiset(s)
    ensures forall t :: t in r <==> t in s
  {
    NameAscTotal();
    SortRows(s, NameAsc)
  }

  /** getAllUserTemplates. */
  function GetAllUserTemplates(users: seq<User>, templates: seq<Template>, username: string)
    : (r: Result<seq<Template>>)
    ensures r.Err? <==> forall u :: u in users ==> u.username != username
    ensures r.Ok? ==> exists u :: u in users && u.username == username && r.value == TemplatesOfUser(templates, u.id)
  {
    match CurrentUser(users, username, SecurityUserMissing(username))
    case Err(e) => Err(e)
    case Ok(u) => Ok(TemplatesOfUser(templates, u.id))
  }

  /** createTemplate. A name longer than its column and a name the user
      already has are both refused by the database. */
  method CreateTemplate(db: Db, username: string, req: TemplateRequest) returns (r: Result<Template>)
    requires db.Valid() && ValidTemplateRequest(req)
    modifies db`templates, db`nextId
    ensures db.Valid()
    ensures r.Err? ==> db.templates == old(db.templates)
    ensures match CurrentUser(db.users, username, SecurityUserMissing(username))
      case Err(e) => r == Err(e)
      case Ok(u) =>
        match TemplateCategory(db.categories, u.id, req.categoryId)
        case Err(e) => r == Err(e)
        case Ok(_) =>
          var t := ApplyTemplate(Template(old(db.nextId), u.id, req.categoryId, req.name, None, None), req);
          if |req.name| > TemplateNameWidth || Taken(old(db.templates), TemplateNameKey, (u.id, req.name)) then
            r == Err(DataIntegrityViolation)
          else r == Ok(t) && db.templates == old(db.templates) + [t]
  {
    var cu := CurrentUser(db.users, username, SecurityUserMissing(username));
    if cu.Err? {
      return Err(cu.error);
    }
    var u := cu.value;
    var cat := TemplateCategory(db.categories, u.id, req.categoryId);
    if cat.Err? {
      return Err(cat.error);
    }
    if |req.name| > TemplateNameWidth || Taken(db.templates, TemplateNameKey, (u.id, req.name)) {
      return Err(DataIntegrityViolation);
    }
    var id := db.FreshId();
    var t := ApplyTemplate(Template(id, u.id, req.categoryId, req.name, None, None), req);
    UniqueAppend(db.templates, TemplateKey, t);
    UniqueAppend(db.templates, TemplateNameKey, t);
    db.templates := db.templates + [t];
    r := Ok(t);
  }

  /** updateTemplate: the ownership check comes before the category check. */
  method UpdateTemplate(db: Db, username: string, id: Id, req: TemplateRequest) returns (r: Result<Template>)
    requires db.Valid() && ValidTemplateRequest(req)
    modifies db`templates
    ensures db.Valid()
    ensures r.Err? ==> db.templates == old(db.templates)
    ensures match FindTemplateOwned(db.users, old(db.templates), username, id)
      case Err(e) => r == Err(e)
      case Ok(t) =>
        match TemplateCategory(db.categories, t.userId, req.categoryId)
        case Err(e) => r == Err(e)
        case Ok(_) =>
          var n := ApplyTemplate(t, req);
          if |n.name| > TemplateNameWidth || TakenByOther(old(db.templates), TemplateKey, TemplateNameKey, n) then
            r == Err(DataIntegrityViolation)
          else r == Ok(n) && db.templates == ReplaceBy(old(db.templates), TemplateKey, n)
  {
    var found := FindTemplateOwned(db.users, db.templates, username, id);
    if found.Err? {
      return Err(found.error);
    }
    var t := found.value;
    var cat := TemplateCategory(db.categories, t.userId, req.categoryId);
    if cat.Err? {
      return Err(cat.error);
    }
    var n := ApplyTemplate(t, req);
    if |n.name| > TemplateNameWidth || TakenByOther(db.templates, TemplateKey, TemplateNameKey, n) {
      return Err(DataIntegrityViolation);
    }
    UniqueReplace(db.templates, TemplateKey, TemplateNameKey, n);
    db.templates := ReplaceBy(db.templates, TemplateKey, n);
    r := Ok(n);
  }

  /** deleteTemplate. */
  method DeleteTemplate(db: Db, username: string, id: Id) returns (r: Result<()>)
    requires db.Valid()
    modifies db`templates
    ensures db.Valid()
    ensures match FindTemplateOwned(db.users, old(db.templates), username, id)
      case Err(e) => r == Err(e) && db.templates == old(db.templates)
      case Ok(_) => r == Ok(()) && db.templates == RemoveBy(old(db.templates), TemplateKey, id)
  {
    var found := FindTemplateOwned(db.users, db.templates, username, id);
    if found.Err? {
      return Err(found.error);
    }
    db.templates := RemoveBy(db.templates, TemplateKey, id);
    r := Ok(());
  }
}
