// NotificationServiceImpl: list the current user's notifications newest
// first, mark one as read after the ownership check, and mark all of them
// as read through a repository method whose declaration is not part of
// this model (it is a parameter here).

module NotificationService {
  import opened Common
  import opened Entities
  import opened Database

  const NotificationMissing: string := "Notification not found"
  const NotificationDenied: string := "You do not have permission to access this notification"

  /** ORDER BY createdAt DESC. */
  predicate NotificationNewerFirst(a: Notification, b: Notification)
  {
    a.createdAt >= b.createdAt
  }

  function NotifiedUser(user: Id): Notification -> bool
  {
    (n: Notification) => n.userId == user
  }

  /** findByUserOrderByCreatedAtDesc. */
  function NotificationsOfUser(ns: seq<Notification>, user: Id): (r: seq<Notification>)
    ensures SortedBy(r, NotificationNewerFirst)
    ensures multiset(r) == multiset(Filter(ns, NotifiedUser(user)))
    ensures forall n :: n in r <==> n in ns && n.userId == user
  {
    SortRows(Filter(ns, NotifiedUser(user)), NotificationNewerFirst)
  }

  /** getMyNotifications. */
  function GetMyNotifications(users: seq<User>, ns: seq<Notification>, username: string)
    : (r: Result<seq<Notification>>)
    ensures r.Err? <==> forall u :: u in users ==> u.username != username
    ensures r.Ok? ==> exists u :: u in users && u.username == username && r.value == NotificationsOfUser(ns, u.id)
  {
    match CurrentUser(users, username, SecurityUserMissing(username))
    case Err(e) => Err(e)
    case Ok(u) => Ok(NotificationsOfUser(ns, u.id))
  }

  /** The lookup and ownership check of markNotificationAsRead. */
  function FindNotificationOwned(users: seq<User>, ns: seq<Notification>, username: string, id: Id)
    : (r: Result<Notification>)
    ensures r.Ok? ==> (r.value in ns && r.value.id == id &&
      exists u :: u in users && u.username == username && r.value.userId == u.id)
    ensures r.Err? ==> r.error in {ResourceNotFound(SecurityUserMissing(username)),
                                   ResourceNotFound(NotificationMissing), AccessDenied(NotificationDenied)}
    ensures (exists u :: u in users && u.username == username) && (forall n :: n in ns ==> n.id != id) ==>
      r == Err(ResourceNotFound(NotificationMissing))
  {
    match CurrentUser(users, username, SecurityUserMissing(username))
    case Err(e) => Err(e)
    case Ok(u) => FindOwned(ns, NotificationKey, NotificationOwner, id, u.id, NotificationMissing, NotificationDenied)
  }

  /** setRead(true). */
  function MarkRead(n: Notification): (m: Notification)
    ensures m.isRead && m.id == n.id && m.userId == n.userId && m.message == n.message
    ensures m.createdAt == n.createdAt
  {
    n.(isRead := true)
  }

  /** markNotificationAsRead: only that notification changes, and only its
      read flag. */
  method MarkNotificationAsRead(db: Db, username: string, id: Id) returns (r: Result<()>)
    requires db.Valid()
    modifies db`notifications
    ensures db.Valid()
    ensures match FindNotificationOwned(db.users, old(db.notifications), username, id)
      case Err(e) => r == Err(e) && db.notifications == old(db.notifications)
      case Ok(n) => r == Ok(()) && db.notifications == ReplaceBy(old(db.notifications), NotificationKey, MarkRead(n))
  {
    var found := FindNotificationOwned(db.users, db.notifications, username, id);
    if found.Err? {
      return Err(found.error);
    }
    var m := MarkRead(found.value);
    UniqueReplace(db.notifications, NotificationKey, NotificationKey, m);
    db.notifications := ReplaceBy(db.notifications, NotificationKey, m);
    r := Ok(());
  }

  /** Marking a notification read a second time changes nothing: the row is
      already the marked one. */
  lemma {:induction false} MarkReadIdempotent(ns: seq<Notification>, n: Notification)
    requires UniqueBy(ns, NotificationKey) && n in ns
    ensures var once := ReplaceBy(ns, NotificationKey, MarkRead(n));
      MarkRead(n) in once && ReplaceBy(once, NotificationKey, MarkRead(MarkRead(n))) == once
  {
    var once := ReplaceBy(ns, NotificationKey, MarkRead(n));
    var i :| 0 <= i < |ns| && ns[i] == n;
    assert once[i] == MarkRead(n);
    var twice := ReplaceBy(once, NotificationKey, MarkRead(MarkRead(n)));
    assert forall k :: 0 <= k < |once| ==> twice[k] == once[k];
  }

  /** markAllAsRead. markAllAsReadForUser is given as markAll, whatever it
      does to the table, provided it keeps the table's keys. */
  method MarkAllAsRead(db: Db, username: string, markAll: (seq<Notification>, Id) -> seq<Notification>)
    returns (r: Result<()>)
    requires db.Valid()
    requires forall user :: NotificationsOk(markAll(db.notifications, user), db.nextId)
    modifies db`notifications
    ensures db.Valid()
    ensures match CurrentUser(db.users, username, SecurityUserMissing(username))
      case Err(e) => r == Err(e) && db.notifications == old(db.notifications)
      case Ok(u) => r == Ok(()) && db.notifications == markAll(old(db.notifications), u.id)
  {
    var cu := CurrentUser(db.users, username, SecurityUserMissing(username));
    if cu.Err? {
      return Err(cu.error);
    }
    db.notifications := markAll(db.notifications, cu.value.id);
    r := Ok(());
  }
}
