// The persistent entities of the API as values. A row refers to its owner
// and its category by id, as the foreign-key columns do. Timestamps the
// database fills in (createdAt) are set from the clock value the creating
// operation receives.

module Entities {
  import opened Common
  import opened Calendar

  /** CategoryType.java. */
  datatype CategoryType = INCOME | EXPENSE

  /** ScheduleType.java. */
  datatype ScheduleType = DAILY | WEEKLY | MONTHLY | YEARLY

  /**
   * users. The verification token and its expiry are written by the
   * account service (register, verifyAccount, resendVerificationToken);
   * the login timestamps and the audit columns are not modelled.
   */
  datatype User = User(
    id: Id,
    email: string,
    username: string,
    firstName: string,
    lastName: string,
    password: string,
    phoneNumber: string,
    dateFormat: Option<string>,
    isActive: bool,
    isDeleted: bool,
    refreshToken: Option<string>,
    verificationToken: Option<string>,
    verificationTokenExpiry: Option<DateTime>,
    countryId: nat)

  const DefaultDateFormat: string := "yyyy-MM-dd"

  /** User.builder() with the fields a registration supplies; every other
      field takes its @Builder.Default (or null). */
  function BuildUser(id: Id, email: string, username: string, firstName: string, lastName: string,
                     phoneNumber: string, countryId: nat): (u: User)
    ensures u.dateFormat == Some(DefaultDateFormat)
    ensures u.isActive && !u.isDeleted
    ensures u.refreshToken.None? && u.verificationToken.None? && u.verificationTokenExpiry.None?
    ensures u.id == id && u.email == email && u.username == username && u.countryId == countryId
  {
    User(id, email, username, firstName, lastName, "", phoneNumber, Some(DefaultDateFormat),
         true, false, None, None, None, countryId)
  }

  /** UserDetails.isEnabled. */
  predicate IsEnabled(u: User)
  {
    u.isActive && !u.isDeleted
  }

  /** UserDetails.isAccountNonExpired. */
  function IsAccountNonExpired(u: User): (b: bool)
    ensures b
  {
    true
  }

  /** UserDetails.isAccountNonLocked. */
  function IsAccountNonLocked(u: User): (b: bool)
    ensures b
  {
    true
  }

  /** UserDetails.isCredentialsNonExpired. */
  function IsCredentialsNonExpired(u: User): (b: bool)
    ensures b
  {
    true
  }

  /** UserDetails.getAuthorities: one role for every user. */
  function Authorities(u: User): (roles: seq<string>)
    ensures roles == ["ROLE_USER"]
  {
    ["ROLE_USER"]
  }

  /** A user can sign in exactly when activated and not soft-deleted; a
      freshly built user is enabled until registration deactivates it. */
  lemma EnabledIff(u: User)
    ensures IsEnabled(u) <==> u.isActive && !u.isDeleted
    ensures !u.isActive ==> !IsEnabled(u)
    ensures u.isDeleted ==> !IsEnabled(u)
  {
  }

  /** categories. */
  datatype Category = Category(
    id: Id,
    userId: Id,
    name: string,
    description: Option<string>,
    categoryType: CategoryType,
    color: Option<string>,
    createdAt: int)

  const DefaultColor: string := "#000000"

  /** The name column of categories, VARCHAR(50). The request checks no
      length, so a longer name reaches the database and is refused. */
  const CategoryNameWidth: nat := 50

  /** transactions. The category's type and name are reached through
      categoryId, as the queries' implicit joins do. */
  datatype Transaction = Transaction(
    id: Id,
    userId: Id,
    categoryId: Id,
    amount: int,
    description: Option<string>,
    transactionDate: DateTime,
    isCreatedAutomatically: bool,
    recurringTransactionId: Option<Id>)

  /** budgets; budgetMonth is the first day of the month. */
  datatype Budget = Budget(
    id: Id,
    userId: Id,
    categoryId: Id,
    budgetMonth: Date,
    budgetAmount: int,
    autoRenew: bool)

  /** recurring_transactions. */
  datatype RecurringRule = RecurringRule(
    id: Id,
    userId: Id,
    categoryId: Id,
    name: string,
    amount: int,
    description: Option<string>,
    startDate: Date,
    endDate: Option<Date>,
    nextExecutionDate: Date,
    isActive: bool,
    scheduleType: ScheduleType)

  /** The name column of recurring_transactions, VARCHAR(100). */
  const RuleNameWidth: nat := 100

  /** transaction_templates; the amount is optional. */
  datatype Template = Template(
    id: Id,
    userId: Id,
    categoryId: Id,
    name: string,
    amount: Option<int>,
    description: Option<string>)

  /** The name column of transaction_templates, VARCHAR(100). */
  const TemplateNameWidth: nat := 100

  /** notifications. */
  datatype Notification = Notification(
    id: Id,
    userId: Id,
    message: string,
    isRead: bool,
    createdAt: int)

  /** refresh_tokens; expiryDate is an Instant on the same scale as the
      clock value the operations receive. */
  datatype RefreshToken = RefreshToken(
    id: Id,
    token: string,
    expiryDate: int,
    userId: Id)

  /** countries, as the seeder fills them; the optional columns stay null
      when the country service's response lacks them. */
  datatype Country = Country(
    id: Id,
    name: string,
    alpha2Code: Option<string>,
    alpha3Code: Option<string>,
    flagUrl: Option<string>,
    callingCode: Option<string>,
    currencyCode: Option<string>,
    currencyName: Option<string>,
    currencySymbol: Option<string>)

  // Keys used by the generic table operations.
  function UserKey(u: User): Id { u.id }
  function CategoryKey(c: Category): Id { c.id }
  function TransactionKey(t: Transaction): Id { t.id }
  function BudgetKey(b: Budget): Id { b.id }
  function RuleKey(r: RecurringRule): Id { r.id }
  function TemplateKey(t: Template): Id { t.id }
  function NotificationKey(n: Notification): Id { n.id }
  function RefreshTokenKey(t: RefreshToken): Id { t.id }
  function CountryKey(c: Country): Id { c.id }
  function UsernameKey(u: User): string { u.username }
  function EmailKey(u: User): string { u.email }
  function TokenKey(t: RefreshToken): string { t.token }

  // The columns of the @UniqueConstraint declarations.
  function CategoryNameKey(c: Category): (Id, string) { (c.userId, c.name) }
  function BudgetMonthKey(b: Budget): (Id, Id, Date) { (b.userId, b.categoryId, b.budgetMonth) }
  function RuleNameKey(r: RecurringRule): (Id, string) { (r.userId, r.name) }
  function TemplateNameKey(t: Template): (Id, string) { (t.userId, t.name) }
}
