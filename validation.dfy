// Request validation: the date-format whitelist and its validator, the
// case-insensitive enum validators for category and schedule types, the
// YYYY-MM budget-month pattern with its parse/format round trip, the
// hex-colour pattern, and the Bean Validation constraints of the budget and
// category request bodies as lists of field errors.

module Validation {
  import opened Common
  import opened Digits
  import opened Calendar
  import opened Entities
  import opened Money

  // ---------------------------------------------------------------------
  // DateFormat.isValidPattern and DateFormatValidator
  // ---------------------------------------------------------------------

  /** The patterns of the DateFormat constants, in declaration order. */
  const DatePatterns: seq<string> :=
    ["yyyy-MM-dd", "dd/MM/yyyy", "MM/dd/yyyy", "dd-MMM-yyyy", "MMM-dd-yyyy", "dd/MM/yy", "MM/dd/yy"]

  /** Stream.anyMatch(pattern -> pattern.equals(value)). */
  function AnyMatch(patterns: seq<string>, value: string): (found: bool)
    ensures found <==> exists i :: 0 <= i < |patterns| && patterns[i] == value
  {
    if patterns == [] then false
    else patterns[0] == value || AnyMatch(patterns[1..], value)
  }

  /** DateFormat.isValidPattern: null and blank are rejected, anything else
      must equal one of the patterns exactly. */
  function IsValidPattern(value: Option<string>): (ok: bool)
    ensures IsNullOrBlank(value) ==> !ok
    ensures !IsNullOrBlank(value) ==> (ok <==> value.value in DatePatterns)
  {
    if IsNullOrBlank(value) then false else AnyMatch(DatePatterns, value.value)
  }

  /** DateFormatValidator.isValid: null and blank pass, anything else is
      delegated to isValidPattern. */
  function DateFormatValid(value: Option<string>): (ok: bool)
    ensures IsNullOrBlank(value) ==> ok
    ensures !IsNullOrBlank(value) ==> (ok <==> value.value in DatePatterns)
  {
    if IsNullOrBlank(value) then true else IsValidPattern(value)
  }

  /** The validator and isValidPattern disagree on exactly the null and
      blank values. */
  lemma DateFormatValidatorDisagreement(value: Option<string>)
    ensures DateFormatValid(value) != IsValidPattern(value) <==> IsNullOrBlank(value)
  {
  }

  /** The match is exact: no case folding and no trimming. */
  lemma DatePatternExact()
    ensures !IsValidPattern(Some("YYYY-MM-DD"))
    ensures !IsValidPattern(Some(" yyyy-MM-dd"))
    ensures IsValidPattern(Some(DefaultDateFormat))
  {
    assert " yyyy-MM-dd"[0] == ' ';
  }

  // ---------------------------------------------------------------------
  // Enum lookups and the two enum validators
  // ---------------------------------------------------------------------

  /** Enum.name() of a category type. */
  function CategoryTypeName(t: CategoryType): string
  {
    match t
    case INCOME => "INCOME"
    case EXPENSE => "EXPENSE"
  }

  /** CategoryType.valueOf: the constant whose name is s, exactly. */
  function CategoryTypeValueOf(s: string): (r: Option<CategoryType>)
    ensures r.Some? <==> s == "INCOME" || s == "EXPENSE"
    ensures r.Some? ==> CategoryTypeName(r.value) == s
  {
    if s == "INCOME" then Some(INCOME) else if s == "EXPENSE" then Some(EXPENSE) else None
  }

  /** CategoryTypeValidator.isValid. */
  function CategoryTypeValid(value: Option<string>): (ok: bool)
    ensures ok <==> value.Some? && !IsBlank(value.value) &&
                    (ToUpper(value.value) == "INCOME" || ToUpper(value.value) == "EXPENSE")
  {
    if IsNullOrBlank(value) then false else CategoryTypeValueOf(ToUpper(value.value)).Some?
  }

  /** Enum.name() of a schedule type. */
  function ScheduleTypeName(t: ScheduleType): string
  {
    match t
    case DAILY => "DAILY"
    case WEEKLY => "WEEKLY"
    case MONTHLY => "MONTHLY"
    case YEARLY => "YEARLY"
  }

  /** ScheduleType.valueOf. */
  function ScheduleTypeValueOf(s: string): (r: Option<ScheduleType>)
    ensures r.Some? <==> s in ["DAILY", "WEEKLY", "MONTHLY", "YEARLY"]
    ensures r.Some? ==> ScheduleTypeName(r.value) == s
  {
    if s == "DAILY" then Some(DAILY)
    else if s == "WEEKLY" then Some(WEEKLY)
    else if s == "MONTHLY" then Some(MONTHLY)
    else if s == "YEARLY" then Some(YEARLY)
    else None
  }

  /** ScheduleTypeValidator.isValid. */
  function ScheduleTypeValid(value: Option<string>): (ok: bool)
    ensures ok <==> value.Some? && !IsBlank(value.value) &&
                    ToUpper(value.value) in ["DAILY", "WEEKLY", "MONTHLY", "YEARLY"]
  {
    if IsNullOrBlank(value) then false else ScheduleTypeValueOf(ToUpper(value.value)).Some?
  }

  /** Whatever the validators accept, the services' valueOf(toUpperCase())
      resolves, so the lookup in the service never throws. */
  lemma AcceptedTypesResolve(value: Option<string>)
    ensures CategoryTypeValid(value) ==> CategoryTypeValueOf(ToUpper(value.value)).Some?
    ensures ScheduleTypeValid(value) ==> ScheduleTypeValueOf(ToUpper(value.value)).Some?
  {
  }

  /** Every constant's own name is accepted, in any letter case. */
  lemma EnumNamesAccepted()
    ensures CategoryTypeValid(Some("income")) && CategoryTypeValid(Some("Expense"))
    ensures ScheduleTypeValid(Some("monthly")) && ScheduleTypeValid(Some("Daily"))
  {
    UpperIncome();
    UpperExpense();
    UpperMonthly();
    UpperDaily();
  }

  lemma UpperIncome() ensures ToUpper("income") == "INCOME" && !IsBlank("income")
  {
    var a := "income";
    assert a[0] == 'i' && a[1] == 'n' && a[2] == 'c' && a[3] == 'o' && a[4] == 'm' && a[5] == 'e';
    UpperAscii(a, "INCOME");
  }

  lemma UpperExpense() ensures ToUpper("Expense") == "EXPENSE" && !IsBlank("Expense")
  {
    var b := "Expense";
    assert b[0] == 'E' && b[1] == 'x' && b[2] == 'p' && b[3] == 'e' && b[4] == 'n' && b[5] == 's' && b[6] == 'e';
    UpperAscii(b, "EXPENSE");
  }

  lemma UpperMonthly() ensures ToUpper("monthly") == "MONTHLY" && !IsBlank("monthly")
  {
    var c := "monthly";
    assert c[0] == 'm' && c[1] == 'o' && c[2] == 'n' && c[3] == 't' && c[4] == 'h' && c[5] == 'l' && c[6] == 'y';
    UpperAscii(c, "MONTHLY");
  }

  lemma UpperDaily() ensures ToUpper("Daily") == "DAILY" && !IsBlank("Daily")
  {
    var d := "Daily";
    assert d[0] == 'D' && d[1] == 'a' && d[2] == 'i' && d[3] == 'l' && d[4] == 'y';
    UpperAscii(d, "DAILY");
  }

  /** Upper-casing an ASCII word letter by letter; a word with a letter is
      not blank. */
  lemma UpperAscii(s: string, u: string)
    requires |s| == |u| > 0
    requires forall i :: 0 <= i < |s| ==> ('a' <= s[i] <= 'z' && u[i] as int == s[i] as int - 32) || ('A' <= s[i] <= 'Z' && u[i] == s[i])
    ensures ToUpper(s) == u && !IsBlank(s)
  {
    assert !IsJavaWhitespace(s[0]);
  }

  /** Upper-casing maps whitespace to itself, and no name contains
      whitespace: a value with any whitespace in it (" INCOME") is rejected
      by both validators. */
  lemma {:induction false} WhitespaceRejected(s: string, i: nat)
    requires i < |s| && IsJavaWhitespace(s[i])
    ensures !CategoryTypeValid(Some(s)) && !ScheduleTypeValid(Some(s))
  {
    var u := ToUpper(s);
    assert u[i] == s[i];
    assert !CapitalsOnly(u);
    KeywordsAreCapitals();
  }

  /** Every character is an ASCII capital. */
  predicate CapitalsOnly(w: string)
  {
    forall k :: 0 <= k < |w| ==> 'A' <= w[k] <= 'Z'
  }

  lemma KeywordsAreCapitals()
    ensures CapitalsOnly("INCOME") && CapitalsOnly("EXPENSE") && CapitalsOnly("DAILY")
    ensures CapitalsOnly("WEEKLY") && CapitalsOnly("MONTHLY") && CapitalsOnly("YEARLY")
  {
  }

  // ---------------------------------------------------------------------
  // budgetMonth: ^\d{4}-(0[1-9]|1[0-2])$, YearMonth.parse and toString
  // ---------------------------------------------------------------------

  /** The @Pattern on BudgetRequest.budgetMonth (\d is ASCII-only). */
  predicate MatchesBudgetMonth(s: string)
  {
    |s| == 7 && AllDigits(s[..4]) && s[4] == '-' &&
    ((s[5] == '0' && '1' <= s[6] <= '9') || (s[5] == '1' && '0' <= s[6] <= '2'))
  }

  /** Four digits, a hyphen and a two-digit month 01-12, nothing else. */
  lemma BudgetMonthPatternMeaning(s: string)
    ensures MatchesBudgetMonth(s) <==>
      |s| == 7 && AllDigits(s[..4]) && s[4] == '-' && AllDigits(s[5..]) && 1 <= ValueOf(s[5..]) <= 12
  {
    if |s| == 7 && AllDigits(s[5..]) {
      var m := s[5..];
      assert m[..1] == [s[5]];
      assert ValueOf(m) == DigitValue(s[5]) * 10 + DigitValue(s[6]);
    }
  }

  /** Values the pattern refuses. */
  lemma BudgetMonthRejections()
    ensures !MatchesBudgetMonth("2025-1") && !MatchesBudgetMonth("2025-00")
    ensures !MatchesBudgetMonth("2025-13") && !MatchesBudgetMonth("25-01")
    ensures !MatchesBudgetMonth("")
  {
  }

  /** YearMonth.parse of a string the pattern accepted. */
  function ParseBudgetMonth(s: string): (ym: YearMonth)
    requires MatchesBudgetMonth(s)
    ensures ValidYearMonth(ym) && 0 <= ym.year <= 9999
  {
    BudgetMonthPatternMeaning(s);
    YearMonth(ValueOf(s[..4]), ValueOf(s[5..]))
  }

  /** YearMonth.toString for a four-digit year: yyyy-MM. */
  function FormatYearMonth(ym: YearMonth): string
    requires ValidYearMonth(ym) && 0 <= ym.year <= 9999
  {
    PadDigits(ym.year, 4) + "-" + PadDigits(ym.month, 2)
  }

  /** An accepted month string comes back unchanged from parse and format. */
  lemma BudgetMonthRoundTrip(s: string)
    requires MatchesBudgetMonth(s)
    ensures FormatYearMonth(ParseBudgetMonth(s)) == s
  {
    BudgetMonthPatternMeaning(s);
    PadDigitsOfValue(s[..4]);
    PadDigitsOfValue(s[5..]);
    assert s == s[..4] + "-" + s[5..];
  }

  /** Every month of a four-digit year is written in the accepted form and
      parses back to itself. */
  lemma YearMonthRoundTrip(ym: YearMonth)
    requires ValidYearMonth(ym) && 0 <= ym.year <= 9999
    ensures MatchesBudgetMonth(FormatYearMonth(ym))
    ensures ParseBudgetMonth(FormatYearMonth(ym)) == ym
  {
    var s := FormatYearMonth(ym);
    assert s[..4] == PadDigits(ym.year, 4);
    assert s[5..] == PadDigits(ym.month, 2);
    BudgetMonthPatternMeaning(s);
  }

  // ---------------------------------------------------------------------
  // color: ^#([a-fA-F0-9]{6}|[a-fA-F0-9]{3})$
  // ---------------------------------------------------------------------

  predicate IsHexDigit(c: char)
  {
    '0' <= c <= '9' || 'a' <= c <= 'f' || 'A' <= c <= 'F'
  }

  /** The @Pattern on CategoryRequest.color. */
  predicate MatchesColor(s: string)
  {
    (|s| == 7 || |s| == 4) && s[0] == '#' && forall i :: 1 <= i < |s| ==> IsHexDigit(s[i])
  }

  lemma ColorExamples()
    ensures MatchesColor("#1a2B3c") && MatchesColor("#fff") && MatchesColor(DefaultColor)
    ensures !MatchesColor("#abcd") && !MatchesColor("#12345G") && !MatchesColor("123456")
  {
    assert !IsHexDigit("#12345G"[6]);
  }

  // ---------------------------------------------------------------------
  // Request bodies and their constraint violations
  // ---------------------------------------------------------------------

  /** One violated constraint: the field and its message. */
  datatype FieldError = FieldError(field: string, message: string)

  /** BudgetRequest, every field nullable as in the JSON body. */
  datatype BudgetRequest = BudgetRequest(
    categoryId: Option<Id>,
    budgetMonth: Option<string>,
    budgetAmount: Option<int>,
    autoRenew: Option<bool>)

  /** The violations of BudgetRequest's annotations. @Pattern lets null
      through. Bean Validation reports its violations as a set with no
      order; the model lists them field by field in declaration order, so
      for a blank month, which of its two messages a map keyed by field
      keeps is this model's choice, not the source's. */
  function BudgetRequestErrors(r: BudgetRequest): (errs: seq<FieldError>)
    ensures errs == [] <==>
      r.categoryId.Some? && r.budgetMonth.Some? && !IsBlank(r.budgetMonth.value) &&
      MatchesBudgetMonth(r.budgetMonth.value) && r.budgetAmount.Some? &&
      r.budgetAmount.value >= MinAmount && r.autoRenew.Some?
  {
    (if r.categoryId.None? then [FieldError("categoryId", "Category ID is required")] else []) +
    (if IsNullOrBlank(r.budgetMonth) then [FieldError("budgetMonth", "Budget month is required")] else []) +
    (if r.budgetMonth.Some? && !MatchesBudgetMonth(r.budgetMonth.value)
     then [FieldError("budgetMonth", "Budget month must be in YYYY-MM format")] else []) +
    (if r.budgetAmount.None? then [FieldError("budgetAmount", "Budget amount is required")]
     else if r.budgetAmount.value < MinAmount then [FieldError("budgetAmount", "Budget amount must be positive")]
     else []) +
    (if r.autoRenew.None? then [FieldError("autoRenew", "Auto-renew status is required")] else [])
  }

  /** A month that passes the pattern is never blank, so the pattern alone
      decides the budgetMonth field. */
  lemma MatchingMonthNotBlank(s: string)
    requires MatchesBudgetMonth(s)
    ensures !IsBlank(s)
  {
    assert !IsJavaWhitespace(s[4]);
  }

  predicate ValidBudgetRequest(r: BudgetRequest)
  {
    BudgetRequestErrors(r) == []
  }

  /** CategoryRequest. */
  datatype CategoryRequest = CategoryRequest(
    name: Option<string>,
    description: Option<string>,
    categoryType: Option<string>,
    color: Option<string>)

  /** The violations of CategoryRequest's annotations; description carries
      none and a null color passes. */
  function CategoryRequestErrors(r: CategoryRequest): (errs: seq<FieldError>)
    ensures errs == [] <==>
      r.name.Some? && !IsBlank(r.name.value) && CategoryTypeValid(r.categoryType) &&
      (r.color.None? || MatchesColor(r.color.value))
  {
    (if IsNullOrBlank(r.name) then [FieldError("name", "Category name is required")] else []) +
    (if r.categoryType.None? then [FieldError("categoryType", "Category type is required")] else []) +
    (if !CategoryTypeValid(r.categoryType)
     then [FieldError("categoryType", "Invalid category type. Must be 'INCOME' or 'EXPENSE'.")] else []) +
    (if r.color.Some? && !MatchesColor(r.color.value)
     then [FieldError("color", "Color must be a valid hex code (e.g., #RRGGBB)")] else [])
  }

  predicate ValidCategoryRequest(r: CategoryRequest)
  {
    CategoryRequestErrors(r) == []
  }
}
