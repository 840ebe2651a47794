# budget-wise, modelled in Dafny

budget-wise is a personal-budgeting application: a Spring API that keeps users, categories, transactions, monthly budgets, transaction templates, recurring-transaction rules and notifications, and a React client that talks to it. This project models the logic at its core and proves what the code promises about it:

- **the scheduler** (`scheduler.dfy`): the daily job that turns due recurring rules into transactions and moves each rule on by one period, and the monthly job that renews auto-renewing budgets. It rests on a model of `java.time` (`calendar.dfy`), in which `plusMonths` and `plusYears` clamp to the end of the month;
- **the services** (`*_service.dfy`, `budget_alert.dfy`, `dashboard.dfy`): each operation looks up the authenticated user, checks ownership, applies its business rule, then updates specific fields. The database is a class holding one sequence of rows per table and a generator of fresh keys (`database.dfy`). An exception is the `Err` case of a `Result`;
- **exact money** (`money.dfy`): amounts are integers in ten-thousandths. The alert's spending ratio is a HALF_UP division to four places;
- **the repositories' queries** (`transaction_queries.dfy`, `budget_queries.dfy`): pure filters, sums, groupings and sorts over the rows;
- **request validation and the exception handler** (`validation.dfy`, `errors.dfy`);
- **the country seeder's pipeline** (`country_seeder.dfy`);
- **the client's authentication logic**:
  - the auth store (`auth_store.dfy`);
  - the HTTP client's token-refresh interceptor (`api_client.dfy`). It is a class with the `isRefreshing` flag and the `failedQueue` of waiting requests. Each of its methods is proved equal to a transition function on the interceptor's state;
  - the error-message helpers (`error_utils.dfy`);
  - the token-expiry test (`auth_utils.dfy`).

The clock, random draws, the password encoder, the tokens the JWT service issues, the due list of recurring rules and the country service's response are parameters of the operations that use them.

Where the code changes state step by step, the model does too. Services are methods on the database class. Their `ensures` clauses give each table's new contents as a function of the old ones, and lemmas prove the business properties of those functions. The source's loops are loops here too, each with its invariants: the scheduler's two jobs, `processQueue`, the exception handler's field-error map, the seeder's numbering of saved rows, and the dashboard's in-place pass over the budget-progress array.

## Model

| member | source | states |
|---|---|---|
| Scheduler.NextExecutionDate | api/src/main/java/com/budgetwise/api/scheduler/ScheduledTasksService.java:126-133 | DAILY is one day later and WEEKLY seven days later. MONTHLY is the next month with the day clamped to that month's length. YEARLY is the next year, same month, day clamped. The result is always a valid date |
| Scheduler.NextExecutionLater | api/src/main/java/com/budgetwise/api/scheduler/ScheduledTasksService.java:126-133 | the next execution date is strictly later than the current one, for every schedule type |
| Scheduler.YearlyLeapDay | api/src/main/java/com/budgetwise/api/scheduler/ScheduledTasksService.java:131 | a YEARLY rule on February 29 moves to February 28 of the next year |
| Scheduler.ProcessOneTransactions | api/src/main/java/com/budgetwise/api/scheduler/ScheduledTasksService.java:55-81 | a rule whose end date is strictly before today adds no transaction and is only deactivated. A rule ending today still runs. Any other rule adds exactly one transaction built from it and is replaced by its advanced copy |
| Scheduler.ProcessAllTransactions | api/src/main/java/com/budgetwise/api/scheduler/ScheduledTasksService.java:53-82 | the transactions a run adds are, in order, one per non-expired due rule. Each copies the rule's amount, description, user and category, is dated at the start of the old next-execution date, is marked automatic and links back to the rule |
| Scheduler.ProcessAllRules | api/src/main/java/com/budgetwise/api/scheduler/ScheduledTasksService.java:53-82 | after a run every due rule is either deactivated (expired, date unchanged) or has its next execution date advanced by exactly one period. Rules that were not due are unchanged |
| Scheduler.GeneratedStep | api/src/main/java/com/budgetwise/api/scheduler/ScheduledTasksService.java:62-72 | appending the transaction built from a rule keeps the one-transaction-per-live-rule correspondence |
| Scheduler.RulesAfterStep | api/src/main/java/com/budgetwise/api/scheduler/ScheduledTasksService.java:56-57 | saving one processed rule keeps the processed/unprocessed correspondence of the rules table |
| Scheduler.ProcessOneLive | api/src/main/java/com/budgetwise/api/scheduler/ScheduledTasksService.java:62-81 | for a non-expired rule one step saves the transaction, adds the alert notifications for it, and saves the advanced rule |
| Scheduler.RunRule | api/src/main/java/com/budgetwise/api/scheduler/ScheduledTasksService.java:54-81 | one loop iteration on the database leaves it valid and in the state the step function describes; other rules are kept |
| Scheduler.ProcessRecurringTransactions | api/src/main/java/com/budgetwise/api/scheduler/ScheduledTasksService.java:39-85 | the daily job over the due list keeps the database valid and leaves exactly the tables the per-rule steps give, taken in list order |
| Scheduler.LastMonth | api/src/main/java/com/budgetwise/api/scheduler/ScheduledTasksService.java:95 | the month before the month of today, across a year boundary too |
| Scheduler.RenewedAll | api/src/main/java/com/budgetwise/api/scheduler/ScheduledTasksService.java:108-119 | exactly as many renewed budgets as budgets to renew (each is the old one moved on a month, with the next id) |
| Scheduler.RenewedIntoThisMonth | api/src/main/java/com/budgetwise/api/scheduler/ScheduledTasksService.java:115 | a budget of last month moved by plusMonths(1) lands in the current month; a first-of-month budget stays on the first |
| Scheduler.RenewCoversLastMonth | api/src/main/java/com/budgetwise/api/scheduler/ScheduledTasksService.java:95-119 | every auto-renewing budget of last month has exactly one counterpart in the batch. Each counterpart has the same user, category and amount, keeps auto-renew, and falls in the current month. Every batch entry comes from such a budget |
| Scheduler.RenewedAppendOk | api/src/main/java/com/budgetwise/api/scheduler/ScheduledTasksService.java:122 | saving a batch that meets no (user, category, month) already taken keeps the budgets table valid |
| Scheduler.BuildBatch | api/src/main/java/com/budgetwise/api/scheduler/ScheduledTasksService.java:108-119 | the loop that builds the new budgets yields the renewed list, numbered from the next free id on, and advances the id counter by its length |
| Scheduler.RenewBudgets | api/src/main/java/com/budgetwise/api/scheduler/ScheduledTasksService.java:93-124 | the monthly job appends the renewed batch, or fails with a data-integrity error and leaves the budgets table as it was when the batch breaks the unique (user, category, month) constraint |
| BudgetAlert.AlertWindow | api/src/main/java/com/budgetwise/api/budget/impl/BudgetAlertServiceImpl.java:53-54 | the query window [first day 00:00, last day 23:59:59] holds a time exactly when it is in the month and not in the last second's fraction after 23:59:59 |
| BudgetAlert.LastSecondFractionMissed | api/src/main/java/com/budgetwise/api/budget/impl/BudgetAlertServiceImpl.java:50-55 | an expense at 23:59:59.5 on the month's last day counts against the budget in the dashboard's progress query but falls outside the alert's window |
| BudgetAlert.MonthSpendingSnoc | api/src/main/java/com/budgetwise/api/budget/impl/BudgetAlertServiceImpl.java:57-59 | a new transaction adds its amount to the month's total exactly when it is of that user, category and window |
| BudgetAlert.MonthSpendingIsAmountSpent | api/src/main/java/com/budgetwise/api/budget/impl/BudgetAlertServiceImpl.java:50-59 | for whole-second timestamps the alert's total equals the budget progress query's amount spent |
| BudgetAlert.AlertFor | api/src/main/java/com/budgetwise/api/budget/impl/BudgetAlertServiceImpl.java:40-71 | an alert names the budget of the transaction's user, category and month, carries the month's total, and is raised only when the rounded ratio reaches the threshold; no budget means no alert |
| BudgetAlert.AlertForExact | api/src/main/java/com/budgetwise/api/budget/impl/BudgetAlertServiceImpl.java:44-69 | an alert is raised if and only if such a budget exists and its ratio reaches the threshold |
| BudgetAlert.AlertRepeats | api/src/main/java/com/budgetwise/api/budget/impl/BudgetAlertServiceImpl.java:57-69 | once an alert fires for a budget, every later non-negative expense in that category and month fires it again |
| BudgetAlert.BudgetCategoryName | api/src/main/java/com/budgetwise/api/budget/impl/BudgetAlertServiceImpl.java:78 | the name used in the message is the name of the budget's category |
| BudgetAlert.AlertNotification | api/src/main/java/com/budgetwise/api/budget/impl/BudgetAlertServiceImpl.java:74-86 | the notification goes to the budget's user, unread, with the formatted message of the plain-string total, amount and category name. Both amounts are rendered at scale 4; see "## Left out" |
| BudgetAlert.AlertsFor | api/src/main/java/com/budgetwise/api/budget/impl/BudgetAlertServiceImpl.java:66-69 | at most one notification per transaction |
| BudgetAlert.CheckBudgetAfterTransaction | api/src/main/java/com/budgetwise/api/budget/impl/BudgetAlertServiceImpl.java:40-97 | appends exactly the alert notification when there is one and nothing otherwise; returns what it saved |
| Money.DivideHalfUp | api/src/main/java/com/budgetwise/api/budget/impl/BudgetAlertServiceImpl.java:64 | the quotient rounded to the nearest integer, halves away from zero, for either sign |
| Money.DivideHalfUpUnique | api/src/main/java/com/budgetwise/api/budget/impl/BudgetAlertServiceImpl.java:64 | HALF_UP rounding has exactly one answer meeting its bounds |
| Money.SpendingRatio | api/src/main/java/com/budgetwise/api/budget/impl/BudgetAlertServiceImpl.java:64 | the ratio total / budget at 4 decimal places, HALF_UP, as the nearest ten-thousandth |
| Money.FullBudgetReachesThreshold | api/src/main/java/com/budgetwise/api/budget/impl/BudgetAlertServiceImpl.java:64-66 | spending the whole budget reaches every threshold up to 100% |
| Money.SpendingRatioMonotone | api/src/main/java/com/budgetwise/api/budget/impl/BudgetAlertServiceImpl.java:64 | a larger total never gives a smaller rounded ratio |
| Money.PlainString | api/src/main/java/com/budgetwise/api/budget/impl/BudgetAlertServiceImpl.java:76-77 | toPlainString of a scale-4 amount: at least one integer digit, a point, four fraction digits |
| Money.PlainStringRoundTrip | api/src/main/java/com/budgetwise/api/budget/impl/BudgetAlertServiceImpl.java:76-77 | parsing the rendered amount gives the amount back |
| Calendar.PlusDays | api/src/main/java/com/budgetwise/api/scheduler/ScheduledTasksService.java:128 | plusDays moves the day number by exactly n |
| Calendar.PlusWeeks | api/src/main/java/com/budgetwise/api/scheduler/ScheduledTasksService.java:129 | plusWeeks moves the day number by exactly 7n |
| Calendar.PlusMonths | api/src/main/java/com/budgetwise/api/scheduler/ScheduledTasksService.java:130 | plusMonths gives the month n later with the day clamped to its length |
| Calendar.PlusYears | api/src/main/java/com/budgetwise/api/scheduler/ScheduledTasksService.java:131 | plusYears keeps month and day, clamping February 29 in a common year |
| Calendar.DaysInMonth | api/src/main/java/com/budgetwise/api/scheduler/ScheduledTasksService.java:97 | month lengths 28 to 31, February 29 days exactly in leap years |
| Calendar.FirstDay | api/src/main/java/com/budgetwise/api/scheduler/ScheduledTasksService.java:96 | atDay(1) is a valid date in the month, on day 1 |
| Calendar.LastDay | api/src/main/java/com/budgetwise/api/scheduler/ScheduledTasksService.java:97 | atEndOfMonth is the latest valid date of the month |
| Calendar.PlusMonthsYM | api/src/main/java/com/budgetwise/api/scheduler/ScheduledTasksService.java:95 | YearMonth.minusMonths/plusMonths moves the month index by n |
| Calendar.MonthRange | api/src/main/java/com/budgetwise/api/budget/BudgetRepository.java:25-26 | BETWEEN first and last day of a month, both inclusive, holds exactly that month's dates |
| Calendar.EpochDayOrder | api/src/main/java/com/budgetwise/api/scheduler/ScheduledTasksService.java:55 | isBefore on dates agrees with day-number order |
| Calendar.AtStartOfDay | api/src/main/java/com/budgetwise/api/scheduler/ScheduledTasksService.java:65 | atStartOfDay is midnight of the same date |
| Calendar.WholeDayWindow | api/src/main/java/com/budgetwise/api/dashboard/impl/DashboardServiceImpl.java:39-40 | [start 00:00, end+1 00:00) holds a time exactly when its date lies in [start, end] |
| Calendar.PlusMinutes | api/src/main/java/com/budgetwise/api/auth/impl/AuthServiceImpl.java:94 | plusMinutes moves the time by exactly that many minutes |
| Entities.BuildUser | api/src/main/java/com/budgetwise/api/user/User.java:60-70 | the builder defaults: date format yyyy-MM-dd, active, not deleted, no refresh token |
| Entities.IsAccountNonExpired | api/src/main/java/com/budgetwise/api/user/User.java:112-114 | always true |
| Entities.IsAccountNonLocked | api/src/main/java/com/budgetwise/api/user/User.java:117-119 | always true |
| Entities.IsCredentialsNonExpired | api/src/main/java/com/budgetwise/api/user/User.java:122-124 | always true |
| Entities.Authorities | api/src/main/java/com/budgetwise/api/user/User.java:107-109 | exactly the one role ROLE_USER |
| Entities.EnabledIff | api/src/main/java/com/budgetwise/api/user/User.java:127-129 | enabled if and only if active and not deleted |
| BudgetQueries.FindByUserAndBudgetMonthBetween | api/src/main/java/com/budgetwise/api/budget/BudgetRepository.java:17-19 | exactly the user's budgets whose month lies between the bounds, inclusive, each once |
| BudgetQueries.FindByUserCategoryMonth | api/src/main/java/com/budgetwise/api/budget/BudgetRepository.java:21-23 | a found budget has that user, category and month; none is found exactly when no budget has them |
| BudgetQueries.FindByUserCategoryMonthUnique | api/src/main/java/com/budgetwise/api/budget/BudgetRepository.java:21-23 | under the unique constraint the lookup finds the one budget with that key |
| BudgetQueries.FindBudgetsToRenew | api/src/main/java/com/budgetwise/api/budget/BudgetRepository.java:25-30 | exactly the auto-renewing budgets whose month lies between the bounds |
| BudgetQueries.RenewWindowIsMonth | api/src/main/java/com/budgetwise/api/budget/BudgetRepository.java:25-30 | with a month's first and last day as bounds, exactly the auto-renewing budgets of that month |
| BudgetQueries.AmountSpentNone | api/src/main/java/com/budgetwise/api/budget/BudgetRepository.java:41 | COALESCE gives 0 when no transaction matches |
| BudgetQueries.AmountSpentSnoc | api/src/main/java/com/budgetwise/api/budget/BudgetRepository.java:41-44 | a new transaction adds its amount exactly when it has the budget's user and category and the same year and month |
| BudgetQueries.Progress | api/src/main/java/com/budgetwise/api/budget/BudgetRepository.java:39-46 | the progress row carries the budget's id, category and amount and the month's spending, with no remaining amount yet |
| BudgetQueries.FindBudgetProgressData | api/src/main/java/com/budgetwise/api/budget/BudgetRepository.java:39-51 | one row per budget of the user for that month: every row is the progress of such a budget and every such budget's progress is a row |
| TransactionQueries.ExistsByCategory | api/src/main/java/com/budgetwise/api/transaction/TransactionRepository.java:20 | true exactly when some transaction references the category |
| TransactionQueries.FindByUserCategoryBetween | api/src/main/java/com/budgetwise/api/transaction/TransactionRepository.java:22-24 | exactly the user's transactions in the category with a date in [start, end], both inclusive |
| TransactionQueries.DateDescTotal | api/src/main/java/com/budgetwise/api/transaction/TransactionRepository.java:28 | newest-first is a total preorder, so the sort is well defined |
| TransactionQueries.NewestFirst | api/src/main/java/com/budgetwise/api/transaction/TransactionRepository.java:28 | the rows sorted newest first, a permutation of the input |
| TransactionQueries.FindAllByUser | api/src/main/java/com/budgetwise/api/transaction/TransactionRepository.java:27-29 | all and only the user's transactions, newest first |
| TransactionQueries.FindByUserAndDateRange | api/src/main/java/com/budgetwise/api/transaction/TransactionRepository.java:32-36 | all and only the user's transactions in [start, end), newest first |
| TransactionQueries.SumByCategoryTypeEmpty | api/src/main/java/com/budgetwise/api/transaction/TransactionRepository.java:44 | COALESCE gives 0 when nothing matches |
| TransactionQueries.SumByCategoryTypeSplit | api/src/main/java/com/budgetwise/api/transaction/TransactionRepository.java:44-52 | the sum over [a, c) is the sum over [a, b) plus the sum over [b, c) |
| TransactionQueries.GroupNames | api/src/main/java/com/budgetwise/api/transaction/TransactionRepository.java:62 | GROUP BY name gives each category name of the rows once and nothing else |
| TransactionQueries.SortedGroups | api/src/main/java/com/budgetwise/api/transaction/TransactionRepository.java:62 | the groups ordered by total, largest first |
| TransactionQueries.Totals | api/src/main/java/com/budgetwise/api/transaction/TransactionRepository.java:58 | each group's SUM is the total of its rows |
| TransactionQueries.Breakdown | api/src/main/java/com/budgetwise/api/transaction/TransactionRepository.java:58-62 | distinct names, totals non-increasing, each total the sum of its group, every row's category present |
| TransactionQueries.ExpenseBreakdown | api/src/main/java/com/budgetwise/api/transaction/TransactionRepository.java:58-67 | the same, over the user's EXPENSE transactions in [start, end) |
| TransactionQueries.MaxByAmount | api/src/main/java/com/budgetwise/api/transaction/TransactionRepository.java:93 | ORDER BY amount DESC LIMIT 1: none exactly for no rows, else a row with the largest amount |
| TransactionQueries.TopExpense | api/src/main/java/com/budgetwise/api/transaction/TransactionRepository.java:89-98 | null exactly when the user has no expense in the window; otherwise an expense in the window with no larger one |
| Validation.AnyMatch | api/src/main/java/com/budgetwise/api/user/enums/DateFormat.java:34-36 | anyMatch over the enum's patterns is true exactly when one of them equals the value |
| Validation.IsValidPattern | api/src/main/java/com/budgetwise/api/user/enums/DateFormat.java:30-37 | null or blank is rejected; otherwise valid exactly when the value is one of the seven patterns, compared exactly |
| Validation.DateFormatValid | api/src/main/java/com/budgetwise/api/validation/DateFormatValidator.java:10-15 | null or blank is accepted; otherwise the enum's test decides |
| Validation.DateFormatValidatorDisagreement | api/src/main/java/com/budgetwise/api/validation/DateFormatValidator.java:11-14 | the annotation and the enum disagree exactly on null and blank values |
| Validation.DatePatternExact | api/src/main/java/com/budgetwise/api/user/enums/DateFormat.java:12-36 | the comparison is case- and space-sensitive: YYYY-MM-DD and " yyyy-MM-dd" fail while yyyy-MM-dd passes |
| Validation.CategoryTypeValueOf | api/src/main/java/com/budgetwise/api/category/enums/CategoryType.java:8-9 | valueOf accepts exactly INCOME and EXPENSE and gives the constant of that name |
| Validation.CategoryTypeValid | api/src/main/java/com/budgetwise/api/validation/CategoryTypeValidator.java:9-19 | valid exactly when present, not blank and its upper-cased form names a category type |
| Validation.ScheduleTypeValueOf | api/src/main/java/com/budgetwise/api/recurringtransaction/enums/ScheduleType.java:8-9 | valueOf accepts exactly DAILY, WEEKLY, MONTHLY and YEARLY and gives the constant of that name |
| Validation.ScheduleTypeValid | api/src/main/java/com/budgetwise/api/validation/ScheduleTypeValidator.java:9-17 | valid exactly when present, not blank and its upper-cased form names a schedule type |
| Validation.AcceptedTypesResolve | api/src/main/java/com/budgetwise/api/category/impl/CategoryServiceImp.java:37 | a value the validator accepts always resolves with valueOf(toUpperCase()), so the service's conversion cannot throw |
| Validation.EnumNamesAccepted | api/src/main/java/com/budgetwise/api/validation/CategoryTypeValidator.java:14 | lower- and mixed-case names such as "income" and "Daily" are accepted |
| Validation.WhitespaceRejected | api/src/main/java/com/budgetwise/api/validation/CategoryTypeValidator.java:10-18 | a value holding any whitespace character is rejected by both type validators |
| Validation.BudgetMonthPatternMeaning | api/src/main/java/com/budgetwise/api/budget/dto/BudgetRequest.java:20 | the regular expression accepts exactly four digits, a dash and a month number 01 to 12 |
| Validation.BudgetMonthRejections | api/src/main/java/com/budgetwise/api/budget/dto/BudgetRequest.java:20 | "2025-1", "2025-00", "2025-13", "25-01" and the empty string are rejected |
| Validation.ParseBudgetMonth | api/src/main/java/com/budgetwise/api/budget/impl/BudgetServiceImpl.java:47 | YearMonth.parse of a matching string is a valid month of a year 0 to 9999 |
| Validation.BudgetMonthRoundTrip | api/src/main/java/com/budgetwise/api/budget/impl/BudgetServiceImpl.java:47 | formatting the parsed month gives back the request's text |
| Validation.YearMonthRoundTrip | api/src/main/java/com/budgetwise/api/budget/dto/BudgetRequest.java:20 | every month of years 0 to 9999, formatted, matches the pattern and parses back to itself |
| Validation.ColorExamples | api/src/main/java/com/budgetwise/api/category/dto/CategoryRequest.java:22 | six- and three-digit hex colours in either case pass; four digits, a non-hex digit or a missing # fail |
| Validation.BudgetRequestErrors | api/src/main/java/com/budgetwise/api/budget/dto/BudgetRequest.java:16-28 | no field error exactly when the category id is present, the month is present, not blank and matches, the amount is at least 0.01 and autoRenew is present |
| Validation.MatchingMonthNotBlank | api/src/main/java/com/budgetwise/api/budget/dto/BudgetRequest.java:19-20 | a month that matches the pattern is never blank. A blank month also fails the pattern, so the pattern alone decides validity |
| Validation.CategoryRequestErrors | api/src/main/java/com/budgetwise/api/category/dto/CategoryRequest.java:13-23 | no field error exactly when the name is present and not blank, the type is valid and the colour is absent or a hex colour |
| CategoryService.ResolveCategoryType | api/src/main/java/com/budgetwise/api/category/impl/CategoryServiceImp.java:37 | the type named by the upper-cased request value |
| CategoryService.BuildCategory | api/src/main/java/com/budgetwise/api/category/impl/CategoryServiceImp.java:34-40 | the new category carries the request's name, description, colour and upper-cased type, belongs to the current user and gets the id and creation time |
| CategoryService.ApplyCategoryUpdate | api/src/main/java/com/budgetwise/api/category/impl/CategoryServiceImp.java:62-65 | an update replaces name, description, type and colour and keeps id, owner and creation time: the category as if built from the request |
| CategoryService.FindCategoryOwned | api/src/main/java/com/budgetwise/api/category/impl/CategoryServiceImp.java:82-90 | a found category has the id and belongs to the current user. Failures are: no such user, no category with the id (not found), or a category of someone else (access denied) |
| CategoryService.FindCategoryOwnedExact | api/src/main/java/com/budgetwise/api/category/impl/CategoryServiceImp.java:82-90 | for a known user the lookup succeeds exactly when the user owns a category with that id, and is denied when another user does |
| CategoryService.CategoriesOfUser | api/src/main/java/com/budgetwise/api/category/CategoryRepository.java:11 | findByUserOrderByCreatedAtDesc: all and only the user's categories, newest first, each once |
| CategoryService.GetAllUserCategories | api/src/main/java/com/budgetwise/api/category/impl/CategoryServiceImp.java:46-50 | fails exactly when the current user is unknown, else the user's categories newest first |
| CategoryService.CreateCategory | api/src/main/java/com/budgetwise/api/category/impl/CategoryServiceImp.java:32-43 | appends the built category. An unknown user is not found. A name longer than the VARCHAR(50) column, or one the user already has for another category, is a data-integrity violation and leaves the table unchanged |
| CategoryService.UpdateCategory | api/src/main/java/com/budgetwise/api/category/impl/CategoryServiceImp.java:60-68 | ownership errors pass through unchanged. A name longer than the VARCHAR(50) column, or a clash with another category's name, is a data-integrity violation. Otherwise the category is replaced in place |
| CategoryService.DeleteCategory | api/src/main/java/com/budgetwise/api/category/impl/CategoryServiceImp.java:72-79 | ownership errors pass through. A category with transactions is refused with an illegal-state error. One still referenced by a budget, template or rule hits the foreign key. Otherwise exactly that row is removed |
| BudgetService.FindBudgetOwned | api/src/main/java/com/budgetwise/api/budget/impl/BudgetServiceImpl.java:97-105 | a found budget has the id and belongs to the current user; failures are an unknown user, a missing budget or access denied |
| BudgetService.FindBudgetOwnedForeign | api/src/main/java/com/budgetwise/api/budget/impl/BudgetServiceImpl.java:101-103 | another user's budget is always access denied |
| BudgetService.BudgetMonthOf | api/src/main/java/com/budgetwise/api/budget/impl/BudgetServiceImpl.java:47 | the first day of the requested month, which formats back to the request text |
| BudgetService.BuildBudget | api/src/main/java/com/budgetwise/api/budget/impl/BudgetServiceImpl.java:46-52 | the new budget has the request's category, month, amount and auto-renew flag and belongs to the current user |
| BudgetService.CreateBudget | api/src/main/java/com/budgetwise/api/budget/impl/BudgetServiceImpl.java:35-59 | an unknown user fails; the category must exist ("Category not found") and be the user's; a second budget for the same user, category and month is a data-integrity violation; otherwise the budget is appended |
| BudgetService.GetBudgets | api/src/main/java/com/budgetwise/api/budget/impl/BudgetServiceImpl.java:62-69 | an unknown user is not found. Then a year outside ±999999999 is a date-time error with the Year message, and after it a month outside 1..12 with the MonthOfYear message. Otherwise the user's budgets between the month's first and last day |
| BudgetService.GetBudgetsIsMonth | api/src/main/java/com/budgetwise/api/budget/impl/BudgetServiceImpl.java:64-67 | a budget is listed exactly when it is the user's and its month is the requested year and month |
| BudgetService.ApplyBudgetUpdate | api/src/main/java/com/budgetwise/api/budget/impl/BudgetServiceImpl.java:81-84 | only amount and auto-renew change; id, owner, category and month stay |
| BudgetService.UpdateBudget | api/src/main/java/com/budgetwise/api/budget/impl/BudgetServiceImpl.java:78-88 | ownership errors pass through unchanged, otherwise the budget is replaced in place by its updated copy |
| BudgetService.DeleteBudget | api/src/main/java/com/budgetwise/api/budget/impl/BudgetServiceImpl.java:92-95 | ownership errors pass through unchanged, otherwise exactly that row is removed |
| TransactionService.FindTransactionOwned | api/src/main/java/com/budgetwise/api/transaction/impl/TransactionServiceImpl.java:171-179 | a found transaction has the id and is the current user's; failures are "Authenticated user not found", a missing transaction, or access denied |
| TransactionService.TxCategory | api/src/main/java/com/budgetwise/api/transaction/impl/TransactionServiceImpl.java:181-188 | the category used must exist and belong to the user; otherwise not found or access denied |
| TransactionService.TxTemplate | api/src/main/java/com/budgetwise/api/transaction/impl/TransactionServiceImpl.java:190-197 | the template used must exist and belong to the user; otherwise not found or access denied |
| TransactionService.TransactionAmount | api/src/main/java/com/budgetwise/api/transaction/impl/TransactionServiceImpl.java:199-215 | the template's own amount wins. Without one the request's amount is used. With neither the call fails with an illegal-argument error, and it succeeds exactly when one of the two is present |
| TransactionService.BuildTransaction | api/src/main/java/com/budgetwise/api/transaction/impl/TransactionServiceImpl.java:53-60 | the new transaction has the request's category, amount, description and date, is the user's, and is not automatic and not linked to a rule |
| TransactionService.BuildFromTemplate | api/src/main/java/com/budgetwise/api/transaction/impl/TransactionServiceImpl.java:81-88 | the template's category and description, the resolved amount, the current time, not automatic |
| TransactionService.ApplyTransactionUpdate | api/src/main/java/com/budgetwise/api/transaction/impl/TransactionServiceImpl.java:122-125 | amount, description, date and category come from the request; id, owner, the automatic flag and the rule link are kept |
| TransactionService.CreateChecks | api/src/main/java/com/budgetwise/api/transaction/impl/TransactionServiceImpl.java:50-51 | creation needs the current user and a category of theirs with the requested id |
| TransactionService.CreateTransaction | api/src/main/java/com/budgetwise/api/transaction/impl/TransactionServiceImpl.java:49-68 | on a failed check nothing is saved. Otherwise the built transaction is appended and the budget alert for it is appended to the notifications |
| TransactionService.CreateFromTemplate | api/src/main/java/com/budgetwise/api/transaction/impl/TransactionServiceImpl.java:72-93 | user, template ownership and amount are checked in that order, the first failure is returned and nothing is saved; otherwise the transaction built from the template is appended (with no alert check) |
| TransactionService.GetTransactions | api/src/main/java/com/budgetwise/api/transaction/impl/TransactionServiceImpl.java:96-109 | an unknown user fails. With both dates, the user's transactions from the start day's midnight to the midnight after the end day, newest first. Otherwise all of the user's transactions, newest first |
| TransactionService.GetTransactionsDays | api/src/main/java/com/budgetwise/api/transaction/impl/TransactionServiceImpl.java:98-105 | with both dates a transaction is listed exactly when it is the user's and its date lies in [start, end], whole days; with either missing, exactly the user's transactions |
| TransactionService.UpdateTransaction | api/src/main/java/com/budgetwise/api/transaction/impl/TransactionServiceImpl.java:118-129 | ownership of the transaction, then of the new category; the first failure is returned unchanged, otherwise the transaction is replaced in place |
| TransactionService.DeleteTransaction | api/src/main/java/com/budgetwise/api/transaction/impl/TransactionServiceImpl.java:133-136 | ownership errors pass through, otherwise exactly that row is removed |
| TemplateService.FindTemplateOwned | api/src/main/java/com/budgetwise/api/transactiontemplate/impl/TransactionTemplateServiceImpl.java:96-104 | a found template has the id and is the current user's; failures are an unknown user, a missing template or access denied |
| TemplateService.TemplateCategory | api/src/main/java/com/budgetwise/api/transactiontemplate/impl/TransactionTemplateServiceImpl.java:36-41 | the category must exist ("Category not found") and be the user's |
| TemplateService.ApplyTemplate | api/src/main/java/com/budgetwise/api/transactiontemplate/impl/TransactionTemplateServiceImpl.java:80-83 | name, amount, description and category come from the request; id and owner stay |
| TemplateService.NameAscTotal | api/src/main/java/com/budgetwise/api/transactiontemplate/TransactionTemplateRepository.java:11 | ordering by name ascending is a total preorder |
| TemplateService.TemplatesOfUser | api/src/main/java/com/budgetwise/api/transactiontemplate/TransactionTemplateRepository.java:11 | all and only the user's templates, sorted by name, each once |
| TemplateService.SortByName | api/src/main/java/com/budgetwise/api/transactiontemplate/TransactionTemplateRepository.java:11 | a sorted permutation of its input |
| TemplateService.GetAllUserTemplates | api/src/main/java/com/budgetwise/api/transactiontemplate/impl/TransactionTemplateServiceImpl.java:57-61 | fails exactly when the user is unknown, else the user's templates by name |
| TemplateService.CreateTemplate | api/src/main/java/com/budgetwise/api/transactiontemplate/impl/TransactionTemplateServiceImpl.java:33-54 | user and category checks first. A name longer than the VARCHAR(100) column, or one the user already uses, is a data-integrity violation. Otherwise the template is appended. Every failure leaves the table unchanged |
| TemplateService.UpdateTemplate | api/src/main/java/com/budgetwise/api/transactiontemplate/impl/TransactionTemplateServiceImpl.java:70-87 | ownership, then the category, then the VARCHAR(100) name column and the unique (user, name) constraint; otherwise the template is replaced in place |
| TemplateService.DeleteTemplate | api/src/main/java/com/budgetwise/api/transactiontemplate/impl/TransactionTemplateServiceImpl.java:91-94 | ownership errors pass through, otherwise exactly that row is removed |
| NotificationService.NotificationsOfUser | api/src/main/java/com/budgetwise/api/notification/NotificationRepository.java:10 | all and only the user's notifications, newest first, each once |
| NotificationService.GetMyNotifications | api/src/main/java/com/budgetwise/api/notification/impl/NotificationServiceImpl.java:28-31 | fails exactly when the current user is unknown, else the user's notifications newest first |
| NotificationService.FindNotificationOwned | api/src/main/java/com/budgetwise/api/notification/impl/NotificationServiceImpl.java:36-42 | a found notification has the id and is the user's. Failures are an unknown user, "Notification not found", or access denied |
| NotificationService.MarkRead | api/src/main/java/com/budgetwise/api/notification/impl/NotificationServiceImpl.java:44 | only the read flag changes, and it becomes true |
| NotificationService.MarkNotificationAsRead | api/src/main/java/com/budgetwise/api/notification/impl/NotificationServiceImpl.java:35-46 | ownership errors pass through and change nothing; otherwise that notification is replaced by its read copy |
| NotificationService.MarkReadIdempotent | api/src/main/java/com/budgetwise/api/notification/impl/NotificationServiceImpl.java:44-45 | marking a notification read a second time changes nothing |
| NotificationService.MarkAllAsRead | api/src/main/java/com/budgetwise/api/notification/impl/NotificationServiceImpl.java:50-53 | an unknown user fails and changes nothing; otherwise the bulk update runs for that user's id |
| RecurringService.ResolveScheduleType | api/src/main/java/com/budgetwise/api/recurringtransaction/impl/RecurringTransactionServiceImpl.java:48 | the schedule type named by the upper-cased request value |
| RecurringService.FindRuleOwned | api/src/main/java/com/budgetwise/api/recurringtransaction/impl/RecurringTransactionServiceImpl.java:112-120 | a found rule has the id and is the user's. Failures are "Authenticated user not found", a missing rule, or access denied |
| RecurringService.FindRuleOwnedExact | api/src/main/java/com/budgetwise/api/recurringtransaction/impl/RecurringTransactionServiceImpl.java:112-120 | for a known user, their own rule is found and another user's rule is access denied |
| RecurringService.RuleCategory | api/src/main/java/com/budgetwise/api/recurringtransaction/impl/RecurringTransactionServiceImpl.java:122-129 | the category must exist and be the user's |
| RecurringService.BuildRule | api/src/main/java/com/budgetwise/api/recurringtransaction/impl/RecurringTransactionServiceImpl.java:40-51 | the new rule takes the request's fields, starts active, and its first execution is its start date |
| RecurringService.ApplyRuleUpdate | api/src/main/java/com/budgetwise/api/recurringtransaction/impl/RecurringTransactionServiceImpl.java:74-80 | an update replaces the request's fields and keeps id, owner, next execution date and active flag |
| RecurringService.ApplyRuleUpdateIsRebuild | api/src/main/java/com/budgetwise/api/recurringtransaction/impl/RecurringTransactionServiceImpl.java:74-80 | the updated rule is the rule built from the request with the old next execution date and active flag |
| RecurringService.SetActive | api/src/main/java/com/budgetwise/api/recurringtransaction/impl/RecurringTransactionServiceImpl.java:90 | only the active flag changes |
| RecurringService.NextFirstTotal | api/src/main/java/com/budgetwise/api/recurringtransaction/RecurringTransactionRepository.java:11 | ordering by next execution date ascending is a total preorder |
| RecurringService.RulesOfUser | api/src/main/java/com/budgetwise/api/recurringtransaction/RecurringTransactionRepository.java:11 | all and only the user's rules, soonest first, each once |
| RecurringService.GetAllUserRules | api/src/main/java/com/budgetwise/api/recurringtransaction/impl/RecurringTransactionServiceImpl.java:58-61 | fails exactly when the current user is unknown, else the user's rules soonest first |
| RecurringService.CreateRule | api/src/main/java/com/budgetwise/api/recurringtransaction/impl/RecurringTransactionServiceImpl.java:36-55 | the user and category checks come first. A name longer than the VARCHAR(100) column, or one the user already uses, is a data-integrity violation. Otherwise the built rule is appended. Every failure leaves the table unchanged. The request is required to pass Bean Validation on the given day, `@FutureOrPresent` included, so a new rule's first execution is never before today |
| RecurringService.UpdateRule | api/src/main/java/com/budgetwise/api/recurringtransaction/impl/RecurringTransactionServiceImpl.java:70-84 | ownership, then the category, then the VARCHAR(100) name column and the unique (user, name) constraint; otherwise the rule is replaced in place. The request's start date is not before the given day, while the rule's next execution date is kept |
| RecurringService.UpdateStatus | api/src/main/java/com/budgetwise/api/recurringtransaction/impl/RecurringTransactionServiceImpl.java:88-93 | ownership errors pass through; otherwise the rule is replaced by its copy with the new flag |
| RecurringService.DeleteRule | api/src/main/java/com/budgetwise/api/recurringtransaction/impl/RecurringTransactionServiceImpl.java:97-104 | ownership errors pass through. An active rule is refused with an illegal-state error. A rule that generated transactions hits the foreign key. Otherwise exactly that row is removed |
| Dashboard.ResolvePeriod | api/src/main/java/com/budgetwise/api/dashboard/impl/DashboardServiceImpl.java:33-37 | both dates given: that period; either missing: the current month from its first to its last day |
| Dashboard.DefaultPeriodIsMonth | api/src/main/java/com/budgetwise/api/dashboard/impl/DashboardServiceImpl.java:33-37 | the default period holds exactly the dates of the current month |
| Dashboard.WindowIsPeriod | api/src/main/java/com/budgetwise/api/dashboard/impl/DashboardServiceImpl.java:39-40 | the window [start 00:00, end+1 00:00) holds a time exactly when its date is in the period |
| Dashboard.PreviousPeriod | api/src/main/java/com/budgetwise/api/dashboard/impl/DashboardServiceImpl.java:57-59 | the previous period has the same number of days and ends the day before the period starts |
| Dashboard.PreviousWindowAdjacent | api/src/main/java/com/budgetwise/api/dashboard/impl/DashboardServiceImpl.java:61-65 | the previous window ends exactly where the current one starts |
| Dashboard.PreviousAndCurrentExpense | api/src/main/java/com/budgetwise/api/dashboard/impl/DashboardServiceImpl.java:45-65 | the expense over both windows together is the previous period's expense plus the current one's |
| Dashboard.BudgetMonth | api/src/main/java/com/budgetwise/api/dashboard/impl/DashboardServiceImpl.java:73 | the first day of the start date's month |
| Dashboard.WithRemaining | api/src/main/java/com/budgetwise/api/dashboard/impl/DashboardServiceImpl.java:78-79 | remaining is the budget amount minus the amount spent; the other fields are kept |
| Dashboard.FillRemaining | api/src/main/java/com/budgetwise/api/dashboard/impl/DashboardServiceImpl.java:77-80 | every entry of the list gets its remaining amount, in place |
| Dashboard.FilledIn | api/src/main/java/com/budgetwise/api/dashboard/impl/DashboardServiceImpl.java:77-80 | the list after the forEach: the same entries, each with its remaining amount |
| Dashboard.FilledInRemaining | api/src/main/java/com/budgetwise/api/dashboard/impl/DashboardServiceImpl.java:78-79 | every filled entry's remaining amount is its budget amount minus its amount spent |
| Dashboard.Stats | api/src/main/java/com/budgetwise/api/dashboard/impl/DashboardServiceImpl.java:43-92 | income and expense are the sums over the window and net savings is their difference. The previous expense is the sum over the previous window. The breakdown, the top expense and the month's progress are taken over the same window and month |
| Dashboard.MonthProgressRemaining | api/src/main/java/com/budgetwise/api/dashboard/impl/DashboardServiceImpl.java:74-80 | every progress entry in the response carries budget minus spent as its remaining amount |
| Dashboard.MonthProgressFromBudgets | api/src/main/java/com/budgetwise/api/dashboard/impl/DashboardServiceImpl.java:74-80 | every progress entry comes from a budget of the user for the month |
| Dashboard.MonthProgressCoversBudgets | api/src/main/java/com/budgetwise/api/dashboard/impl/DashboardServiceImpl.java:74-80 | every budget of the user for the month has its progress entry in the response |
| Dashboard.GetDashboardStats | api/src/main/java/com/budgetwise/api/dashboard/impl/DashboardServiceImpl.java:29-93 | an unknown user fails; otherwise the figures of the resolved period for that user |
| Database.CurrentUser | api/src/main/java/com/budgetwise/api/security/SecurityUtils.java:24-37 | the user with the authenticated name. Not found exactly when no user has that username, with the given message |
| Database.FindOwned | api/src/main/java/com/budgetwise/api/budget/impl/BudgetServiceImpl.java:38-44 | findById then the owner comparison. Not found exactly when no row has the id. Access denied only when a row with the id belongs to someone else. With unique ids, success exactly when the user owns that row |
| Common.ToUpper | api/src/main/java/com/budgetwise/api/validation/CategoryTypeValidator.java:14 | String.toUpperCase character by character, with ASCII letters mapped to their capitals |
| Common.LexLeTotalPreorder | api/src/main/java/com/budgetwise/api/transactiontemplate/TransactionTemplateRepository.java:11 | the name order the model sorts by is a total preorder |
| Digits.PadDigits | api/src/main/java/com/budgetwise/api/auth/impl/AuthServiceImpl.java:213-214 | DecimalFormat("000000"): exactly w digits whose value is the number |
| Digits.PadDigitsOfValue | api/src/main/java/com/budgetwise/api/auth/impl/AuthServiceImpl.java:213-214 | every all-digit string of width w is the padding of its own value |
| AuthService.VerificationCode | api/src/main/java/com/budgetwise/api/auth/impl/AuthServiceImpl.java:211-215 | a six-digit string whose value is the draw |
| AuthService.VerificationCodeRange | api/src/main/java/com/budgetwise/api/auth/impl/AuthServiceImpl.java:214 | every six-digit code below 999999 can be drawn, and "999999" never is (nextInt's bound is exclusive) |
| AuthService.RegisterChecks | api/src/main/java/com/budgetwise/api/auth/impl/AuthServiceImpl.java:76-89 | a taken username is refused first and a taken email second, both as illegal-state errors. An unknown country id is an illegal argument. Otherwise the stored country is returned |
| AuthService.NewAccount | api/src/main/java/com/budgetwise/api/auth/impl/AuthServiceImpl.java:85-100 | the new user is inactive, not deleted and so not enabled. It holds the code, an expiry 15 minutes after now and the encoded password, plus the request's fields |
| AuthService.Register | api/src/main/java/com/budgetwise/api/auth/impl/AuthServiceImpl.java:75-109 | a failed check saves nothing. Otherwise exactly the new account is appended and the response has no tokens |
| AuthService.FindByIdentifier | api/src/main/java/com/budgetwise/api/auth/impl/AuthServiceImpl.java:115-117 | username first, then email. Not found exactly when neither matches, with the identifier in the message |
| AuthService.FindByIdentifierAfterSave | api/src/main/java/com/budgetwise/api/auth/impl/AuthServiceImpl.java:133 | saving the found user keeps usernames and emails unique and the same identifier finds the saved row |
| AuthService.VerifyChecks | api/src/main/java/com/budgetwise/api/auth/impl/AuthServiceImpl.java:115-127 | lookup failures pass through. A code other than the stored one is bad credentials. An expired code is an illegal-state error. Success gives the user found |
| AuthService.Activated | api/src/main/java/com/budgetwise/api/auth/impl/AuthServiceImpl.java:130-132 | the activated user is active and has no code and no expiry; nothing else changes |
| AuthService.NewRefreshToken | api/src/main/java/com/budgetwise/api/auth/impl/AuthServiceImpl.java:229-233 | the token is the user's and expires refreshExpiration milliseconds after now |
| AuthService.CreateAndSaveRefreshToken | api/src/main/java/com/budgetwise/api/auth/impl/AuthServiceImpl.java:227-235 | the new refresh token is appended with the next id |
| AuthService.VerifyAccount | api/src/main/java/com/budgetwise/api/auth/impl/AuthServiceImpl.java:113-143 | a failed check changes nothing. Otherwise the user is saved activated, a refresh token is added and both tokens are returned. A refresh token that is already stored is a data-integrity violation |
| AuthService.VerifyAgainFails | api/src/main/java/com/budgetwise/api/auth/impl/AuthServiceImpl.java:120-133 | once a code has verified an account, the same request later fails as an invalid token |
| AuthService.Reissued | api/src/main/java/com/budgetwise/api/auth/impl/AuthServiceImpl.java:200-202 | only the code and its expiry change, to the new code and now plus 15 minutes |
| AuthService.ResendVerificationToken | api/src/main/java/com/budgetwise/api/auth/impl/AuthServiceImpl.java:188-209 | lookup errors pass through. An active account is refused as already verified. Otherwise the user is saved with a new code |
| AuthService.ResentCodeVerifies | api/src/main/java/com/budgetwise/api/auth/impl/AuthServiceImpl.java:200-205 | a resent code verifies the account at any time up to its expiry |
| AuthService.BearerToken | api/src/main/java/com/budgetwise/api/auth/impl/AuthServiceImpl.java:150-154 | a token is extracted exactly when the header starts with "Bearer ", and the header is that prefix followed by the token |
| AuthService.BearerTokenRoundTrip | api/src/main/java/com/budgetwise/api/auth/impl/AuthServiceImpl.java:154 | the prefix plus a token gives the token back |
| AuthService.BearerTokenExact | api/src/main/java/com/budgetwise/api/auth/impl/AuthServiceImpl.java:150 | the prefix is case- and space-exact: "bearer abc" and "Bearer" are refused, a second space stays in the token |
| AuthService.Refresh | api/src/main/java/com/budgetwise/api/auth/impl/AuthServiceImpl.java:146-168 | a missing or malformed header is refused as malformed, and an unknown token as invalid. An expired token is deleted, then reported as expired. Otherwise a new access token is issued with the same refresh token |
| AuthService.Logout | api/src/main/java/com/budgetwise/api/auth/impl/AuthServiceImpl.java:172-184 | without a bearer header, or with an unknown token, nothing changes. Otherwise exactly that refresh token is deleted |
| AuthService.LogoutRevokes | api/src/main/java/com/budgetwise/api/auth/impl/AuthServiceImpl.java:182 | after logout the token is no longer found and every other token is kept |
| UserService.ProfileOf | api/src/main/java/com/budgetwise/api/user/impl/UserServiceImpl.java:29 | the profile carries the user's id, names, email, phone, date format and country |
| UserService.GetUserProfile | api/src/main/java/com/budgetwise/api/user/impl/UserServiceImpl.java:27-30 | not found ("Authenticated user not found") exactly when no user has the name; otherwise that user's profile |
| UserService.ProfileUpdated | api/src/main/java/com/budgetwise/api/user/impl/UserServiceImpl.java:38-42 | first and last name, email, phone and date format come from the request; nothing else changes |
| UserService.ProfileSave | api/src/main/java/com/budgetwise/api/user/User.java:60-62 | the database saves the updated user only when its date format fits the column and its email is free; otherwise a data-integrity violation |
| UserService.LongPatternsRefused | api/src/main/java/com/budgetwise/api/user/enums/DateFormat.java:12-21 | of the whitelisted formats, exactly "dd-MMM-yyyy" and "MMM-dd-yyyy" are too long for the VARCHAR(10) column, and an update that chooses one of them fails |
| UserService.WideColumnStoresEveryPattern | api/src/main/java/com/budgetwise/api/user/User.java:60-62 | with an 11-character column, a null or any whitelisted format is saved whenever the email is free |
| UserService.UpdateUserProfile | api/src/main/java/com/budgetwise/api/user/impl/UserServiceImpl.java:34-46 | an unknown user fails. A date format longer than the VARCHAR(10) column, or an email already used by another user, is a data-integrity violation and nothing is saved. Otherwise the user is saved and the new profile returned |
| UserService.PasswordChecks | api/src/main/java/com/budgetwise/api/user/impl/UserServiceImpl.java:54-61 | a wrong current password is bad credentials. If it is right, a new password that differs from its confirmation is an illegal argument. Otherwise the change may proceed |
| UserService.ChangePassword | api/src/main/java/com/budgetwise/api/user/impl/UserServiceImpl.java:50-66 | the checks' failures pass through with nothing saved; otherwise only the password changes, to the encoding of the new one |
| UserService.NewPasswordMatches | api/src/main/java/com/budgetwise/api/user/impl/UserServiceImpl.java:64-65 | after a change the new password passes the current-password check |
| UserService.SoftDeleted | api/src/main/java/com/budgetwise/api/user/impl/UserServiceImpl.java:72-74 | the user becomes inactive, deleted and without refresh token, and so disabled; nothing else changes |
| UserService.DeleteUserProfile | api/src/main/java/com/budgetwise/api/user/impl/UserServiceImpl.java:70-76 | an unknown user fails; otherwise the user is replaced by its soft-deleted copy |
| UserService.DeleteUserProfileIdempotent | api/src/main/java/com/budgetwise/api/user/impl/UserServiceImpl.java:70-76 | deleting an already deleted profile changes nothing more |
| Errors.ErrorMapKeys | api/src/main/java/com/budgetwise/api/exception/GlobalExceptionHandler.java:23-25 | the map has a key exactly for each field that has an error |
| Errors.ErrorMapLastWins | api/src/main/java/com/budgetwise/api/exception/GlobalExceptionHandler.java:24-25 | a field's value is the message of its last error (HashMap.put overwrites) |
| Errors.CollectFieldErrors | api/src/main/java/com/budgetwise/api/exception/GlobalExceptionHandler.java:23-25 | the forEach loop builds exactly that map |
| Errors.Handle | api/src/main/java/com/budgetwise/api/exception/GlobalExceptionHandler.java:19-85 | status 400 exactly for validation failures, 401 exactly for bad credentials, 409 exactly for illegal state, else 500; the reason phrase of the status; the request path; the fixed messages, the exception's own message for 409, and the field map only for 400 |
| Errors.BadCredentialsHidesMessage | api/src/main/java/com/budgetwise/api/exception/GlobalExceptionHandler.java:40-53 | every bad-credentials failure gives the same body, "Invalid username or password", whatever its own message |
| Errors.UnhandledServiceErrors | api/src/main/java/com/budgetwise/api/exception/GlobalExceptionHandler.java:72-85 | not-found, access-denied, illegal-argument, date-time and data-integrity errors all fall to the catch-all 500 |
| CountrySeeder.PiecesRoundTrip | api/src/main/java/com/budgetwise/api/global/country/impl/CountryDataSeederImpl.java:25 | joining the comma-separated pieces gives the property back, and no piece holds a comma |
| CountrySeeder.DropTrailingEmpty | api/src/main/java/com/budgetwise/api/global/country/impl/CountryDataSeederImpl.java:25 | String.split drops trailing empty strings and only those |
| CountrySeeder.ExcludedNamesAreThePieces | api/src/main/java/com/budgetwise/api/global/country/impl/CountryDataSeederImpl.java:25-26 | the excluded set is exactly the non-trailing pieces of the property |
| CountrySeeder.NoCommaOnePiece | api/src/main/java/com/budgetwise/api/global/country/impl/CountryDataSeederImpl.java:25 | a property with no comma is a single piece |
| CountrySeeder.DefaultExcludesNothingNamed | api/src/main/java/com/budgetwise/api/global/country/impl/CountryDataSeederImpl.java:25 | the empty default excludes only the empty name |
| CountrySeeder.Transform | api/src/main/java/com/budgetwise/api/global/country/impl/CountryDataSeederImpl.java:54-79 | null exactly when the name is missing. The name and codes are copied and the flag URL is the png. The calling code is the first entry, if any. The currency is the first one when present, else NCN, "No Currency Name" and "$" |
| CountrySeeder.Pipeline | api/src/main/java/com/budgetwise/api/global/country/impl/CountryDataSeederImpl.java:39-43 | never more countries than responses |
| CountrySeeder.PipelineContents | api/src/main/java/com/budgetwise/api/global/country/impl/CountryDataSeederImpl.java:39-43 | a country is collected exactly when some response transforms to it and its name is not excluded; none has an id yet |
| CountrySeeder.PipelinePrefix | api/src/main/java/com/budgetwise/api/global/country/impl/CountryDataSeederImpl.java:39-43 | the pipeline maps a concatenation of responses to the concatenation of the results, keeping order |
| CountrySeeder.PipelineAsWritten | api/src/main/java/com/budgetwise/api/global/country/impl/CountryDataSeederImpl.java:39-41 | with a mapper that returns null the Flux fails, so collection fails exactly when some response lacks a name |
| CountrySeeder.AsWrittenAgrees | api/src/main/java/com/budgetwise/api/global/country/impl/CountryDataSeederImpl.java:39-43 | when every response is named the two pipelines agree |
| CountrySeeder.NamelessEntryAbortsSeeding | api/src/main/java/com/budgetwise/api/global/country/impl/CountryDataSeederImpl.java:40-41 | one nameless entry beside Chad aborts the whole seeding as written, while the intended filter keeps Chad |
| CountrySeeder.Numbered | api/src/main/java/com/budgetwise/api/global/country/impl/CountryDataSeederImpl.java:46 | saveAll gives the k-th country the k-th fresh id and changes nothing else |
| CountrySeeder.NumberCountries | api/src/main/java/com/budgetwise/api/global/country/impl/CountryDataSeederImpl.java:46 | the ids drawn for the batch, one per country in order |
| CountrySeeder.NumberedIsTable | api/src/main/java/com/budgetwise/api/global/country/impl/CountryDataSeederImpl.java:46 | the numbered batch is a well-formed table with ids below the new counter |
| CountrySeeder.SeedCountries | api/src/main/java/com/budgetwise/api/global/country/impl/CountryDataSeederImpl.java:29-52 | a non-empty table is skipped. An empty batch saves nothing. A batch with a null NOT NULL column or a duplicate name or code is rejected whole. Otherwise the countries table becomes exactly the numbered batch |
| AuthStore.Login | frontend/src/store/auth-store.ts:31 | login signs the user in: isAuth true, the given user, and the two given tokens |
| AuthStore.Logout | frontend/src/store/auth-store.ts:32-38 | logout clears all four fields: not signed in, no tokens, no user |
| AuthStore.SetTokens | frontend/src/store/auth-store.ts:39 | setTokens replaces the two tokens and keeps isAuth and the user as they were |
| AuthStore.LogoutIdempotent | frontend/src/store/auth-store.ts:32-38 | logging out twice is logging out once, and from any state it leaves the initial state |
| AuthStore.LogoutUndoesLogin | frontend/src/store/auth-store.ts:31-38 | a logout after a login leaves nothing of that session |
| AuthStore.SetTokensAfterLogout | frontend/src/store/auth-store.ts:39 | setTokens after a logout stores a usable access token while isAuth stays false and no user is known |
| AuthStore.Store.constructor | frontend/src/store/auth-store.ts:26-30 | the store starts signed out, with no tokens and no user |
| AuthStore.Store.DoLogin | frontend/src/store/auth-store.ts:31 | the store's new state is the login of its old state |
| AuthStore.Store.DoLogout | frontend/src/store/auth-store.ts:32-38 | the store's new state is the logout of its old state |
| AuthStore.Store.DoSetTokens | frontend/src/store/auth-store.ts:39 | the store's new state is setTokens applied to its old state |
| ApiClient.AttachToken | frontend/src/api/api-client.ts:23-32 | with a truthy access token the Authorization header becomes "Bearer " and the token. Otherwise the request is unchanged. Url, retry mark and every other header are always kept |
| ApiClient.AttachedTokenParses | frontend/src/api/api-client.ts:27 | the header the client attaches is parsed by the API's bearer-token extraction back to the same token |
| ApiClient.SettleAll | frontend/src/api/api-client.ts:42-54 | one settlement per waiter, in queue order: all rejected with the error when there is one, otherwise all resolved with the token |
| ApiClient.Replayed | frontend/src/api/api-client.ts:78-81 | a resolved waiter is replayed to the same url with "Bearer " and the token it received (null printed as "null"). A rejected waiter is not replayed |
| ApiClient.OnError | frontend/src/api/api-client.ts:59-93 | the error handler as written. A non-401, or a 401 from the refresh url, is rejected unchanged. While refreshing, the request joins the queue and waits. Otherwise the flag is raised; with no refresh token the store is logged out and the error rejected, and with one the refresh call starts and the original request is marked for retry |
| ApiClient.OnRefreshSuccess | frontend/src/api/api-client.ts:105-126 | after a successful refresh: new tokens stored with isAuth and user kept, every waiter resolved with the new access token, queue emptied, flag lowered, original request retried with the new token |
| ApiClient.OnRefreshFailure | frontend/src/api/api-client.ts:119-126 | after a failed refresh: every waiter rejected with the refresh error, store logged out, queue emptied, flag lowered, refresh error rejected |
| ApiClient.TransitionsKeepQueueInvariant | frontend/src/api/api-client.ts:74-126 | requests wait only while the flag is up, and every transition keeps this |
| ApiClient.ForbiddenNotIntercepted | frontend/src/api/api-client.ts:67-72 | a 403 is rejected as it came and nothing changes, even though the error helpers treat it as unauthorized |
| ApiClient.ReplayedRequestRefreshesAgain | frontend/src/api/api-client.ts:84 | the _retry mark is never read: a request already replayed that meets another 401 starts a second refresh |
| ApiClient.StuckWhileRefreshing | frontend/src/api/api-client.ts:74-82 | while the flag is up, any series of handled 401s only appends their requests to the queue, in order, and changes nothing else |
| ApiClient.MissingRefreshTokenLeavesFlagUp | frontend/src/api/api-client.ts:84-93 | as written, a 401 with no refresh token rejects the error, settles nobody, and leaves the flag up |
| ApiClient.AsWrittenFlagDishonest | frontend/src/api/api-client.ts:84-93 | as written, from a state where the flag is down and nobody waits, that branch raises the flag although no refresh call is pending |
| ApiClient.FailedSignInBlocksRefresh | frontend/src/api/api-client.ts:84-93 | as written: a 401 from /auth/login while signed out, then a successful sign-in, then a 401 on any other request, and that request waits in the queue instead of refreshing |
| ApiClient.OnErrorCorrected | frontend/src/api/api-client.ts:84-93 | the error handler with the flag raised only when a refresh call starts. With no refresh token it logs out and rejects, and leaves the flag and the queue as they were. The other branches are those of OnError |
| ApiClient.CorrectedKeepsFlagHonest | frontend/src/api/api-client.ts:74-126 | with the corrected handler the flag is up exactly while a refresh call is pending, and requests wait only then. A handled error starts a refresh only when none is pending. The refresh's success or failure leaves none pending |
| ApiClient.CorrectedSignInRefreshes | frontend/src/api/api-client.ts:84-118 | the same sequence of a failed sign-in, a sign-in and a 401, under the corrected handler, starts the refresh call with the stored refresh token |
| ApiClient.Interceptor.constructor | frontend/src/api/api-client.ts:35-40 | the flag starts down, the queue empty, the store the one given |
| ApiClient.Interceptor.ProcessQueue | frontend/src/api/api-client.ts:42-54 | the loop settles the old queue in order, exactly as SettleAll does, and then empties the queue |
| ApiClient.Interceptor.HandleError | frontend/src/api/api-client.ts:59-93 | the handler's new state and reaction are the as-written transition from its old state, so the flag goes up before the refresh token is looked at |
| ApiClient.Interceptor.RefreshSucceeded | frontend/src/api/api-client.ts:105-126 | new state, reaction and settlements are those of OnRefreshSuccess from the old state |
| ApiClient.Interceptor.RefreshFailed | frontend/src/api/api-client.ts:119-126 | new state, reaction and settlements are those of OnRefreshFailure from the old state |
| ErrorUtils.FromData | frontend/src/api/error-utils.ts:14-33 | a truthy message wins. Then a non-empty validation list, joined with ", ". Then a truthy error field. No text exactly when none of the three applies |
| ErrorUtils.GetErrorMessage | frontend/src/api/error-utils.ts:9-52 | an axios error shows its body's text when the body gives one. Otherwise it shows its own message, with "Network Error" replaced by the connectivity sentence. A plain Error shows its message. Anything else shows the fallback sentence |
| ErrorUtils.IsUnauthorizedError | frontend/src/api/error-utils.ts:59-67 | true exactly for an axios error with a response whose status is 401 or 403 |
| ErrorUtils.ClientShowsHandlerMessage | frontend/src/api/error-utils.ts:14-33 | for every body the API's exception handler sends, the client shows the handler's message and never the validation list. Only an empty message, which only an illegal-state 409 can produce, falls through to "Conflict" |
| AuthUtils.NowSeconds | frontend/src/api/auth-utils.ts:14 | Math.floor of milliseconds over 1000: the whole second that contains the instant |
| AuthUtils.ExpiredExactly | frontend/src/api/auth-utils.ts:10-22 | expired when the token does not decode, when exp is missing or 0. Otherwise expired exactly when exp, in milliseconds, is before the start of the current second plus the buffer |
| AuthUtils.ExpiredMonotoneInBuffer | frontend/src/api/auth-utils.ts:17 | a larger buffer never turns an expired token into a live one |
| AuthUtils.ExpiredMonotoneInTime | frontend/src/api/auth-utils.ts:14-17 | once expired, a token stays expired as time passes |
| AuthUtils.DefaultBufferIsOneMinute | frontend/src/api/auth-utils.ts:10-17 | with the default buffer, a token is expired exactly when fewer than 60 whole seconds separate the current second from exp, that is from 59 seconds before exp on |
| AuthUtils.UseIsTokenExpired | frontend/src/api/auth-utils.ts:28-34 | with no access token, or an empty one, the token counts as expired. Otherwise the hook gives the token's own expiry test |
| AuthUtils.SignedOutIsExpired | frontend/src/api/auth-utils.ts:28-34 | after a logout the hook always reports an expired token |

## Left out

- The React pages, forms, charts and the client's floating-point percentages: rendering, with no state worth stating.
- E-mail (SendGrid), SMS (Twilio), receipt upload to S3, the CSV export and the health-check calls: external I/O. The budget alert's e-mail is dropped, and its failure is swallowed in the source anyway.
- The WebClient fetch of the country list: the decoded responses are a parameter of the seeder, in the order the service sent them.
- JWT creation and verification, password hashing, `jwtDecode` and the security context: foreign code. They become parameters (the issued tokens, `encode` and `matches`, the decoder's outcome, the authenticated username).
- Sign-in through the AuthenticationManager (AuthServiceImpl's login): its outcome depends wholly on Spring Security's provider chain, which is not part of this model.
- The daily spending-trend query (`CAST(SUM … AS double)`): floating point.
- `@Transactional` rollback, the cron timing, and concurrency between the jobs and requests. Every service operation is one atomic step that either fails before writing anything or writes all it writes.
- zustand's localStorage persistence and the console logging of the client.
- Primary keys are integers from a counter that is never reused, not random UUIDs. Unique keys are what the services rely on, and the counter gives them.
- Amounts are integers in ten-thousandths, matching the NUMERIC(19, 4) columns. Arithmetic beyond that scale (19 digits of precision) is not modelled.
- String ordering (`ORDER BY name`) is code-point order. The database's collation is not modelled.
- `String.toUpperCase` maps the ASCII letters and the two non-ASCII letters whose capitals are ASCII letters (dotless i and long s). Locale-specific rules, such as the Turkish locale, are not modelled.
- The length limits of the country columns are not checked when the seeder saves its rows.
- A null element in the country Flux: only a response with no name is modelled as transforming to null.
- Refresh tokens are opaque strings, and JwtService decides which access token a refresh issues.
- A request replayed by the client re-enters the request interceptor: the model records what it is replayed with, not the second pass through the interceptors.
- The entity User in the source declares no verification-token fields, although AuthServiceImpl sets them. The model gives the user those two fields.
- The `ResourceNotFoundException` class and the `ErrorResponse` body class are not part of this model. Their exceptions are modelled by the error cases that the services raise, and the handler turns them into its catch-all 500.
- Scheduler.ProcessRecurringTransactions: `findDueRecurringTransactions` is not declared in the repository, so the due list is a parameter. The method requires only that the listed rules are stored, distinct, and due as the comment beside the call describes them: active, with a next execution date on or before today.
- NotificationService.MarkAllAsRead: `markAllAsReadForUser` is not declared in the repository, so it is a parameter. The method's contract says only that the table becomes whatever that call returns.
- BudgetAlert.CheckBudgetAfterTransaction: the configured threshold is a double in the source, and here it is the rational num/den. The comparison is therefore exact.
- BudgetAlert.AlertNotification: the alert text renders the total spent at scale 4, like an amount read back from a NUMERIC(19, 4) column. In the source the total is a `BigDecimal` sum, and the transaction just saved in the same transaction keeps the scale of the request's JSON number. So the first expense of a month sent as `600` reads "$600" in the source and "$600.0000" here. The model keeps no scale on amounts, so it cannot tell the two apart. The same text reaches BudgetAlert.CheckBudgetAfterTransaction and TransactionService.CreateTransaction.
- Length limits of the `users` columns (email 254, username 50, first and last name 100, password 100, phone number 20) are not checked when a user is saved. Only the date_format column's VARCHAR(10) is modelled, in the profile update.
- UserService.UpdateUserProfile: the validator also accepts a blank date format of any length, and one longer than ten characters is refused by the column like any other long value. The request's other constraints (`@NotBlank`, `@Email`) are not preconditions of the method.
- TransactionService.DeleteTransaction: receipts are not modelled, so neither is the NOT NULL foreign key from `receipts.transaction_id`. In the source, `Transaction.receipts` has no cascade, so deleting a transaction that has receipts is refused by the database. The model always removes the row once ownership is confirmed.
- Dashboard.GetDashboardStats: the source does not check that the start date is on or before the end date, and neither does the model. An inverted range gives a window with no days and a previous period of non-positive length.

## Findings

| source | as written | input that shows it | evidently intended | confidence | as-written member | corrected member |
|---|---|---|---|---|---|---|
| api/src/main/java/com/budgetwise/api/global/country/impl/CountryDataSeederImpl.java:40-41 | `transformToEntity` returns null for a response with no name, and Reactor's `map` does not accept a null result. The Flux fails, so `collectList().block()` throws, and nothing is seeded | the responses for Chad and for one entry with no name | the null filter that follows drops the nameless entry, and Chad is seeded | high, not executed | CountrySeeder.PipelineAsWritten (shown by CountrySeeder.NamelessEntryAbortsSeeding) | CountrySeeder.Pipeline (contents proved by CountrySeeder.PipelineContents) |
| api/src/main/java/com/budgetwise/api/user/User.java:60-62 | the date_format column is VARCHAR(10), but the `@ValidDateFormat` whitelist includes "dd-MMM-yyyy" and "MMM-dd-yyyy", which are eleven characters long. The update passes validation, and then the database refuses it | a profile update whose date format is "dd-MMM-yyyy" | every format the validator accepts can be stored, so the column holds at least eleven characters | high, not executed | UserService.UpdateUserProfile (shown by UserService.LongPatternsRefused) | UserService.ProfileSave at the eleven-character width (proved by UserService.WideColumnStoresEveryPattern) |
| frontend/src/api/api-client.ts:84-93 | `isRefreshing` is set before the refresh token is read. The branch for a missing token returns before the `try`, so the `finally` that clears the flag never runs. Every later 401 then waits in the queue, and no refresh call ever settles it | while signed out, a sign-in with a wrong password is answered 401 from /auth/login. The user then signs in, and the next 401 of an expired access token waits for ever | the flag is raised only when a refresh call starts, so a later 401 refreshes | high, not executed | ApiClient.OnError (shown by ApiClient.FailedSignInBlocksRefresh and ApiClient.AsWrittenFlagDishonest) | ApiClient.OnErrorCorrected (flag honesty proved by ApiClient.CorrectedKeepsFlagHonest and ApiClient.CorrectedSignInRefreshes) |

The country seeder's `SeedCountries` method saves the corrected pipeline's rows. `UserService.UpdateUserProfile` keeps the VARCHAR(10) column as written, since the schema is part of the program. `ProfileSave` takes the column width, so the repair is the same function at eleven characters. The client's `Interceptor` class keeps the error handler as written, because that is the behaviour the page has. `OnErrorCorrected` is the repaired transition, and its invariant is proved beside the as-written one.
