# Expense API core, modelled in Dafny

This project models the logic of a small Django expense tracker (CodeSwallow/expense_api):

- **Creating an expense.** The expense row is stored, then one payment at the anchor date, then one payment per recurrence. Each later payment is a whole number of calendar months after the anchor, with dateutil `relativedelta` month arithmetic.
- **Model rules.** `recurring` and `recurrence_until_cancelled`, the field defaults, `payment_date` (the newest payment), the `Payment` label, and the amount modifier's `value`, `percent_formula` and `clean`.
- **Read queries.** The per-account listing, by category, most recent, by month (with its total) and upcoming payments. Each is a filter and an ordering over the stored rows. The current time is a parameter.
- **Ownership checks.** The three object permissions.

Modules:

- `Calendar` (calendar.dfy): Gregorian timestamps, `DaysInMonth`, `AddMonths` (relativedelta by months), the `YYYY-MM-DD` rendering, and `Instant`, the number that orders timestamps.
- `Ordering` (ordering.dfy): `Filter`, `SortDesc` (`order_by("-field")`) and sums over sequences.
- `Models` (models.dfy): the records and the rules computed from one record.
- `Serializers` (serializers.dfy): the class `Ledger`, whose `CreateExpense` method runs the payment loop.
- `Views` (views.dfy): the endpoints as functions, plus `CreateExpenseFor`, which creates through a `Ledger`.
- `Permissions` (permissions.dfy): the three checks.
- `Scenarios` (scenarios.dfy): the store the expense tests build, and the monthly listings and totals they expect.

Some behaviours follow the code as written:

- `expense_by_month` does not check the month or the year itself. A month in which no payment falls lists nothing (`Views.EmptyMonth`). A year outside 1..9999 is rejected by Django, not by the view; see "Left out".
- The by-category, most-recent, by-month and upcoming queries are not restricted to the requester's account.
- `upcoming_payments` keeps payments dated at `now` itself (`date__gte`).
- `expense_by_month` filters on `payment_date`. That is a property of the model, not a field of it. The model selects an expense when one of its payments lies in the month, which is what the test totals require. The total is a separate function, `Views.Total`.

## Model

| member | source | states |
|---|---|---|
| Calendar.DaysInMonth | api/serializers.py:57 | Month lengths used by relativedelta: 31 days for January, March, May, July, August, October and December; 30 for April, June, September and November; February has 29 days in leap years and 28 otherwise |
| Calendar.AddMonths | api/serializers.py:57 | `+ relativedelta(months=k)` moves the month number forward by exactly k, keeps the time of day, and keeps the day when the target month has it, else clamps to the month's last day |
| Calendar.AddMonthsClampsDay | api/serializers.py:57 | The day chosen is the latest day of the target month not after the original day |
| Calendar.AddMonthsValid | api/serializers.py:57 | While the year stays within 9999, the shifted timestamp exists |
| Calendar.AddMonthsInRange | api/serializers.py:57 | The shifted year stays within 9999 exactly when the month number stays within December 9999; past that, Python raises |
| Calendar.AddMonthsIncreasing | api/serializers.py:56-57 | More months added to the same anchor give a strictly later timestamp |
| Calendar.AddMonthsNotIterated | api/serializers.py:56-57 | Offsetting from the anchor differs from stepping month by month: Mar 31 + 2 months is May 31, but (Mar 31 + 1) + 1 is May 30 |
| Calendar.InstantOrder | api/models.py:125-126 | For real timestamps, `Instant` orders exactly as the calendar does, and equal instants mean equal timestamps, so `-date` ordering is ordering by `Instant` |
| Calendar.DateText | api/models.py:123 | `date()` rendered as text is 10 characters long: decimal digits everywhere except the dashes at positions 4 and 7 (`YYYY-MM-DD`) |
| Calendar.DateTextRoundTrip | api/models.py:122-123 | `date()` rendered as `YYYY-MM-DD` is 10 characters long and reads back as the same year, month and day |
| Ordering.Filter | api/views.py:53 | `filter(...)` keeps exactly the elements that satisfy the condition, and is no longer than its input |
| Ordering.FilterCount | api/views.py:53 | `filter(...)` keeps each passing element as many times as the input holds it, and no others |
| Ordering.SortDesc | api/models.py:114-115 | `order_by("-field")` is a rearrangement of its input (same multiset) with non-increasing keys |
| Ordering.SumByPermutation | api/tests.py:104-106 | A total does not depend on the order in which the listed expenses come |
| Models.CategoryFromCode | api/models.py:67-78 | A recognised two-letter code maps to the category stored under that code |
| Models.CategoryCodeRoundTrip | api/models.py:67-78 | Every category's code maps back to that category, so codes identify categories |
| Models.NewExpense | api/models.py:80-95 | The stored expense keeps the given name, amount and account. Omitted fields take the defaults: 0 recurrences, recurrence `ON`, category `UN` |
| Models.Recurring | api/models.py:97-99 | `recurring` holds exactly for an until-cancelled (negative) count or a positive count, so an open-ended expense also reads as recurring |
| Models.RecurrenceUntilCancelled | api/models.py:101-105 | `recurrence_until_cancelled` holds exactly for a negative count. It has no contract of its own: `Models.Recurring` and `Serializers.RecurringVersusStored` state how it relates to `recurring` and to the stored rows |
| Models.PaymentsOf | api/models.py:125-126 | `expense.payments` holds exactly the payments of that expense, each as many times as the store holds it, ordered newest date first |
| Models.PaymentDate | api/models.py:107-109 | `payment_date` is absent exactly when the expense has no payment; otherwise it is one of its payments with the latest date |
| Models.PaymentLabel | api/models.py:122-123 | A payment renders as `DateText` of its date (digits and dashes in `YYYY-MM-DD` form, reading back as its year, month and day), then ` \| `, then the name of the expense the payment belongs to |
| Models.PaymentLabelInjective | api/models.py:122-123 | Two equal labels mean the same calendar day and the same expense name |
| Models.PercentFormula | api/models.py:156-162 | No change returns the amount. With a non-negative amount and percent, an increase never lowers the amount, and a decrease by a percent of at most 1 never raises it |
| Models.PercentFormulaCases | api/models.py:156-162 | No change returns the amount; an increase returns amount × (1 + percent); a decrease returns amount × percent. The increase exceeds the decrease by exactly the amount |
| Models.ModifierValue | api/models.py:146-151 | `value` uses the income's amount when there is an income, else the expense's, and is absent when there is neither |
| Models.Clean | api/models.py:164-168 | `clean` accepts exactly one target. It rejects "neither" with the first error and "both" with the second |
| Models.CleanModifierHasValue | api/models.py:146-168 | A modifier that passes `clean` always has a value: its one target's adjusted amount |
| Serializers.ExtraPayments | api/serializers.py:49-57 | How many payments follow the anchor: none for a zero or negative count (empty `range`), otherwise the count when it fits before year 9999 ends, and exactly the months left before then when it does not |
| Serializers.Ledger.CreateExpense | api/serializers.py:48-58 | Appends the new expense with the next id. Appends the anchor payment, then the payment k months after the anchor for k = 1..R, leaving earlier rows untouched. Keeps every payment tied to a stored expense and dated at a real timestamp. Reports whether the loop finished before passing year 9999. The new expense's `payment_date` is its last scheduled payment |
| Serializers.CreatedPayments | api/serializers.py:55-57 | The rows one creation stores, in order: one per scheduled date, that is `ExtraPayments` + 1. `Serializers.Ledger.CreateExpense` is proved to append exactly these |
| Serializers.CreatedPaymentCount | api/serializers.py:55-57 | R ≥ 0 recurrences within the year range store R + 1 payments; a zero or negative count stores only the anchor payment |
| Serializers.CreatedPaymentsShape | api/serializers.py:55-57 | The first payment is at the anchor, and the k-th after it is k months after the anchor. Each lies in the calendar month after the one before. Dates strictly increase in creation order, and every date is real |
| Serializers.PaymentDateAfterCreate | api/models.py:107-109 | Right after creation, `payment_date` is the last scheduled payment. That is the anchor payment only when nothing was scheduled after it (a count of zero or less) |
| Serializers.RecurringVersusStored | api/models.py:97-99 | Within the year range, a non-negative count is `recurring` exactly when more than the anchor payment is stored. An until-cancelled count reads as recurring but stores only the anchor payment |
| Serializers.CreatedPaymentsListed | api/tests.py:85 | A freshly created expense's `payments` hold exactly the rows created for it, each once: `ExtraPayments` + 1 of them, so R + 1 for an in-range count R ≥ 0 |
| Serializers.OtherPaymentsUnchanged | api/serializers.py:54-57 | Creating payments for one expense leaves every other expense's payments exactly as they were |
| Serializers.NewPaymentsOfFreshId | api/serializers.py:55-57 | A fresh expense has exactly the payments just appended for it, in schedule order |
| Views.AccountOf | api/views.py:51 | `get_object_or_404(Account, owner=user)`: not found exactly when the user owns no account, else that account |
| Views.ListExpenses | api/views.py:50-54 | Not found exactly when the requester owns no account. Otherwise: exactly the expenses of the requester's account, each as often as stored, newest-created first |
| Views.AnchorFor | api/views.py:57-59 | The anchor is the given `payment_date`, or the current time when none was sent |
| Views.CreateExpenseFor | api/views.py:56-68 | Without an account for the requester, nothing is stored and the result is not found. Otherwise the expense is created under the requester's account, anchored by `AnchorFor`, and creation is reported complete exactly when the last scheduled payment stays within year 9999 (past that, the source raises and no 201 response is sent) |
| Views.ExpensesByCategory | api/views.py:70-84 | With no category or an empty one, the fixed message. Otherwise exactly the expenses stored under that code, each as often as stored, newest-created first |
| Views.UnknownCategoryListsNothing | api/views.py:75 | A code that names no category lists nothing, rather than failing |
| Views.MostRecentExpenses | api/views.py:86-97 | All expenses, rearranged newest-created first |
| Views.SelectedMonth | api/views.py:101-103 | The month and the year each default to the current one when not given |
| Views.ExpensesByMonth | api/views.py:99-113 | Exactly the expenses with a payment in the selected month and year, each as often as stored |
| Views.ScheduledMonths | api/views.py:104-105 | A created schedule selects its own expense for exactly the months from the anchor's month through its last payment's month, and never another expense |
| Views.MonthTotalPartition | api/tests.py:104-106 | The month's total plus the total of the expenses left out equals the total of all expenses |
| Views.EmptyMonth | api/tests.py:117-122 | A month in which no payment falls lists nothing, with total 0 |
| Views.Total | api/tests.py:106 | The `total` of a listing: the sum of its amounts. It has no contract of its own; `Ordering.SumByPermutation`, `Views.MonthTotalPartition` and `Views.EmptyMonth` state its properties |
| Views.UpcomingPayments | api/views.py:130-141 | Exactly the payments dated at or after now, from every account, each as often as stored, newest date first |
| Views.UpcomingMeansNotBefore | api/views.py:133 | For real timestamps, "at or after now" is the calendar comparison |
| Views.TestAddingMonths | api/views.py:115-121 | 2022-03-31 00:00:00 plus one month is 2022-04-30 00:00:00 |
| Permissions.IsOwner | api/permissions.py:7-10 | Not found exactly when the requesting user does not exist; otherwise granted exactly when the object's owner is that user |
| Permissions.AccountPermission | api/permissions.py:13-16 | Not found exactly when the requester owns no account; otherwise granted exactly when the object's account is the requester's |
| Permissions.PaymentPermission | api/permissions.py:19-22 | Not found exactly when the requester owns no account; otherwise granted exactly when the payment's expense's account is the requester's |
| Permissions.ListedExpensesArePermitted | api/permissions.py:13-16 | Every expense the listing shows a requester passes the account check for that requester |
| Permissions.PermissionMeansOwnership | api/permissions.py:13-22 | When each account has one owner, access to an expense, or to one of its payments, is granted exactly to that account's owner |
| Scenarios.StoredExpensesCreated | api/tests.py:25-58 | The six test expenses are the rows creation stores for the test inputs, with their defaults |
| Scenarios.CreateTestExpense | api/tests.py:53-58 | One creation of the tests on the ledger: appends the expected expense and the rows `CreatedPayments` gives for it |
| Scenarios.CreateStoredExpenses | api/tests.py:51-58 | The six creations of the tests, in order, on an empty ledger, store exactly the six test expenses and the payments the scenario lemmas use |
| Scenarios.MonthEndSchedule | api/tests.py:29-36 | The expense anchored on 2022-03-31 23:59:59 with 3 recurrences is paid on Mar 31, Apr 30, May 31 and Jun 30 |
| Scenarios.InternetSchedule | api/tests.py:37-44 | The expense anchored on 2022-04-20 with 12 recurrences has 13 payments, on the 20th of each month from April 2022 to April 2023 |
| Scenarios.StoredSelection | api/tests.py:51-58 | A stored test expense has a payment in a month exactly when that month lies between its anchor's month and its last payment's month |
| Scenarios.CurrentMonthListing | api/tests.py:98-106 | With no parameters in April 2022, the listing is Pizza, Water, WoW and Internet, each once, total 1155 |
| Scenarios.MarchListing | api/tests.py:111-116 | `?month=3` lists WoW alone, total 200 |
| Scenarios.JanuaryListing | api/tests.py:117-122 | `?month=1` lists nothing |
| Scenarios.JuneListing | api/tests.py:123-128 | `?month=6` lists Gas, WoW and Internet, each once, total 970 |
| Scenarios.OctoberListing | api/tests.py:129-134 | `?month=10` lists Internet alone, total 385 |

## Left out

- The HTTP and framework layer is not modelled: `create_user`, `AccountViewSet`, response construction, pagination, JWT authentication and the URL router. It is plumbing around the logic above.
- Parsing `payment_date` text (`strptime`) and attaching a time zone (`make_aware`) are left out. The anchor is taken as an already parsed timestamp. The month and year lookups are taken in that same zone.
- `Account.this_month_expense_average` and `monthly_expense_average` are left out. They divide floats, read the global clock, and the second divides a query set.
- Amounts and percents are exact reals. Floating-point rounding is not modelled.
- The clock (`datetime.now`, `timezone.now`) is a parameter.
- Database concerns are left out: cascade deletion, `SmallIntegerField` bounds, and whether the payment batch is one transaction.
- The migration is left out. It is generated schema.
- Debug `print`s are left out.
- Views.ExpensesByMonth: keeps the stored order instead of ordering by `-payment_date`, because `payment_date` is not a field of the shown model.
- Views.ExpensesByMonth: the response's month name and `total` keys, which the tests read, are not built by the shown view. The total is `Views.Total`.
- Ordering.SortDesc: among rows with equal keys it keeps the earlier row first. Because timestamps here have one-second resolution (see the next line), two expenses created within the same second have equal keys, and the model lists the earlier one first, where Django's `-date_created` lists the later one first by its microseconds. Only rows with identical microsecond timestamps are left in an open order by the database.
- Timestamps (`Calendar.DateTime`) are whole seconds; the microseconds of `auto_now_add` and `timezone.now()` are dropped. So expenses created within one second tie on `date_created` (their order among themselves is the reverse of Django's, as above), an anchor taken from the clock loses its sub-second part, and for `upcoming_payments` the `now` parameter must be the current time rounded up to the next whole second for `date__gte` to agree with Django on payments dated at whole seconds.
- Serializers.Ledger.CreateExpense: a month past year 9999 makes Python raise. Here the loop stops with `completed` false, and the rows stored so far remain.
- Serializers.Ledger.CreateExpense: the recurrence unit (daily, weekly, yearly) is stored but never spaces payments, in the code as in the model.
- Models.Clean: in the schema both foreign keys of `AmountModifier` are required, and Django raises `RelatedObjectDoesNotExist` when an unset required foreign key is read, rather than returning None. So `clean` as deployed either raises that exception or, when both targets are set, rejects with the "both" error. It never passes. The model follows what the method text evidently intends: it treats each target as optional, so that a modifier with exactly one target passes.
- Models.ModifierValue: for the same reason, `value` raises in Django for a modifier whose income is unset, instead of using the expense. The model follows the evident None-handling intent: the income if present, else the expense.
- Permissions.IsOwner: compares user ids rather than user objects.
- Non-integer `month` or `year` query parameters are left out. The model takes integers.
- Views.ExpensesByMonth: a year outside 1..9999 (for example 22002) makes Django's `__year` lookup raise `ValueError` while building the year's bounds. The model returns an empty listing for such a year instead.
