/**
 * The read queries of the expense and payment endpoints, as filters and
 * orderings over the stored rows, with the current time passed in, and
 * the create endpoint, which picks the anchor and the requester's account.
 */
module Views {
  import opened Wrappers
  import opened Calendar
  import opened Ordering
  import opened Models
  import opened Serializers

  datatype ApiError = NotFound

  /** The account owned by user: `get_object_or_404(Account, owner=user)`. */
  function AccountOf(owners: map<UserId, AccountId>, user: UserId): (r: Result<AccountId, ApiError>)
    ensures r.Err? <==> user !in owners
    ensures r.Ok? ==> r.value == owners[user]
  {
    if user in owners then Ok(owners[user]) else Err(NotFound)
  }

  /**
   * `ExpenseViewSet.get_queryset`: the expenses of the requester's account,
   * newest-created first; not found when the requester owns no account.
   */
  function ListExpenses(owners: map<UserId, AccountId>, expenses: seq<Expense>, user: UserId)
    : (r: Result<seq<Expense>, ApiError>)
    ensures r.Err? <==> user !in owners
    ensures r.Ok? ==> forall e :: e in r.value <==> e in expenses && e.account == owners[user]
    ensures r.Ok? ==> Descending(r.value, ExpenseKey)
    ensures r.Ok? ==> forall e :: multiset(r.value)[e] == if e.account == owners[user] then multiset(expenses)[e] else 0
  {
    match AccountOf(owners, user)
    case Err(err) => Err(err)
    case Ok(account) =>
      var mine := (e: Expense) => e.account == account;
      FilterCount(expenses, mine);
      SameMembers(SortDesc(Filter(expenses, mine), ExpenseKey), Filter(expenses, mine));
      Ok(SortDesc(Filter(expenses, mine), ExpenseKey))
  }

  /** The anchor of a new expense: the given payment date, or the current time when none was sent. */
  function AnchorFor(given: Option<DateTime>, now: DateTime): (r: DateTime)
    ensures given.Some? ==> r == given.value
    ensures given.None? ==> r == now
  {
    OrDefault(given, now)
  }

  /**
   * `ExpenseViewSet.create` with `perform_create`: looks up the requester's
   * account (not found: nothing is stored), then creates the expense with
   * the anchor from `AnchorFor`.
   */
  method CreateExpenseFor(ledger: Ledger, owners: map<UserId, AccountId>, user: UserId,
                          input: ExpenseInput, given: Option<DateTime>, now: DateTime)
    returns (r: Result<Expense, ApiError>, completed: bool)
    requires ledger.Valid()
    requires given.Some? ==> ValidDateTime(given.value)
    requires ValidDateTime(now)
    modifies ledger
    ensures ledger.Valid()
    ensures r.Err? <==> user !in owners
    ensures r.Err? ==> ledger.expenses == old(ledger.expenses) && ledger.payments == old(ledger.payments)
                        && ledger.nextId == old(ledger.nextId) && !completed
    ensures r.Ok? ==> r.value == NewExpense(input, old(ledger.nextId), owners[user], now)
    ensures r.Ok? ==> ledger.expenses == old(ledger.expenses) + [r.value]
    ensures r.Ok? ==>
      ledger.payments == old(ledger.payments) + CreatedPayments(r.value.numberOfRecurrences, AnchorFor(given, now), r.value.id)
    ensures r.Ok? ==> (completed <==> r.value.numberOfRecurrences <= Headroom(AnchorFor(given, now)))
  {
    var account := AccountOf(owners, user);
    if account.Err? {
      return Err(account.error), false;
    }
    var e;
    e, completed := ledger.CreateExpense(input, account.value, AnchorFor(given, now), now);
    r := Ok(e);
  }

  /** The answer of `expenses_by_category`: a fixed message when no category was sent, else the list. */
  datatype CategoryResponse = NoCategoryChosen | Listing(expenses: seq<Expense>)

  /**
   * `expenses_by_category`: with a non-empty category code, the expenses
   * stored under that code, newest-created first; otherwise the message.
   * The query is over all accounts.
   */
  function ExpensesByCategory(expenses: seq<Expense>, category: Option<string>): (r: CategoryResponse)
    ensures r.NoCategoryChosen? <==> category.None? || category.value == ""
    ensures r.Listing? ==> forall e :: e in r.expenses <==> e in expenses && CategoryCode(e.category) == category.value
    ensures r.Listing? ==> Descending(r.expenses, ExpenseKey)
    ensures r.Listing? ==>
      forall e :: multiset(r.expenses)[e] == if CategoryCode(e.category) == category.value then multiset(expenses)[e] else 0
  {
    if category.None? || category.value == "" then NoCategoryChosen
    else
      var code := category.value;
      var filed := Filter(expenses, (e: Expense) => CategoryCode(e.category) == code);
      FilterCount(expenses, (e: Expense) => CategoryCode(e.category) == code);
      SameMembers(SortDesc(filed, ExpenseKey), filed);
      Listing(SortDesc(filed, ExpenseKey))
  }

  /** A code that names no category lists nothing, rather than failing. */
  lemma UnknownCategoryListsNothing(expenses: seq<Expense>, code: string)
    requires code != "" && CategoryFromCode(code).None?
    ensures ExpensesByCategory(expenses, Some(code)) == Listing([])
  {
    forall e | e in expenses
      ensures CategoryCode(e.category) != code
    {
      CategoryCodeRoundTrip(e.category);
    }
    FilterNone(expenses, (e: Expense) => CategoryCode(e.category) == code);
  }

  /** `most_recent_expenses`: every stored expense, newest-created first. */
  function MostRecentExpenses(expenses: seq<Expense>): (r: seq<Expense>)
    ensures multiset(r) == multiset(expenses)
    ensures Descending(r, ExpenseKey)
  {
    SortDesc(expenses, ExpenseKey)
  }

  /** The month and year asked for, each defaulting to the current one. */
  function SelectedMonth(month: Option<int>, year: Option<int>, now: DateTime): (r: (int, int))
    ensures r.0 == (if month.Some? then month.value else now.month)
    ensures r.1 == (if year.Some? then year.value else now.year)
  {
    (OrDefault(month, now.month), OrDefault(year, now.year))
  }

  predicate InMonth(d: DateTime, month: int, year: int)
  {
    d.month == month && d.year == year
  }

  /** The expense has at least one payment dated in the given month of the given year. */
  predicate HasPaymentIn(payments: seq<Payment>, id: ExpenseId, month: int, year: int)
  {
    exists p :: p in payments && p.expense == id && InMonth(p.date, month, year)
  }

  /**
   * `expense_by_month`: the expenses with a payment in the selected month
   * and year, each listed once, in stored order. The query is over all
   * accounts, and a month or year no payment has selects nothing.
   */
  function ExpensesByMonth(expenses: seq<Expense>, payments: seq<Payment>,
                           month: Option<int>, year: Option<int>, now: DateTime): (r: seq<Expense>)
    ensures var (m, y) := SelectedMonth(month, year, now);
      forall e :: e in r <==> e in expenses && HasPaymentIn(payments, e.id, m, y)
    ensures var (m, y) := SelectedMonth(month, year, now);
      forall e :: multiset(r)[e] == if HasPaymentIn(payments, e.id, m, y) then multiset(expenses)[e] else 0
  {
    var (m, y) := SelectedMonth(month, year, now);
    var paid := (e: Expense) => HasPaymentIn(payments, e.id, m, y);
    FilterCount(expenses, paid);
    Filter(expenses, paid)
  }

  lemma HasPaymentInAppend(s: seq<Payment>, t: seq<Payment>, id: ExpenseId, month: int, year: int)
    ensures HasPaymentIn(s + t, id, month, year) <==> HasPaymentIn(s, id, month, year) || HasPaymentIn(t, id, month, year)
  {
    if HasPaymentIn(s + t, id, month, year) {
      var p :| p in s + t && p.expense == id && InMonth(p.date, month, year);
      assert p in s || p in t;
    }
  }

  /** Two timestamps lie in the same month of the same year exactly when their month numbers agree. */
  lemma SameMonthIndex(d: DateTime, month: int, year: int)
    requires 1 <= d.month <= 12 && 1 <= month <= 12
    ensures InMonth(d, month, year) <==> MonthIndex(d) == year * 12 + month - 1
  {
  }

  /**
   * The payments created for an expense select it for exactly the months
   * from the anchor's month through the month of its last stored payment,
   * and never select another expense.
   */
  lemma ScheduledMonths(recurrences: int, anchor: DateTime, owner: ExpenseId, id: ExpenseId, month: int, year: int)
    requires ValidDateTime(anchor) && 1 <= month <= 12
    ensures HasPaymentIn(CreatedPayments(recurrences, anchor, owner), id, month, year) <==>
      id == owner && MonthIndex(anchor) <= year * 12 + month - 1 <= MonthIndex(anchor) + ExtraPayments(recurrences, anchor)
  {
    var ps := CreatedPayments(recurrences, anchor, owner);
    var n := ExtraPayments(recurrences, anchor);
    CreatedPaymentsShape(recurrences, anchor, owner);
    if HasPaymentIn(ps, id, month, year) {
      var p :| p in ps && p.expense == id && InMonth(p.date, month, year);
      var k :| 0 <= k < |ps| && ps[k] == p;
      SameMonthIndex(p.date, month, year);
    }
    if id == owner && MonthIndex(anchor) <= year * 12 + month - 1 <= MonthIndex(anchor) + n {
      var k := year * 12 + month - 1 - MonthIndex(anchor);
      SameMonthIndex(ps[k].date, month, year);
      assert ps[k] in ps;
    }
  }

  /** The sum of the amounts of the listed expenses: the `total` of a monthly listing. */
  function Total(expenses: seq<Expense>): real
  {
    SumBy(expenses, Amount)
  }

  function Amount(e: Expense): real
  {
    e.amount
  }

  lemma TotalCons(e: Expense, rest: seq<Expense>)
    ensures Total([e] + rest) == e.amount + Total(rest)
    ensures Total([]) == 0.0
  {
    assert ([e] + rest)[1..] == rest;
  }

  /** The expenses with no payment in the given month and year. */
  function ExpensesOutsideMonth(expenses: seq<Expense>, payments: seq<Payment>, month: int, year: int): seq<Expense>
  {
    Filter(expenses, (e: Expense) => !HasPaymentIn(payments, e.id, month, year))
  }

  /**
   * The monthly total and the total of the expenses left out of the month
   * add up to the total of all expenses: each expense is counted once.
   */
  lemma MonthTotalPartition(expenses: seq<Expense>, payments: seq<Payment>, month: int, year: int, now: DateTime)
    ensures Total(ExpensesByMonth(expenses, payments, Some(month), Some(year), now))
            + Total(ExpensesOutsideMonth(expenses, payments, month, year))
            == Total(expenses)
  {
    SumByPartition(expenses, (e: Expense) => HasPaymentIn(payments, e.id, month, year),
                   (e: Expense) => !HasPaymentIn(payments, e.id, month, year), Amount);
  }

  /** A month no payment falls in lists nothing and totals zero. */
  lemma EmptyMonth(expenses: seq<Expense>, payments: seq<Payment>, month: int, year: int, now: DateTime)
    requires forall p :: p in payments ==> !InMonth(p.date, month, year)
    ensures ExpensesByMonth(expenses, payments, Some(month), Some(year), now) == []
    ensures Total(ExpensesByMonth(expenses, payments, Some(month), Some(year), now)) == 0.0
  {
    FilterNone(expenses, (e: Expense) => HasPaymentIn(payments, e.id, month, year));
  }

  /**
   * `upcoming_payments`: the payments dated at or after now, newest date
   * first, from every account.
   */
  function UpcomingPayments(payments: seq<Payment>, now: DateTime): (r: seq<Payment>)
    ensures forall p :: p in r <==> p in payments && Instant(p.date) >= Instant(now)
    ensures Descending(r, PaymentKey)
    ensures forall p :: multiset(r)[p] == if Instant(p.date) >= Instant(now) then multiset(payments)[p] else 0
  {
    var upcoming := (p: Payment) => Instant(p.date) >= Instant(now);
    FilterCount(payments, upcoming);
    SameMembers(SortDesc(Filter(payments, upcoming), PaymentKey), Filter(payments, upcoming));
    SortDesc(Filter(payments, upcoming), PaymentKey)
  }

  /** For real dates, "at or after now" in `UpcomingPayments` is the calendar comparison. */
  lemma UpcomingMeansNotBefore(payments: seq<Payment>, now: DateTime, p: Payment)
    requires ValidDateTime(now) && ValidDateTime(p.date)
    ensures p in UpcomingPayments(payments, now) <==> p in payments && !Before(p.date, now)
  {
    InstantOrder(p.date, now);
  }

  /** `test_adding_months`: one month after 2022-03-31 00:00:00 is 2022-04-30 00:00:00. */
  function TestAddingMonths(): (r: DateTime)
    ensures r == DateTime(2022, 4, 30, 0, 0, 0)
  {
    AddMonths(DateTime(2022, 3, 31, 0, 0, 0), 1)
  }
}
