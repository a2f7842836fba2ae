/**
 * The stored entities of the expense tracker and the rules that are
 * computed from a single record: whether an income or expense recurs,
 * the newest payment of an expense, how a payment is labelled, and how an
 * amount modifier adjusts the amount of its one target.
 */
module Models {
  import opened Wrappers
  import opened Calendar
  import opened Ordering

  type UserId = nat
  type AccountId = nat
  type ExpenseId = nat

  /** The recurrence units; stored but never used to space payments. */
  datatype Recurrence = Daily | Weekly | Biweekly | Monthly | Yearly | Once

  datatype Category =
    | Housing | Transportation | Food | Utilities | Insurance | Medical
    | Savings | Personal | Entertainment | Miscellaneous | Uncategorized

  /** The two-letter code a category is stored and queried under. */
  function CategoryCode(c: Category): string
  {
    match c
    case Housing => "HO"
    case Transportation => "TR"
    case Food => "FO"
    case Utilities => "UT"
    case Insurance => "IN"
    case Medical => "ME"
    case Savings => "SA"
    case Personal => "PE"
    case Entertainment => "EN"
    case Miscellaneous => "MI"
    case Uncategorized => "UN"
  }

  /** The category a stored code stands for, if any. */
  function CategoryFromCode(code: string): (r: Option<Category>)
    ensures r.Some? ==> CategoryCode(r.value) == code
  {
    if code == "HO" then Some(Housing)
    else if code == "TR" then Some(Transportation)
    else if code == "FO" then Some(Food)
    else if code == "UT" then Some(Utilities)
    else if code == "IN" then Some(Insurance)
    else if code == "ME" then Some(Medical)
    else if code == "SA" then Some(Savings)
    else if code == "PE" then Some(Personal)
    else if code == "EN" then Some(Entertainment)
    else if code == "MI" then Some(Miscellaneous)
    else if code == "UN" then Some(Uncategorized)
    else None
  }

  /** Every category is stored under its own code: codes identify categories. */
  lemma CategoryCodeRoundTrip(c: Category)
    ensures CategoryFromCode(CategoryCode(c)) == Some(c)
  {
  }

  // Field defaults of the Income and Expense models.
  const DefaultRecurrences: int := 0
  const DefaultRecurrence: Recurrence := Once
  const DefaultCategory: Category := Uncategorized

  datatype Income = Income(
    name: string,
    account: AccountId,
    amount: real,
    numberOfRecurrences: int,
    recurrence: Recurrence)

  datatype Expense = Expense(
    id: ExpenseId,
    name: string,
    account: AccountId,
    amount: real,
    category: Category,
    numberOfRecurrences: int,
    recurrence: Recurrence,
    dateCreated: DateTime)

  /** One dated occurrence of an expense. */
  datatype Payment = Payment(date: DateTime, expense: ExpenseId)

  /** The fields a client supplies when creating an expense; omitted ones are None. */
  datatype ExpenseInput = ExpenseInput(
    name: string,
    amount: real,
    category: Option<Category>,
    numberOfRecurrences: Option<int>,
    recurrence: Option<Recurrence>)

  function OrDefault<T>(o: Option<T>, default: T): (r: T)
    ensures o.Some? ==> r == o.value
    ensures o.None? ==> r == default
  {
    if o.Some? then o.value else default
  }

  /** The expense row stored for input, with the model defaults filled in. */
  function NewExpense(input: ExpenseInput, id: ExpenseId, account: AccountId, created: DateTime): (e: Expense)
    ensures e.id == id && e.account == account && e.dateCreated == created
    ensures e.name == input.name && e.amount == input.amount
    ensures input.numberOfRecurrences.None? ==> e.numberOfRecurrences == 0
    ensures input.recurrence.None? ==> e.recurrence == Once
    ensures input.category.None? ==> e.category == Uncategorized
    ensures input.numberOfRecurrences.Some? ==> e.numberOfRecurrences == input.numberOfRecurrences.value
    ensures input.recurrence.Some? ==> e.recurrence == input.recurrence.value
    ensures input.category.Some? ==> e.category == input.category.value
  {
    Expense(id, input.name, account, input.amount,
            OrDefault(input.category, DefaultCategory),
            OrDefault(input.numberOfRecurrences, DefaultRecurrences),
            OrDefault(input.recurrence, DefaultRecurrence),
            created)
  }

  /**
   * `recurring` of both Income and Expense: any non-zero count. An
   * open-ended ("until cancelled") count reads as recurring too; apart from
   * those, a count is recurring exactly when it is positive.
   */
  predicate Recurring(numberOfRecurrences: int)
    ensures Recurring(numberOfRecurrences) <==> RecurrenceUntilCancelled(numberOfRecurrences) || numberOfRecurrences > 0
  {
    numberOfRecurrences != 0
  }

  /** `recurrence_until_cancelled` of Expense: a negative count. */
  predicate RecurrenceUntilCancelled(numberOfRecurrences: int)
  {
    numberOfRecurrences < 0
  }

  function PaymentKey(p: Payment): int
  {
    Instant(p.date)
  }

  function ExpenseKey(e: Expense): int
  {
    Instant(e.dateCreated)
  }

  /** The payments of expense id, newest date first: `expense.payments` under the `-date` ordering. */
  function PaymentsOf(payments: seq<Payment>, id: ExpenseId): (r: seq<Payment>)
    ensures forall p :: p in r <==> p in payments && p.expense == id
    ensures Descending(r, PaymentKey)
    ensures forall p :: multiset(r)[p] == if p.expense == id then multiset(payments)[p] else 0
  {
    var mine := Filter(payments, (p: Payment) => p.expense == id);
    FilterCount(payments, (p: Payment) => p.expense == id);
    SameMembers(SortDesc(mine, PaymentKey), mine);
    SortDesc(mine, PaymentKey)
  }

  /**
   * `Expense.payment_date`: the first of the expense's payments under the
   * `-date` ordering, that is a latest-dated one, or None when it has none.
   */
  function PaymentDate(payments: seq<Payment>, id: ExpenseId): (r: Option<Payment>)
    ensures r.None? <==> forall p :: p in payments ==> p.expense != id
    ensures r.Some? ==> r.value in payments && r.value.expense == id
    ensures r.Some? ==> forall p :: p in payments && p.expense == id ==> Instant(p.date) <= Instant(r.value.date)
  {
    var mine := PaymentsOf(payments, id);
    if mine == [] then None
    else
      assert forall p :: p in mine ==> PaymentKey(mine[0]) >= PaymentKey(p);
      Some(mine[0])
  }

  /**
   * `Payment.__str__`: the payment's calendar date, a bar, and the name of
   * the expense the payment belongs to. The date part reads back as the
   * payment's year, month and day.
   */
  function PaymentLabel(p: Payment, e: Expense): (s: string)
    requires ValidDateTime(p.date)
    requires p.expense == e.id
    ensures |s| == 13 + |e.name|
    ensures s[..10] == DateText(p.date)
    ensures ParseDateText(s[..10]) == (p.date.year, p.date.month, p.date.day)
    ensures s[10..13] == " | "
    ensures s[13..] == e.name
  {
    var s := DateText(p.date) + " | " + e.name;
    assert s[..10] == DateText(p.date);
    DateTextRoundTrip(p.date);
    s
  }

  /** Two payments with the same label fall on the same day and belong to expenses of the same name. */
  lemma PaymentLabelInjective(p: Payment, e: Expense, q: Payment, f: Expense)
    requires ValidDateTime(p.date) && p.expense == e.id
    requires ValidDateTime(q.date) && q.expense == f.id
    requires PaymentLabel(p, e) == PaymentLabel(q, f)
    ensures p.date.year == q.date.year && p.date.month == q.date.month && p.date.day == q.date.day
    ensures e.name == f.name
  {
  }

  // Amount modifiers.

  datatype Modifier = PercentIncrease | PercentDecrease | PercentNone

  /**
   * An adjustment attached to one income or one expense. Both targets are
   * optional here so that `Clean` can reject a modifier with none or two.
   */
  datatype AmountModifier = AmountModifier(
    name: string,
    percentModifier: Modifier,
    percent: real,
    income: Option<Income>,
    expense: Option<Expense>)

  datatype ValidationError = NoTarget | BothTargets

  /**
   * `percent_formula`: the adjusted amount for each kind of modifier. No
   * change keeps the amount; on a non-negative amount and percent an
   * increase never lowers it, and a decrease by a percent of at most 1
   * never raises it.
   */
  function PercentFormula(m: AmountModifier, amount: real): (r: real)
    ensures m.percentModifier == PercentNone ==> r == amount
    ensures m.percentModifier == PercentIncrease && amount >= 0.0 && m.percent >= 0.0 ==> r >= amount
    ensures m.percentModifier == PercentDecrease && amount >= 0.0 && 0.0 <= m.percent <= 1.0 ==> r <= amount
  {
    match m.percentModifier
    case PercentNone => amount
    case PercentIncrease => amount * (1.0 + m.percent)
    case PercentDecrease => amount * m.percent
  }

  /**
   * The three cases of `percent_formula`: no change keeps the amount, an
   * increase adds percent of it, and a decrease keeps percent of it, so a
   * decrease falls short of the increase by exactly the amount.
   */
  lemma PercentFormulaCases(m: AmountModifier, amount: real)
    ensures m.percentModifier == PercentNone ==> PercentFormula(m, amount) == amount
    ensures m.percentModifier == PercentIncrease ==> PercentFormula(m, amount) == amount + amount * m.percent
    ensures m.percentModifier == PercentDecrease ==> PercentFormula(m, amount) == amount * m.percent
    ensures PercentFormula(m.(percentModifier := PercentIncrease), amount)
            - PercentFormula(m.(percentModifier := PercentDecrease), amount) == amount
  {
  }

  /** `AmountModifier.value`: the income's adjusted amount if there is an income, else the expense's, else nothing. */
  function ModifierValue(m: AmountModifier): (r: Option<real>)
    ensures r.None? <==> m.income.None? && m.expense.None?
    ensures m.income.Some? ==> r == Some(PercentFormula(m, m.income.value.amount))
    ensures m.income.None? && m.expense.Some? ==> r == Some(PercentFormula(m, m.expense.value.amount))
  {
    if m.income.Some? then Some(PercentFormula(m, m.income.value.amount))
    else if m.expense.Some? then Some(PercentFormula(m, m.expense.value.amount))
    else None
  }

  /** `AmountModifier.clean`: accepts exactly one target, and says which rule a rejection broke. */
  function Clean(m: AmountModifier): (r: Outcome<ValidationError>)
    ensures r == Pass <==> (m.income.Some? <==> m.expense.None?)
    ensures r == Fail(NoTarget) <==> m.income.None? && m.expense.None?
    ensures r == Fail(BothTargets) <==> m.income.Some? && m.expense.Some?
  {
    if m.income.None? && m.expense.None? then Fail(NoTarget)
    else if m.income.Some? && m.expense.Some? then Fail(BothTargets)
    else Pass
  }

  /** A modifier that passes `Clean` always has a value: the adjusted amount of its one target. */
  lemma CleanModifierHasValue(m: AmountModifier)
    requires Clean(m) == Pass
    ensures ModifierValue(m).Some?
    ensures ModifierValue(m).value ==
      PercentFormula(m, if m.income.Some? then m.income.value.amount else m.expense.value.amount)
  {
  }
}
