/**
 * The store built by the expense tests (six expenses, two of them monthly
 * recurring) and the monthly listings they expect, with the current time
 * fixed in April 2022.
 */
module Scenarios {
  import opened Wrappers
  import opened Calendar
  import opened Ordering
  import opened Models
  import opened Serializers
  import opened Views

  const Now: DateTime := DateTime(2022, 4, 25, 12, 0, 0)
  const Account: AccountId := 1

  const Pizza: Expense := Expense(0, "Pizza", Account, 220.0, Food, 0, Once, Now)
  const Tv: Expense := Expense(1, "TV", Account, 4220.0, Housing, 0, Once, Now)
  const Gas: Expense := Expense(2, "Gas", Account, 385.0, Utilities, 0, Once, Now)
  const Water: Expense := Expense(3, "Water", Account, 350.0, Utilities, 0, Once, Now)
  const Wow: Expense := Expense(4, "WoW", Account, 200.0, Personal, 3, Monthly, Now)
  const Internet: Expense := Expense(5, "Internet", Account, 385.0, Utilities, 12, Monthly, Now)

  /** The six rows are what creating the test inputs stores, omitted fields taking their defaults. */
  lemma StoredExpensesCreated()
    ensures Pizza == NewExpense(ExpenseInput("Pizza", 220.0, Some(Food), None, None), 0, Account, Now)
    ensures Tv == NewExpense(ExpenseInput("TV", 4220.0, Some(Housing), None, None), 1, Account, Now)
    ensures Gas == NewExpense(ExpenseInput("Gas", 385.0, Some(Utilities), None, None), 2, Account, Now)
    ensures Water == NewExpense(ExpenseInput("Water", 350.0, Some(Utilities), None, None), 3, Account, Now)
    ensures Wow == NewExpense(ExpenseInput("WoW", 200.0, Some(Personal), Some(3), Some(Monthly)), 4, Account, Now)
    ensures Internet == NewExpense(ExpenseInput("Internet", 385.0, Some(Utilities), Some(12), Some(Monthly)), 5, Account, Now)
  {
  }

  function Late(y: int, m: int, d: int): DateTime
  {
    DateTime(y, m, d, 23, 59, 59)
  }

  /** The rows the six creations store (see `CreateStoredExpenses`). */
  function StoredPayments(): seq<Payment>
  {
    CreatedPayments(0, Late(2022, 4, 28), 0)
    + CreatedPayments(0, Late(2022, 5, 20), 1)
    + CreatedPayments(0, Late(2022, 6, 20), 2)
    + CreatedPayments(0, Late(2022, 4, 28), 3)
    + CreatedPayments(3, Late(2022, 3, 31), 4)
    + CreatedPayments(12, Late(2022, 4, 20), 5)
  }

  function StoredExpenses(): seq<Expense>
  {
    [Pizza, Tv, Gas, Water, Wow, Internet]
  }

  /** One creation of the test suite: the account's expense `expected`, anchored at `anchor`. */
  method CreateTestExpense(ledger: Ledger, input: ExpenseInput, anchor: DateTime, ghost expected: Expense)
    requires ledger.Valid() && ValidDateTime(anchor)
    requires expected == NewExpense(input, ledger.nextId, Account, Now)
    modifies ledger
    ensures ledger.Valid() && ledger.nextId == old(ledger.nextId) + 1
    ensures ledger.expenses == old(ledger.expenses) + [expected]
    ensures ledger.payments == old(ledger.payments) + CreatedPayments(expected.numberOfRecurrences, anchor, expected.id)
  {
    var e, done := ledger.CreateExpense(input, Account, anchor, Now);
  }

  /** The six creations the expense tests make, in order, on an empty ledger store these rows. */
  method CreateStoredExpenses() returns (ledger: Ledger)
    ensures ledger.Valid()
    ensures ledger.expenses == StoredExpenses()
    ensures ledger.payments == StoredPayments()
  {
    StoredExpensesCreated();
    ledger := new Ledger();
    CreateTestExpense(ledger, ExpenseInput("Pizza", 220.0, Some(Food), None, None), Late(2022, 4, 28), Pizza);
    CreateTestExpense(ledger, ExpenseInput("TV", 4220.0, Some(Housing), None, None), Late(2022, 5, 20), Tv);
    CreateTestExpense(ledger, ExpenseInput("Gas", 385.0, Some(Utilities), None, None), Late(2022, 6, 20), Gas);
    CreateTestExpense(ledger, ExpenseInput("Water", 350.0, Some(Utilities), None, None), Late(2022, 4, 28), Water);
    CreateTestExpense(ledger, ExpenseInput("WoW", 200.0, Some(Personal), Some(3), Some(Monthly)), Late(2022, 3, 31), Wow);
    CreateTestExpense(ledger, ExpenseInput("Internet", 385.0, Some(Utilities), Some(12), Some(Monthly)), Late(2022, 4, 20), Internet);
    StoredExpensesAppended();
  }

  lemma StoredExpensesAppended()
    ensures [Pizza] + [Tv] + [Gas] + [Water] + [Wow] + [Internet] == StoredExpenses()
  {
  }


  /** A monthly expense anchored on March 31 is paid on the last day of each shorter month. */
  lemma MonthEndSchedule()
    ensures CreatedPayments(3, Late(2022, 3, 31), 4)
      == [Payment(Late(2022, 3, 31), 4), Payment(Late(2022, 4, 30), 4),
          Payment(Late(2022, 5, 31), 4), Payment(Late(2022, 6, 30), 4)]
  {
    var anchor := Late(2022, 3, 31);
    assert ExtraPayments(3, anchor) == 3;
    ScheduleAt(anchor, 3, 1);
    ScheduleAt(anchor, 3, 2);
    ScheduleAt(anchor, 3, 3);
    MonthOf(AddMonths(anchor, 1), 2022, 4);
    MonthOf(AddMonths(anchor, 2), 2022, 5);
    MonthOf(AddMonths(anchor, 3), 2022, 6);
  }

  /**
   * The twelve-times monthly expense anchored on April 20, 2022 has 13
   * payments; the k-th is on the 20th, k months later (through April 2023).
   */
  lemma InternetSchedule(k: nat)
    requires k <= 12
    ensures |CreatedPayments(12, Late(2022, 4, 20), 5)| == 13
    ensures CreatedPayments(12, Late(2022, 4, 20), 5)[k]
      == Payment(if k <= 8 then Late(2022, 4 + k, 20) else Late(2023, k - 8, 20), 5)
  {
    var anchor := Late(2022, 4, 20);
    assert ExtraPayments(12, anchor) == 12;
    ScheduleAt(anchor, 12, k);
    var r := AddMonths(anchor, k);
    if k <= 8 {
      MonthOf(r, 2022, 4 + k);
    } else {
      MonthOf(r, 2023, k - 8);
    }
  }

  const Anchors: seq<DateTime> :=
    [Late(2022, 4, 28), Late(2022, 5, 20), Late(2022, 6, 20), Late(2022, 4, 28), Late(2022, 3, 31), Late(2022, 4, 20)]

  /**
   * Whether stored expense id has a payment in the month comes down to
   * its own schedule: the month lies between its anchor's month and the
   * month of its last stored payment.
   */
  lemma StoredSelection(e: Expense, month: int, year: int)
    requires e in StoredExpenses() && 1 <= month <= 12
    ensures e == StoredExpenses()[e.id]
    ensures HasPaymentIn(StoredPayments(), e.id, month, year) <==>
      MonthIndex(Anchors[e.id]) <= year * 12 + month - 1 <= MonthIndex(Anchors[e.id]) + e.numberOfRecurrences
  {
    var id := e.id;
    var c0 := CreatedPayments(0, Late(2022, 4, 28), 0);
    var c1 := CreatedPayments(0, Late(2022, 5, 20), 1);
    var c2 := CreatedPayments(0, Late(2022, 6, 20), 2);
    var c3 := CreatedPayments(0, Late(2022, 4, 28), 3);
    var c4 := CreatedPayments(3, Late(2022, 3, 31), 4);
    var c5 := CreatedPayments(12, Late(2022, 4, 20), 5);
    HasPaymentInAppend(c0 + c1 + c2 + c3 + c4, c5, id, month, year);
    HasPaymentInAppend(c0 + c1 + c2 + c3, c4, id, month, year);
    HasPaymentInAppend(c0 + c1 + c2, c3, id, month, year);
    HasPaymentInAppend(c0 + c1, c2, id, month, year);
    HasPaymentInAppend(c0, c1, id, month, year);
    ScheduledMonths(0, Late(2022, 4, 28), 0, id, month, year);
    ScheduledMonths(0, Late(2022, 5, 20), 1, id, month, year);
    ScheduledMonths(0, Late(2022, 6, 20), 2, id, month, year);
    ScheduledMonths(0, Late(2022, 4, 28), 3, id, month, year);
    ScheduledMonths(3, Late(2022, 3, 31), 4, id, month, year);
    ScheduledMonths(12, Late(2022, 4, 20), 5, id, month, year);
  }

  /**
   * A monthly listing of distinct expenses holds, once each, exactly the
   * expected ones, given which expenses have a payment in the month.
   */
  lemma ListingMatches(expenses: seq<Expense>, payments: seq<Payment>, month: Option<int>, expected: seq<Expense>)
    requires forall i, j :: 0 <= i < j < |expenses| ==> expenses[i] != expenses[j]
    requires forall i, j :: 0 <= i < j < |expected| ==> expected[i] != expected[j]
    requires var (m, y) := SelectedMonth(month, None, Now);
      forall e :: e in expenses ==> (HasPaymentIn(payments, e.id, m, y) <==> e in expected)
    requires forall e :: e in expected ==> e in expenses
    ensures var r := ExpensesByMonth(expenses, payments, month, None, Now);
      multiset(r) == multiset(expected) && |r| == |expected| && Total(r) == Total(expected)
  {
    var r := ExpensesByMonth(expenses, payments, month, None, Now);
    DistinctCount(expenses);
    DistinctCount(expected);
    forall e
      ensures multiset(r)[e] == multiset(expected)[e]
    {
    }
    assert multiset(r) == multiset(expected);
    assert |r| == |multiset(r)|;
    SumByPermutation(r, expected, Amount);
  }

  lemma {:induction false} DistinctCount<T>(s: seq<T>)
    requires forall i, j :: 0 <= i < j < |s| ==> s[i] != s[j]
    ensures forall x :: multiset(s)[x] == if x in s then 1 else 0
  {
    if s != [] {
      assert s == [s[0]] + s[1..];
      DistinctCount(s[1..]);
    }
  }

  lemma StoredExpensesDistinct()
    ensures forall i, j :: 0 <= i < j < |StoredExpenses()| ==> StoredExpenses()[i] != StoredExpenses()[j]
  {
    var es := StoredExpenses();
    forall i, j | 0 <= i < j < |es|
      ensures es[i] != es[j]
    {
      assert es[i].id == i && es[j].id == j;
    }
  }

  /** The listing for a month of 2022 of the stored expenses, given which of them it selects. */
  lemma StoredListing(month: Option<int>, m: int, expected: seq<Expense>)
    requires SelectedMonth(month, None, Now) == (m, 2022)
    requires forall e :: e in StoredExpenses() ==> (HasPaymentIn(StoredPayments(), e.id, m, 2022) <==> e in expected)
    requires forall e :: e in expected ==> e in StoredExpenses()
    requires forall i, j :: 0 <= i < j < |expected| ==> expected[i] != expected[j]
    ensures var r := ExpensesByMonth(StoredExpenses(), StoredPayments(), month, None, Now);
      multiset(r) == multiset(expected) && |r| == |expected| && Total(r) == Total(expected)
  {
    StoredExpensesDistinct();
    ListingMatches(StoredExpenses(), StoredPayments(), month, expected);
  }

  /** Only the expense anchored on March 31 is paid in March 2022. */
  lemma MarchSelection()
    ensures forall e :: e in StoredExpenses() ==> (HasPaymentIn(StoredPayments(), e.id, 3, 2022) <==> e in [Wow])
  {
    forall e | e in StoredExpenses()
      ensures HasPaymentIn(StoredPayments(), e.id, 3, 2022) <==> e in [Wow]
    {
      StoredSelection(e, 3, 2022);
    }
  }

  lemma MarchExpected()
    ensures var expected := [Wow];
      && (forall e :: e in expected ==> e in StoredExpenses())
      && multiset(expected) == multiset{Wow}
      && Total(expected) == 200.0
  {
    TotalCons(Wow, []);
    assert [Wow] == [Wow] + [];
  }

  /** `?month=3`: one expense, total 200. */
  lemma MarchListing()
    ensures var r := ExpensesByMonth(StoredExpenses(), StoredPayments(), Some(3), None, Now);
      multiset(r) == multiset{Wow} && |r| == 1 && Total(r) == 200.0
  {
    MarchExpected();
    MarchSelection();
    StoredListing(Some(3), 3, [Wow]);
  }

  /** The one-off June expense, the March 31 expense (paid June 30) and the April 20 expense are paid in June. */
  lemma JuneSelection()
    ensures forall e :: e in StoredExpenses() ==>
      (HasPaymentIn(StoredPayments(), e.id, 6, 2022) <==> e in [Gas, Wow, Internet])
  {
    forall e | e in StoredExpenses()
      ensures HasPaymentIn(StoredPayments(), e.id, 6, 2022) <==> e in [Gas, Wow, Internet]
    {
      StoredSelection(e, 6, 2022);
    }
  }

  lemma JuneExpected()
    ensures var expected := [Gas, Wow, Internet];
      && (forall i, j :: 0 <= i < j < |expected| ==> expected[i] != expected[j])
      && (forall e :: e in expected ==> e in StoredExpenses())
      && multiset(expected) == multiset{Gas, Wow, Internet}
      && Total(expected) == 970.0
  {
    TotalCons(Internet, []);
    assert [Internet] == [Internet] + [];
    TotalCons(Wow, [Internet]);
    assert [Wow, Internet] == [Wow] + [Internet];
    TotalCons(Gas, [Wow, Internet]);
    assert [Gas, Wow, Internet] == [Gas] + [Wow, Internet];
  }

  /** `?month=6`: three expenses, total 970. */
  lemma JuneListing()
    ensures var r := ExpensesByMonth(StoredExpenses(), StoredPayments(), Some(6), None, Now);
      multiset(r) == multiset{Gas, Wow, Internet} && |r| == 3 && Total(r) == 970.0
  {
    JuneExpected();
    JuneSelection();
    StoredListing(Some(6), 6, [Gas, Wow, Internet]);
  }

  /** Only the twelve-times monthly expense is paid in October 2022. */
  lemma OctoberSelection()
    ensures forall e :: e in StoredExpenses() ==> (HasPaymentIn(StoredPayments(), e.id, 10, 2022) <==> e in [Internet])
  {
    forall e | e in StoredExpenses()
      ensures HasPaymentIn(StoredPayments(), e.id, 10, 2022) <==> e in [Internet]
    {
      StoredSelection(e, 10, 2022);
    }
  }

  lemma OctoberExpected()
    ensures var expected := [Internet];
      && (forall e :: e in expected ==> e in StoredExpenses())
      && multiset(expected) == multiset{Internet}
      && Total(expected) == 385.0
  {
    TotalCons(Internet, []);
    assert [Internet] == [Internet] + [];
  }

  /** `?month=10`: one expense, total 385. */
  lemma OctoberListing()
    ensures var r := ExpensesByMonth(StoredExpenses(), StoredPayments(), Some(10), None, Now);
      multiset(r) == multiset{Internet} && |r| == 1 && Total(r) == 385.0
  {
    OctoberExpected();
    OctoberSelection();
    StoredListing(Some(10), 10, [Internet]);
  }

  /** Nothing is paid in January 2022; the January 2023 payment is in another year. */
  lemma JanuarySelection()
    ensures forall e :: e in StoredExpenses() ==> !HasPaymentIn(StoredPayments(), e.id, 1, 2022)
  {
    forall e | e in StoredExpenses()
      ensures !HasPaymentIn(StoredPayments(), e.id, 1, 2022)
    {
      StoredSelection(e, 1, 2022);
    }
  }

  /** `?month=1`: no expenses, total 0, and no error. */
  lemma JanuaryListing()
    ensures ExpensesByMonth(StoredExpenses(), StoredPayments(), Some(1), None, Now) == []
  {
    JanuarySelection();
    StoredListing(Some(1), 1, []);
  }

  /** In April 2022 the two April 28 expenses, the March 31 expense and the April 20 expense are paid. */
  lemma AprilSelection()
    ensures forall e :: e in StoredExpenses() ==>
      (HasPaymentIn(StoredPayments(), e.id, 4, 2022) <==> e in [Pizza, Water, Wow, Internet])
  {
    forall e | e in StoredExpenses()
      ensures HasPaymentIn(StoredPayments(), e.id, 4, 2022) <==> e in [Pizza, Water, Wow, Internet]
    {
      StoredSelection(e, 4, 2022);
    }
  }

  lemma AprilExpected()
    ensures var expected := [Pizza, Water, Wow, Internet];
      && (forall i, j :: 0 <= i < j < |expected| ==> expected[i] != expected[j])
      && (forall e :: e in expected ==> e in StoredExpenses())
      && multiset(expected) == multiset{Pizza, Water, Wow, Internet}
      && Total(expected) == 1155.0
  {
    TotalCons(Internet, []);
    assert [Internet] == [Internet] + [];
    TotalCons(Wow, [Internet]);
    assert [Wow, Internet] == [Wow] + [Internet];
    TotalCons(Water, [Wow, Internet]);
    assert [Water, Wow, Internet] == [Water] + [Wow, Internet];
    TotalCons(Pizza, [Water, Wow, Internet]);
    assert [Pizza, Water, Wow, Internet] == [Pizza] + [Water, Wow, Internet];
  }

  /** No month or year given, with the clock in April 2022: four expenses, total 1155. */
  lemma CurrentMonthListing()
    ensures var r := ExpensesByMonth(StoredExpenses(), StoredPayments(), None, None, Now);
      multiset(r) == multiset{Pizza, Water, Wow, Internet} && |r| == 4 && Total(r) == 1155.0
  {
    AprilExpected();
    AprilSelection();
    StoredListing(None, 4, [Pizza, Water, Wow, Internet]);
  }
}
