/**
 * Creating an expense: the expense row, one payment at the anchor, then one
 * payment per recurrence, each a whole number of calendar months after the
 * anchor.
 */
module Serializers {
  import opened Wrappers
  import opened Calendar
  import opened Ordering
  import opened Models

  /** Months that can still be added to anchor before the year passes MaxYear. */
  function Headroom(anchor: DateTime): int
  {
    MaxYear * 12 + 11 - MonthIndex(anchor)
  }

  /**
   * How many payments after the anchor are stored for a count of
   * recurrences: none for a zero or negative count (an empty `range`),
   * otherwise the count, cut short where the year would pass MaxYear.
   */
  function ExtraPayments(recurrences: int, anchor: DateTime): (n: nat)
    requires ValidDateTime(anchor)
    ensures n <= Headroom(anchor)
    ensures recurrences <= 0 ==> n == 0
    ensures 0 < recurrences <= Headroom(anchor) ==> n == recurrences
    ensures recurrences > Headroom(anchor) ==> n == Headroom(anchor)
  {
    if recurrences <= 0 then 0
    else if recurrences <= Headroom(anchor) then recurrences
    else Headroom(anchor)
  }

  /** The anchor followed by the dates n months after it, each offset from the anchor itself. */
  function Schedule(anchor: DateTime, n: nat): (r: seq<DateTime>)
    requires 1 <= anchor.month <= 12
    ensures |r| == n + 1
  {
    seq(n + 1, k requires 0 <= k => AddMonths(anchor, k))
  }

  /** One payment of expense id per date, in the same order. */
  function Tagged(dates: seq<DateTime>, id: ExpenseId): (r: seq<Payment>)
    ensures |r| == |dates|
    ensures forall p :: p in r ==> p.expense == id
  {
    seq(|dates|, j requires 0 <= j < |dates| => Payment(dates[j], id))
  }

  /** The k-th date of a schedule is the anchor moved k months; the first is the anchor. */
  lemma ScheduleAt(anchor: DateTime, n: nat, k: nat)
    requires ValidDateTime(anchor)
    requires k <= n
    ensures Schedule(anchor, n)[k] == AddMonths(anchor, k)
    ensures Schedule(anchor, n)[0] == anchor
  {
    AddZeroMonths(anchor);
  }

  /** Each date lies in the k-th calendar month after the anchor's month. */
  lemma ScheduleConsecutiveMonths(anchor: DateTime, n: nat)
    requires ValidDateTime(anchor)
    ensures forall k :: 0 <= k <= n ==> MonthIndex(Schedule(anchor, n)[k]) == MonthIndex(anchor) + k
  {
  }

  /** Within the year range every scheduled date exists, and the dates strictly increase. */
  lemma ScheduleIncreasing(anchor: DateTime, n: nat)
    requires ValidDateTime(anchor)
    requires n <= Headroom(anchor)
    ensures forall k :: 0 <= k <= n ==> ValidDateTime(Schedule(anchor, n)[k])
    ensures forall j, k :: 0 <= j < k <= n ==> Instant(Schedule(anchor, n)[j]) < Instant(Schedule(anchor, n)[k])
  {
    var s := Schedule(anchor, n);
    forall k | 0 <= k <= n
      ensures ValidDateTime(s[k])
    {
      AddMonthsInRange(anchor, k);
      AddMonthsValid(anchor, k);
    }
    forall j, k | 0 <= j < k <= n
      ensures Instant(s[j]) < Instant(s[k])
    {
      AddMonthsInRange(anchor, k);
      AddMonthsIncreasing(anchor, j, k);
    }
  }

  lemma ScheduleExtend(anchor: DateTime, n: nat)
    requires ValidDateTime(anchor)
    ensures Schedule(anchor, n + 1) == Schedule(anchor, n) + [AddMonths(anchor, n + 1)]
  {
  }

  lemma TaggedAppend(dates: seq<DateTime>, d: DateTime, id: ExpenseId)
    ensures Tagged(dates + [d], id) == Tagged(dates, id) + [Payment(d, id)]
  {
  }

  /** The payments created for one expense: the anchor plus the stored recurrences. */
  function CreatedPayments(recurrences: int, anchor: DateTime, id: ExpenseId): (r: seq<Payment>)
    requires ValidDateTime(anchor)
    ensures |r| == ExtraPayments(recurrences, anchor) + 1
  {
    Tagged(Schedule(anchor, ExtraPayments(recurrences, anchor)), id)
  }

  /**
   * A count R >= 0 that stays within the year range stores R + 1 payments;
   * a zero, negative ("until cancelled") count stores only the anchor payment.
   */
  lemma CreatedPaymentCount(recurrences: int, anchor: DateTime, id: ExpenseId)
    requires ValidDateTime(anchor)
    ensures 0 <= recurrences <= Headroom(anchor) ==> |CreatedPayments(recurrences, anchor, id)| == recurrences + 1
    ensures recurrences <= 0 ==> CreatedPayments(recurrences, anchor, id) == [Payment(anchor, id)]
  {
    AddZeroMonths(anchor);
  }

  /**
   * The created payments, in creation order: the first is at the anchor,
   * the k-th after it is k months after the anchor, each lies in the next
   * calendar month after the one before, and the dates strictly increase.
   */
  lemma CreatedPaymentsShape(recurrences: int, anchor: DateTime, id: ExpenseId)
    requires ValidDateTime(anchor)
    ensures var ps := CreatedPayments(recurrences, anchor, id);
      && ps[0] == Payment(anchor, id)
      && (forall k :: 0 <= k < |ps| ==> ps[k] == Payment(AddMonths(anchor, k), id) && ValidDateTime(ps[k].date))
      && (forall k :: 0 < k < |ps| ==> MonthIndex(ps[k].date) == MonthIndex(ps[k - 1].date) + 1)
      && (forall j, k :: 0 <= j < k < |ps| ==> Instant(ps[j].date) < Instant(ps[k].date))
  {
    var n := ExtraPayments(recurrences, anchor);
    AddZeroMonths(anchor);
    ScheduleIncreasing(anchor, n);
    ScheduleConsecutiveMonths(anchor, n);
  }

  /**
   * `payment_date` of a freshly created expense is its last scheduled
   * payment, not the anchor (unless nothing was scheduled after it).
   */
  lemma {:induction false} PaymentDateAfterCreate(stored: seq<Payment>, recurrences: int, anchor: DateTime, id: ExpenseId)
    requires ValidDateTime(anchor)
    requires forall p :: p in stored ==> p.expense != id
    ensures var n := ExtraPayments(recurrences, anchor);
      PaymentDate(stored + CreatedPayments(recurrences, anchor, id), id) == Some(Payment(AddMonths(anchor, n), id))
  {
    var n := ExtraPayments(recurrences, anchor);
    var created := CreatedPayments(recurrences, anchor, id);
    var all := stored + created;
    CreatedPaymentsShape(recurrences, anchor, id);
    var last := created[n];
    assert last in all;
    var r := PaymentDate(all, id);
    assert r.Some?;
    assert r.value in created by {
      if r.value in stored {
        assert false;
      }
    }
    var j :| 0 <= j < |created| && created[j] == r.value;
    assert Instant(last.date) <= Instant(r.value.date);
    assert j == n;
    assert r.value == Payment(AddMonths(anchor, n), id);
  }

  /**
   * `recurring` against what is stored: within the year range a
   * non-negative count is recurring exactly when more than the anchor
   * payment is stored, and an "until cancelled" count stores only the
   * anchor payment although it reads as recurring.
   */
  lemma RecurringVersusStored(recurrences: int, anchor: DateTime, id: ExpenseId)
    requires ValidDateTime(anchor)
    requires recurrences <= Headroom(anchor)
    ensures recurrences >= 0 ==> (Recurring(recurrences) <==> |CreatedPayments(recurrences, anchor, id)| > 1)
    ensures RecurrenceUntilCancelled(recurrences) ==>
      Recurring(recurrences) && |CreatedPayments(recurrences, anchor, id)| == 1
  {
    CreatedPaymentCount(recurrences, anchor, id);
  }

  /**
   * Ids are issued in order from 0, so the expense with id k is the k-th
   * stored; every payment belongs to a stored expense and has a real date.
   */
  ghost predicate ValidRows(expenses: seq<Expense>, payments: seq<Payment>, nextId: ExpenseId)
  {
    && |expenses| == nextId
    && (forall k :: 0 <= k < |expenses| ==> expenses[k].id == k)
    && (forall p :: p in payments ==> p.expense < nextId && ValidDateTime(p.date))
  }

  /** Appending a payment of a stored expense at a real date keeps the rows valid. */
  lemma AppendPaymentValid(expenses: seq<Expense>, payments: seq<Payment>, nextId: ExpenseId, p: Payment)
    requires ValidRows(expenses, payments, nextId)
    requires p.expense < nextId && ValidDateTime(p.date)
    ensures ValidRows(expenses, payments + [p], nextId)
  {
  }

  /** The payment table: every row the store holds, in insertion order. */
  class Ledger {
    var expenses: seq<Expense>
    var payments: seq<Payment>
    var nextId: ExpenseId

    ghost predicate Valid()
      reads this
    {
      ValidRows(expenses, payments, nextId)
    }

    constructor ()
      ensures Valid()
      ensures expenses == [] && payments == [] && nextId == 0
    {
      expenses, payments, nextId := [], [], 0;
    }

    /**
     * `ExpenseSerializer.create`: stores the expense, then the payment at
     * the anchor, then one payment per recurrence at anchor + (i+1) months.
     * `completed` is false when a date would fall after year MaxYear; the
     * rows stored until then remain.
     */
    method CreateExpense(input: ExpenseInput, account: AccountId, anchor: DateTime, now: DateTime)
      returns (e: Expense, completed: bool)
      requires Valid()
      requires ValidDateTime(anchor)
      modifies this
      ensures Valid()
      ensures e == NewExpense(input, old(nextId), account, now)
      ensures expenses == old(expenses) + [e] && nextId == old(nextId) + 1
      ensures completed <==> e.numberOfRecurrences <= Headroom(anchor)
      ensures payments == old(payments) + CreatedPayments(e.numberOfRecurrences, anchor, e.id)
      ensures PaymentDate(payments, e.id)
              == Some(Payment(AddMonths(anchor, ExtraPayments(e.numberOfRecurrences, anchor)), e.id))
    {
      ghost var before := payments;
      e := NewExpense(input, nextId, account, now);
      var recurrences := OrDefault(input.numberOfRecurrences, 0);
      assert recurrences == e.numberOfRecurrences;
      expenses := expenses + [e];
      nextId := nextId + 1;
      AppendPaymentValid(expenses, payments, nextId, Payment(anchor, e.id));
      payments := payments + [Payment(anchor, e.id)];
      assert Schedule(anchor, 0) == [anchor] by { AddZeroMonths(anchor); }
      completed := true;
      var i := 0;
      while i < recurrences
        invariant 0 <= i <= Headroom(anchor)
        invariant i <= recurrences || i == 0
        invariant !completed ==> i == Headroom(anchor) < recurrences
        invariant expenses == old(expenses) + [e] && nextId == old(nextId) + 1
        invariant payments == before + Tagged(Schedule(anchor, i), e.id)
        invariant Valid()
        decreases recurrences - i, completed
      {
        var date := AddMonths(anchor, i + 1);
        AddMonthsInRange(anchor, i + 1);
        if date.year > MaxYear {
          completed := false;
          break;
        }
        AddMonthsValid(anchor, i + 1);
        ScheduleExtend(anchor, i);
        TaggedAppend(Schedule(anchor, i), date, e.id);
        ghost var tagged := Tagged(Schedule(anchor, i), e.id) + [Payment(date, e.id)];
        assert Tagged(Schedule(anchor, i + 1), e.id) == tagged;
        AppendPaymentValid(expenses, payments, nextId, Payment(date, e.id));
        payments := payments + [Payment(date, e.id)];
        assert payments == before + tagged;
        i := i + 1;
      }
      assert i == ExtraPayments(e.numberOfRecurrences, anchor);
      assert forall p :: p in before ==> p.expense != e.id;
      PaymentDateAfterCreate(before, e.numberOfRecurrences, anchor, e.id);
    }
  }

  /** Rows already stored for other expenses are untouched when new ones are appended for id. */
  lemma {:induction false} OtherPaymentsUnchanged(stored: seq<Payment>, dates: seq<DateTime>, id: ExpenseId, other: ExpenseId)
    requires other != id
    ensures Filter(stored + Tagged(dates, id), (p: Payment) => p.expense == other)
            == Filter(stored, (p: Payment) => p.expense == other)
  {
    var keep := (p: Payment) => p.expense == other;
    FilterAppend(stored, Tagged(dates, id), keep);
    FilterNone(Tagged(dates, id), keep);
  }

  /**
   * `expense.payments` of a freshly created expense holds exactly the rows
   * created for it, each once: R + 1 of them for a count R within the year range.
   */
  lemma CreatedPaymentsListed(stored: seq<Payment>, recurrences: int, anchor: DateTime, id: ExpenseId)
    requires ValidDateTime(anchor)
    requires forall p :: p in stored ==> p.expense != id
    ensures multiset(PaymentsOf(stored + CreatedPayments(recurrences, anchor, id), id))
            == multiset(CreatedPayments(recurrences, anchor, id))
    ensures |PaymentsOf(stored + CreatedPayments(recurrences, anchor, id), id)| == ExtraPayments(recurrences, anchor) + 1
  {
    var created := CreatedPayments(recurrences, anchor, id);
    var r := PaymentsOf(stored + created, id);
    forall p: Payment
      ensures multiset(r)[p] == multiset(created)[p]
    {
      assert p in stored ==> p.expense != id;
      assert p in created ==> p.expense == id;
    }
    assert multiset(r) == multiset(created);
    assert |r| == |multiset(r)| == |multiset(created)| == |created|;
  }

  /** A fresh expense id has exactly the payments just appended for it, in schedule order. */
  lemma {:induction false} NewPaymentsOfFreshId(stored: seq<Payment>, dates: seq<DateTime>, id: ExpenseId)
    requires forall p :: p in stored ==> p.expense != id
    ensures Filter(stored + Tagged(dates, id), (p: Payment) => p.expense == id) == Tagged(dates, id)
  {
    var keep := (p: Payment) => p.expense == id;
    FilterAppend(stored, Tagged(dates, id), keep);
    FilterNone(stored, keep);
    FilterAll(Tagged(dates, id), keep);
  }
}
