/**
 * Bills issued by a business to an individual customer. The amount, due date,
 * RF code, provider and the two users never change once a bill exists; the
 * status and the paid date do, through markAsPaid, checkAndUpdateOverdue and
 * the setters that undoing a payment uses.
 */
module Bills {
  import opened Wrappers
  import opened Dates
  import opened Users

  datatype BillStatus = Unpaid | Paid | Overdue | Cancelled

  /** The fields of a bill that change. */
  datatype BillState = BillState(status: BillStatus, paidDate: Option<DateTime>)

  /** Bill.markAsPaid: PAID from any status, with the given time. */
  function MarkedPaid(s: BillState, at: DateTime): BillState {
    BillState(Paid, Some(at))
  }

  /** Bill.isOverdue: still UNPAID and the date is strictly after the due date. */
  predicate OverdueOn(s: BillState, dueDate: Date, today: Date) {
    s.status == Unpaid && IsAfter(today, dueDate)
  }

  /** Bill.checkAndUpdateOverdue. */
  function Aged(s: BillState, dueDate: Date, today: Date): BillState {
    if OverdueOn(s, dueDate, today) then s.(status := Overdue) else s
  }

  /** A status the bill still has to be paid in (the managers' UNPAID-or-OVERDUE filter). */
  predicate Outstanding(status: BillStatus) {
    status == Unpaid || status == Overdue
  }

  class Bill {
    const id: string
    const providerName: string
    const amount: real
    const dueDate: Date
    const rfCode: string
    const owner: User
    const issuer: User?
    var status: BillStatus
    var paidDate: Option<DateTime>

    function State(): BillState
      reads this
    {
      BillState(status, paidDate)
    }

    /** A new bill is UNPAID and has no paid date. */
    constructor(id: string, providerName: string, amount: real, dueDate: Date,
                rfCode: string, owner: User, issuer: User?)
      ensures this.id == id && this.providerName == providerName && this.amount == amount
      ensures this.dueDate == dueDate && this.rfCode == rfCode
      ensures this.owner == owner && this.issuer == issuer
      ensures State() == BillState(Unpaid, None)
    {
      this.id := id;
      this.providerName := providerName;
      this.amount := amount;
      this.dueDate := dueDate;
      this.rfCode := rfCode;
      this.owner := owner;
      this.issuer := issuer;
      this.status := Unpaid;
      this.paidDate := None;
    }

    method MarkAsPaid(at: DateTime)
      modifies this
      ensures State() == MarkedPaid(old(State()), at)
    {
      status := Paid;
      paidDate := Some(at);
    }

    /** isOverdue: UNPAID, and today's day count past the due date's. */
    predicate IsOverdue(today: Date): (r: bool)
      reads this
      ensures r <==> status == Unpaid && DayNumber(dueDate) < DayNumber(today)
    {
      OverdueByDayNumber(State(), dueDate, today);
      OverdueOn(State(), dueDate, today)
    }

    method CheckAndUpdateOverdue(today: Date)
      modifies this
      ensures State() == Aged(old(State()), dueDate, today)
    {
      if status == Unpaid && IsAfter(today, dueDate) {
        status := Overdue;
      }
    }

    method SetStatus(status: BillStatus)
      modifies this
      ensures State() == old(State()).(status := status)
    {
      this.status := status;
    }

    method SetPaidDate(paidDate: Option<DateTime>)
      modifies this
      ensures State() == old(State()).(paidDate := paidDate)
    {
      this.paidDate := paidDate;
    }
  }

  /** The changing state of every bill in a set. */
  function BillMap(bills: set<Bill>): map<Bill, BillState>
    reads bills
  {
    map b | b in bills :: b.State()
  }

  /** bill.markAsPaid(at), seen through the states of the bills in B. */
  method MarkPaidIn(ghost B: set<Bill>, bill: Bill, at: DateTime)
    requires bill in B
    modifies bill
    ensures BillMap(B) == old(BillMap(B))[bill := MarkedPaid(old(BillMap(B))[bill], at)]
  {
    ghost var m := BillMap(B);
    bill.MarkAsPaid(at);
    assert BillMap(B) == m[bill := bill.State()];
  }


  // -----------------------------------------------------------------------
  // Properties of the status machine
  // -----------------------------------------------------------------------

  /** markAsPaid reaches PAID with the given time from every status, CANCELLED included. */
  lemma PaymentFromAnyStatus(s: BillState, at: DateTime)
    ensures MarkedPaid(s, at).status == Paid && MarkedPaid(s, at).paidDate == Some(at)
    ensures forall dueDate: Date, today: Date :: !OverdueOn(MarkedPaid(s, at), dueDate, today)
  {
  }

  /** isOverdue is exactly UNPAID with the due date's number below today's. */
  lemma OverdueByDayNumber(s: BillState, dueDate: Date, today: Date)
    ensures OverdueOn(s, dueDate, today) <==> s.status == Unpaid && DayNumber(dueDate) < DayNumber(today)
  {
    DayNumberOrder(dueDate, today);
  }

  /**
   * Aging moves UNPAID to OVERDUE exactly when the bill is overdue; it leaves
   * every other status and every not-yet-overdue bill alone, never touches the
   * paid date, never brings a bill back to UNPAID, and is idempotent.
   */
  lemma AgingContract(s: BillState, dueDate: Date, today: Date)
    ensures Aged(s, dueDate, today).paidDate == s.paidDate
    ensures Aged(s, dueDate, today).status == Overdue <==> s.status == Overdue || OverdueOn(s, dueDate, today)
    ensures !OverdueOn(s, dueDate, today) ==> Aged(s, dueDate, today) == s
    ensures Aged(s, dueDate, today).status == Unpaid ==> s.status == Unpaid && !IsAfter(today, dueDate)
    ensures Aged(Aged(s, dueDate, today), dueDate, today) == Aged(s, dueDate, today)
  {
  }

  /** A bill that was outstanding stays outstanding under aging, and the others keep their status. */
  lemma AgingKeepsOutstanding(s: BillState, dueDate: Date, today: Date)
    ensures Outstanding(Aged(s, dueDate, today).status) <==> Outstanding(s.status)
  {
  }

  /** Once OVERDUE on one day, aging on any later day leaves the bill OVERDUE. */
  lemma OverdueIsFinal(s: BillState, dueDate: Date, d1: Date, d2: Date)
    requires Aged(s, dueDate, d1).status == Overdue
    ensures Aged(Aged(s, dueDate, d1), dueDate, d2).status == Overdue
  {
  }
}
