/**
 * Standing orders: a recurring transfer between two accounts, or an automatic
 * payment of the bills that carry an RF code (or, failing that, come from a
 * provider). What an order does is fixed when it is created; its status and,
 * for a transfer, its next execution date change.
 */
module StandingOrders {
  import opened Wrappers
  import opened Dates
  import Accounts
  import opened Users

  datatype OrderType = Transfer | BillPayment

  datatype OrderStatus = Active | Paused | Cancelled | Completed

  /** The fields of an order that change. */
  datatype OrderState = OrderState(status: OrderStatus, nextExecutionDate: Option<Date>)

  /**
   * d.withDayOfMonth(Math.min(executionDay, d.lengthOfMonth())): the day is
   * clamped to the month's length, and a day below 1 throws.
   */
  function ClampDay(d: Date, executionDay: int): Result<Date, Exception> {
    var day := Min(executionDay, LengthOfMonth(d.year, d.month));
    if day < 1 then Err(DateTimeError("Invalid value for DayOfMonth"))
    else Ok(WithDayOfMonth(d, day))
  }

  /**
   * calculateNextExecutionDate for a transfer: the execution day of this
   * month if that is still ahead, otherwise the execution day of the month
   * frequencyMonths later.
   */
  function NextExecutionFrom(today: Date, executionDay: int, frequencyMonths: int): Result<Date, Exception> {
    match ClampDay(today, executionDay)
    case Err(e) => Err(e)
    case Ok(next) =>
      if IsAfter(next, today) then Ok(next)
      else ClampDay(PlusMonths(next, frequencyMonths), executionDay)
  }

  /** calculateNextExecutionDate: only a transfer order has a date. */
  function Calculated(s: OrderState, orderType: OrderType, today: Date,
                      executionDay: int, frequencyMonths: int): Result<OrderState, Exception> {
    if orderType != Transfer then Ok(s)
    else match NextExecutionFrom(today, executionDay, frequencyMonths)
      case Err(e) => Err(e)
      case Ok(d) => Ok(s.(nextExecutionDate := Some(d)))
  }

  /** shouldExecute: an ACTIVE transfer whose date has come, or any ACTIVE bill-payment order. */
  predicate Due(s: OrderState, orderType: OrderType, today: Date) {
    s.status == Active &&
    (orderType == Transfer ==> s.nextExecutionDate.Some? && !IsAfter(s.nextExecutionDate.value, today))
  }

  /** recordExecution: a transfer's date moves frequencyMonths on, clamped again. */
  function Recorded(s: OrderState, orderType: OrderType,
                    executionDay: int, frequencyMonths: int): Result<OrderState, Exception> {
    if orderType == Transfer && s.nextExecutionDate.Some? then
      match ClampDay(PlusMonths(s.nextExecutionDate.value, frequencyMonths), executionDay)
      case Err(e) => Err(e)
      case Ok(d) => Ok(s.(nextExecutionDate := Some(d)))
    else Ok(s)
  }

  /** StandingOrderManager.pauseOrder: ACTIVE becomes PAUSED, nothing else moves. */
  function PausedFrom(status: OrderStatus): OrderStatus {
    if status == Active then OrderStatus.Paused else status
  }

  /** StandingOrderManager.resumeOrder: PAUSED becomes ACTIVE, nothing else moves. */
  function ResumedFrom(status: OrderStatus): OrderStatus {
    if status == OrderStatus.Paused then Active else status
  }

  /** StandingOrderManager.cancelOrder: CANCELLED from any status. */
  function CancelledFrom(status: OrderStatus): OrderStatus {
    if status != OrderStatus.Cancelled then OrderStatus.Cancelled else status
  }

  class StandingOrder {
    const id: string
    const orderType: OrderType
    const source: Accounts.Account
    const destination: Accounts.Account?
    const amount: Option<real>
    const frequencyMonths: int
    const executionDay: int
    const rfCode: Option<string>
    const providerName: Option<string>
    const description: string
    const owner: User
    var status: OrderStatus
    var nextExecutionDate: Option<Date>

    function State(): OrderState
      reads this
    {
      OrderState(status, nextExecutionDate)
    }

    /**
     * The transfer constructor: ACTIVE, with the next date computed from the
     * creation day. With an execution day below 1 the source's constructor
     * throws; the manager reports that case instead of constructing.
     */
    constructor Transfer(id: string, source: Accounts.Account, destination: Accounts.Account, amount: real,
                         frequencyMonths: int, executionDay: int, description: string,
                         owner: User, today: Date)
      requires executionDay >= 1
      ensures this.id == id && orderType == OrderType.Transfer
      ensures this.source == source && this.destination == destination && this.amount == Some(amount)
      ensures this.frequencyMonths == frequencyMonths && this.executionDay == executionDay
      ensures this.description == description && this.owner == owner
      ensures rfCode == None && providerName == None
      ensures Calculated(OrderState(Active, None), orderType, today, executionDay, frequencyMonths) == Ok(State())
    {
      this.id := id;
      this.orderType := OrderType.Transfer;
      this.source := source;
      this.destination := destination;
      this.amount := Some(amount);
      this.frequencyMonths := frequencyMonths;
      this.executionDay := executionDay;
      this.rfCode := None;
      this.providerName := None;
      this.description := description;
      this.owner := owner;
      this.status := Active;
      NextExecutionTotal(today, executionDay, frequencyMonths);
      this.nextExecutionDate := Some(NextExecutionFrom(today, executionDay, frequencyMonths).value);
    }

    /** The bill-payment constructor: ACTIVE, no amount, no date, no destination. */
    constructor BillPayment(id: string, source: Accounts.Account, rfCode: Option<string>,
                            providerName: Option<string>, owner: User)
      ensures this.id == id && orderType == OrderType.BillPayment && this.source == source
      ensures destination == null && amount == None && frequencyMonths == 0 && executionDay == 0
      ensures this.rfCode == rfCode && this.providerName == providerName && this.owner == owner
      ensures description == "Auto-pay bills from " + OrNull(providerName)
      ensures State() == OrderState(Active, None)
    {
      this.id := id;
      this.orderType := OrderType.BillPayment;
      this.source := source;
      this.destination := null;
      this.amount := None;
      this.frequencyMonths := 0;
      this.executionDay := 0;
      this.rfCode := rfCode;
      this.providerName := providerName;
      this.description := "Auto-pay bills from " + OrNull(providerName);
      this.owner := owner;
      this.status := Active;
      this.nextExecutionDate := None;
    }

    method CalculateNextExecutionDate(today: Date) returns (r: Outcome<Exception>)
      modifies this
      ensures var c := Calculated(old(State()), orderType, today, executionDay, frequencyMonths);
        State() == (if c.Ok? then c.value else old(State())) && r == (if c.Ok? then Pass else Fail(c.error))
    {
      if orderType == OrderType.Transfer {
        var next := ClampDay(today, executionDay);
        if next.Err? {
          return Fail(next.error);
        }
        if !IsAfter(next.value, today) {
          next := ClampDay(PlusMonths(next.value, frequencyMonths), executionDay);
          if next.Err? {
            return Fail(next.error);
          }
        }
        nextExecutionDate := Some(next.value);
      }
      r := Pass;
    }

    predicate ShouldExecute(today: Date)
      reads this
    {
      Due(State(), orderType, today)
    }

    method RecordExecution() returns (r: Outcome<Exception>)
      modifies this
      ensures var c := Recorded(old(State()), orderType, executionDay, frequencyMonths);
        State() == (if c.Ok? then c.value else old(State())) && r == (if c.Ok? then Pass else Fail(c.error))
    {
      if orderType == OrderType.Transfer && nextExecutionDate.Some? {
        var next := ClampDay(PlusMonths(nextExecutionDate.value, frequencyMonths), executionDay);
        if next.Err? {
          return Fail(next.error);
        }
        nextExecutionDate := Some(next.value);
      }
      r := Pass;
    }

    method SetStatus(status: OrderStatus)
      modifies this
      ensures State() == old(State()).(status := status)
    {
      this.status := status;
    }
  }

  /** The changing state of every order in a set. */
  function OrderMap(orders: set<StandingOrder>): map<StandingOrder, OrderState>
    reads orders
  {
    map o | o in orders :: o.State()
  }



  // -----------------------------------------------------------------------
  // Properties of the schedule
  // -----------------------------------------------------------------------

  /**
   * Clamping succeeds exactly for an execution day of at least 1, stays in
   * the month, and lands on the execution day or the month's last day.
   */
  lemma ClampDayShape(d: Date, executionDay: int)
    ensures ClampDay(d, executionDay).Ok? <==> executionDay >= 1
    ensures ClampDay(d, executionDay).Ok? ==>
      var r := ClampDay(d, executionDay).value;
      r.year == d.year && r.month == d.month &&
      r.day == Min(executionDay, LengthOfMonth(d.year, d.month))
  {
  }

  /** A later month count means a later date, whatever the days. */
  lemma LaterMonthIsAfter(a: Date, b: Date)
    requires a.year * 12 + a.month > b.year * 12 + b.month
    ensures IsAfter(a, b)
  {
  }

  lemma NextExecutionTotal(today: Date, executionDay: int, frequencyMonths: int)
    requires executionDay >= 1
    ensures NextExecutionFrom(today, executionDay, frequencyMonths).Ok?
  {
  }

  /**
   * With a valid execution day the next date exists, falls on the execution
   * day clamped to its month, lies in this month when that day is still
   * ahead and frequencyMonths later otherwise, and is strictly after today
   * when frequencyMonths is at least 1.
   */
  lemma NextExecutionShape(today: Date, executionDay: int, frequencyMonths: int)
    requires executionDay >= 1
    ensures NextExecutionFrom(today, executionDay, frequencyMonths).Ok?
    ensures var r := NextExecutionFrom(today, executionDay, frequencyMonths).value;
      r.day == Min(executionDay, LengthOfMonth(r.year, r.month)) &&
      r.year * 12 + r.month == today.year * 12 + today.month
        + (if Min(executionDay, LengthOfMonth(today.year, today.month)) > today.day then 0 else frequencyMonths) &&
      (frequencyMonths >= 1 ==> IsAfter(r, today))
  {
    var next := ClampDay(today, executionDay).value;
    if !IsAfter(next, today) {
      PlusMonthsShape(next, frequencyMonths);
      var r := ClampDay(PlusMonths(next, frequencyMonths), executionDay).value;
      if frequencyMonths >= 1 {
        LaterMonthIsAfter(r, today);
      }
    }
  }

  /**
   * recordExecution moves a transfer's date exactly frequencyMonths months
   * on, back to the execution day clamped to the new month, so strictly later
   * when frequencyMonths is at least 1; the status is untouched.
   */
  lemma RecordedShape(s: OrderState, executionDay: int, frequencyMonths: int)
    requires executionDay >= 1 && s.nextExecutionDate.Some?
    ensures Recorded(s, Transfer, executionDay, frequencyMonths).Ok?
    ensures var t := Recorded(s, Transfer, executionDay, frequencyMonths).value;
      var d := s.nextExecutionDate.value;
      t.status == s.status && t.nextExecutionDate.Some? &&
      t.nextExecutionDate.value.year * 12 + t.nextExecutionDate.value.month
        == d.year * 12 + d.month + frequencyMonths &&
      t.nextExecutionDate.value.day
        == Min(executionDay, LengthOfMonth(t.nextExecutionDate.value.year, t.nextExecutionDate.value.month)) &&
      (frequencyMonths >= 1 ==> IsAfter(t.nextExecutionDate.value, d))
  {
    var d := s.nextExecutionDate.value;
    PlusMonthsShape(d, frequencyMonths);
    if frequencyMonths >= 1 {
      LaterMonthIsAfter(Recorded(s, Transfer, executionDay, frequencyMonths).value.nextExecutionDate.value, d);
    }
  }

  /** A day cut short in February comes back to 31 in March. */
  lemma ClampingRecovers()
    ensures var feb := OrderState(Active, Some(CivilDate(2025, 2, 28)));
      Recorded(feb, Transfer, 31, 1) == Ok(OrderState(Active, Some(CivilDate(2025, 3, 31))))
  {
  }

  /** Bill-payment orders have no schedule: both computations leave them alone. */
  lemma BillPaymentUnscheduled(s: OrderState, today: Date, executionDay: int, frequencyMonths: int)
    ensures Calculated(s, BillPayment, today, executionDay, frequencyMonths) == Ok(s)
    ensures Recorded(s, BillPayment, executionDay, frequencyMonths) == Ok(s)
    ensures Due(s, BillPayment, today) <==> s.status == Active
  {
  }

  /**
   * Only ACTIVE orders are due; a transfer is due exactly when it has a date
   * on or before today; once recorded with frequencyMonths of at least 1 an
   * order whose date was today is no longer due today.
   */
  lemma DueContract(s: OrderState, today: Date, executionDay: int, frequencyMonths: int)
    ensures s.status != Active ==> !Due(s, Transfer, today) && !Due(s, BillPayment, today)
    ensures Due(s, Transfer, today) <==>
      s.status == Active && s.nextExecutionDate.Some? && DayNumber(s.nextExecutionDate.value) <= DayNumber(today)
    ensures executionDay >= 1 && frequencyMonths >= 1 && s.nextExecutionDate == Some(today) ==>
      !Due(Recorded(s, Transfer, executionDay, frequencyMonths).value, Transfer, today)
  {
    if s.nextExecutionDate.Some? {
      DayNumberOrder(today, s.nextExecutionDate.value);
    }
    if executionDay >= 1 && frequencyMonths >= 1 && s.nextExecutionDate == Some(today) {
      RecordedShape(s, executionDay, frequencyMonths);
    }
  }

  /**
   * pauseOrder and resumeOrder move only between ACTIVE and PAUSED and undo
   * each other there; cancelOrder reaches CANCELLED from everywhere and is
   * idempotent.
   */
  lemma StatusTransitions(status: OrderStatus)
    ensures PausedFrom(status) == OrderStatus.Paused <==> status == Active || status == OrderStatus.Paused
    ensures status != Active ==> PausedFrom(status) == status
    ensures status != OrderStatus.Paused ==> ResumedFrom(status) == status
    ensures status == Active ==> ResumedFrom(PausedFrom(status)) == Active
    ensures status == OrderStatus.Paused ==> PausedFrom(ResumedFrom(status)) == OrderStatus.Paused
    ensures CancelledFrom(status) == OrderStatus.Cancelled
    ensures CancelledFrom(CancelledFrom(status)) == CancelledFrom(status)
  {
  }
}
