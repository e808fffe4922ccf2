/**
 * The standing-order registry (StandingOrderManager) and the daily run of
 * the orders that are due. A run is specified on World, the value of
 * everything it can change: the Books of the ledger, the state of every bill
 * and the state of every order. Within a run every due transfer order goes
 * first, then every active bill-payment order; a failure of one order is
 * caught and the run goes on with the next.
 */
module StandingOrderManagement {
  import opened Wrappers
  import opened Dates
  import opened Users
  import opened Accounts
  import opened Bills
  import opened StandingOrders
  import opened Ledger
  import opened BillManagement
  import Text

  /** Everything a run of the standing orders can change. */
  datatype World = World(books: Books, bills: map<Bill, BillState>, orders: map<StandingOrder, OrderState>)

  /** The ledger, the bills and the orders are still the same objects. */
  predicate SameKeys(w: World, w': World) {
    w'.books.acc.Keys == w.books.acc.Keys && w'.bills.Keys == w.bills.Keys && w'.orders.Keys == w.orders.Keys
  }

  /** The order and the accounts it names are known. */
  predicate OrderFits(w: World, o: StandingOrder) {
    o in w.orders && o.source in w.books.acc && (o.destination != null ==> o.destination in w.books.acc)
  }

  /** Everything a run over these lists touches is known. */
  predicate Fits(w: World, orders: seq<StandingOrder>, bills: seq<Bill>) {
    (forall o :: o in orders ==> OrderFits(w, o)) && Covers(w.bills, bills)
  }

  /** "SO" + String.format("%06d", n). */
  function OrderId(n: nat): string {
    "SO" + Text.ZeroPad(n, 6)
  }

  // -----------------------------------------------------------------------
  // The filters
  // -----------------------------------------------------------------------

  /** What an order query keeps. */
  datatype OrderCriterion =
    | OwnedBy(customerId: string)         // getStandingOrdersForCustomer
    | ActiveOwnedBy(customerId: string)   // getActiveStandingOrdersForCustomer
    | DueTransfer(today: Date)            // getDueTransferOrders
    | ActiveBillPayment                   // getActiveBillPaymentOrders

  predicate KnownOrders(st: map<StandingOrder, OrderState>, orders: seq<StandingOrder>) {
    forall i :: 0 <= i < |orders| ==> orders[i] in st
  }

  predicate OrderMatches(c: OrderCriterion, o: StandingOrder, st: map<StandingOrder, OrderState>)
    requires o in st
  {
    match c
    case OwnedBy(id) => o.owner.id == id
    case ActiveOwnedBy(id) => o.owner.id == id && st[o].status == OrderStatus.Active
    case DueTransfer(today) => o.orderType == Transfer && st[o].status == OrderStatus.Active && Due(st[o], o.orderType, today)
    case ActiveBillPayment => o.orderType == BillPayment && st[o].status == OrderStatus.Active
  }

  function SelectOrders(orders: seq<StandingOrder>, st: map<StandingOrder, OrderState>, c: OrderCriterion): seq<StandingOrder>
    requires KnownOrders(st, orders)
    decreases |orders|
  {
    if orders == [] then []
    else (if OrderMatches(c, orders[0], st) then [orders[0]] else []) + SelectOrders(orders[1..], st, c)
  }

  /** getStandingOrdersForUser: a customer's orders; an administrator has none. */
  function OrdersForUser(orders: seq<StandingOrder>, st: map<StandingOrder, OrderState>, user: User): seq<StandingOrder>
    requires KnownOrders(st, orders)
  {
    if user.role.Admin? then [] else SelectOrders(orders, st, OrderCriterion.OwnedBy(user.id))
  }

  /** findById: the first order with the id, or null. */
  function FindOrder(orders: seq<StandingOrder>, id: string): Option<StandingOrder>
    decreases |orders|
  {
    if orders == [] then None
    else if orders[0].id == id then Some(orders[0])
    else FindOrder(orders[1..], id)
  }

  // -----------------------------------------------------------------------
  // One run of the due orders, on values
  // -----------------------------------------------------------------------

  /**
   * One transfer order: a funds check on the order's amount (a missing amount
   * makes the source throw, which is caught), the ledger transfer, then
   * recordExecution. A transfer that throws part-way keeps what it did.
   */
  function TransferStep(w: World, o: StandingOrder): (r: (World, bool))
    requires OrderFits(w, o)
    ensures SameKeys(w, r.0)
  {
    if o.amount.None? then (w, false)
    else if w.books.acc[o.source].balance < o.amount.value then (w, false)
    else
      var (b1, t) := TransferOp(w.books, o.source, o.destination, o.amount.value,
                                Some("Standing Order: " + o.description));
      TransferOpKeys(w.books, o.source, o.destination, o.amount.value, Some("Standing Order: " + o.description));
      if t.Err? then (w.(books := b1), false)
      else match Recorded(w.orders[o], o.orderType, o.executionDay, o.frequencyMonths)
        case Err(_) => (w.(books := b1), false)
        case Ok(s) => (w.(books := b1, orders := w.orders[o := s]), true)
  }

  /** The transfer loop: the due orders in turn, collecting those that executed. */
  function TransferPhase(w: World, due: seq<StandingOrder>): (r: (World, seq<StandingOrder>))
    requires forall o :: o in due ==> OrderFits(w, o)
    ensures SameKeys(w, r.0)
    decreases |due|
  {
    if due == [] then (w, [])
    else
      var (w1, ok) := TransferStep(w, due[0]);
      FitsKept(w, w1, due);
      var (w2, e) := TransferPhase(w1, due[1..]);
      (w2, (if ok then [due[0]] else []) + e)
  }

  /** How the bill loop of a bill-payment order fares on one matched bill. */
  datatype PayOutcome =
    | Skipped   // the source cannot cover the bill: on to the next one
    | PaidBill  // the bill was paid and the order reached executedOrders.add
    | Stopped   // an exception ended the order's loop

  /**
   * One matched bill: a funds check, then withdraw, mark the bill paid at the
   * start of the day, and deposit the negated amount into the source. An
   * exception leaves what was done so far in place.
   */
  function PayStep(w: World, o: StandingOrder, bill: Bill, today: Date): (r: (World, PayOutcome))
    requires o.source in w.books.acc && bill in w.bills
    ensures SameKeys(w, r.0)
  {
    var src := o.source;
    if w.books.acc[src].balance < bill.amount then (w, Skipped)
    else match Taken(w, o, bill, today)
      case None => (w, Stopped)
      case Some(w1) =>
        var (b2, t) := DepositOp(w1.books, src, -bill.amount, Some("Bill payment: " + bill.providerName));
        DepositOpKeys(w1.books, src, -bill.amount, Some("Bill payment: " + bill.providerName));
        (w1.(books := b2), if t.Err? then Stopped else PaidBill)
  }

  /** The withdrawal and markAsPaid of one matched bill; None when the withdrawal throws. */
  function Taken(w: World, o: StandingOrder, bill: Bill, today: Date): (r: Option<World>)
    requires o.source in w.books.acc && bill in w.bills
    ensures r.Some? ==> SameKeys(w, r.value) && o.source in r.value.books.acc
  {
    var src := o.source;
    match Withdrawn(w.books.acc[src], bill.amount)
    case Err(_) => None
    case Ok(s) =>
      Some(World(w.books.(acc := w.books.acc[src := s]),
                 w.bills[bill := MarkedPaid(w.bills[bill], AtStartOfDay(today))], w.orders))
  }

  /** The bill loop of one bill-payment order, over its matched bills in turn. */
  function PayBills(w: World, o: StandingOrder, matching: seq<Bill>, today: Date): (r: (World, seq<StandingOrder>))
    requires o.source in w.books.acc && Covers(w.bills, matching)
    ensures SameKeys(w, r.0)
    decreases |matching|
  {
    if matching == [] then (w, [])
    else
      var (w1, out) := PayStep(w, o, matching[0], today);
      CoversKept(w.bills, w1.bills, matching);
      if out == Stopped then (w1, [])
      else
        var (w2, e) := PayBills(w1, o, matching[1..], today);
        (w2, (if out == PaidBill then [o] else []) + e)
  }

  /** The bills one bill-payment order goes for: by RF code, else by provider. */
  function Matching(w: World, o: StandingOrder, bills: seq<Bill>): (r: seq<Bill>)
    requires Covers(w.bills, bills)
    ensures Covers(w.bills, r)
  {
    var byRf := Select(bills, w.bills, OutstandingWithRf(o.rfCode));
    SelectCovers(bills, w.bills, OutstandingWithRf(o.rfCode));
    SelectCovers(bills, w.bills, OutstandingFromProvider(o.providerName));
    if byRf == [] then Select(bills, w.bills, OutstandingFromProvider(o.providerName)) else byRf
  }

  /** The bill-payment loop. */
  function BillPhase(w: World, billOrders: seq<StandingOrder>, bills: seq<Bill>, today: Date): (r: (World, seq<StandingOrder>))
    requires (forall o :: o in billOrders ==> o.source in w.books.acc) && Covers(w.bills, bills)
    ensures SameKeys(w, r.0)
    decreases |billOrders|
  {
    if billOrders == [] then (w, [])
    else
      var o := billOrders[0];
      var (w1, e1) := PayBills(w, o, Matching(w, o, bills), today);
      var (w2, e2) := BillPhase(w1, billOrders[1..], bills, today);
      (w2, e1 + e2)
  }

  /** executeDueOrders: the due transfer orders, then the active bill-payment orders. */
  function ExecuteDue(w: World, orders: seq<StandingOrder>, bills: seq<Bill>, today: Date): (r: (World, seq<StandingOrder>))
    requires Fits(w, orders, bills)
    ensures SameKeys(w, r.0)
  {
    var (w1, e1) := DueTransferRun(w, orders, today);
    FitsKept(w, w1, orders);
    CoversKept(w.bills, w1.bills, bills);
    var (w2, e2) := ActiveBillRun(w1, orders, bills, today);
    (w2, e1 + e2)
  }

  /** The first half of executeDueOrders: getDueTransferOrders, each in turn. */
  function DueTransferRun(w: World, orders: seq<StandingOrder>, today: Date): (r: (World, seq<StandingOrder>))
    requires forall o :: o in orders ==> OrderFits(w, o)
    ensures SameKeys(w, r.0)
  {
    assert forall i :: 0 <= i < |orders| ==> OrderFits(w, orders[i]);
    SelectOrdersMembers(orders, w.orders, DueTransfer(today));
    TransferPhase(w, SelectOrders(orders, w.orders, DueTransfer(today)))
  }

  /** The second half of executeDueOrders: getActiveBillPaymentOrders, each in turn. */
  function ActiveBillRun(w: World, orders: seq<StandingOrder>, bills: seq<Bill>, today: Date): (r: (World, seq<StandingOrder>))
    requires Fits(w, orders, bills)
    ensures SameKeys(w, r.0)
  {
    assert forall i :: 0 <= i < |orders| ==> orders[i] in orders;
    SelectOrdersMembers(orders, w.orders, ActiveBillPayment);
    BillPhase(w, SelectOrders(orders, w.orders, ActiveBillPayment), bills, today)
  }

  // -----------------------------------------------------------------------
  // Helpers
  // -----------------------------------------------------------------------

  lemma FitsKept(w: World, w': World, due: seq<StandingOrder>)
    requires SameKeys(w, w') && forall o :: o in due ==> OrderFits(w, o)
    ensures forall o :: o in due ==> OrderFits(w', o)
    ensures due != [] ==> forall o :: o in due[1..] ==> OrderFits(w', o)
  {
    forall o | o in due
      ensures OrderFits(w', o)
    {
      assert o in w.orders.Keys && o.source in w.books.acc.Keys;
      assert o.destination != null ==> o.destination in w.books.acc.Keys;
    }
    if due != [] {
      assert forall o :: o in due[1..] ==> o in due;
    }
  }

  lemma CoversKept(st: map<Bill, BillState>, st': map<Bill, BillState>, bills: seq<Bill>)
    requires Covers(st, bills) && st'.Keys == st.Keys
    ensures Covers(st', bills)
    ensures bills != [] ==> Covers(st', bills[1..])
  {
    forall i | 0 <= i < |bills|
      ensures bills[i] in st'
    {
      assert bills[i] in st.Keys;
    }
  }

  lemma {:induction false} SelectCovers(bills: seq<Bill>, st: map<Bill, BillState>, c: Criterion)
    requires Covers(st, bills)
    ensures Covers(st, Select(bills, st, c))
    decreases |bills|
  {
    if bills != [] {
      SelectCovers(bills[1..], st, c);
      var head := if Matches(c, bills[0], st) then [bills[0]] else [];
      var tail := Select(bills[1..], st, c);
      assert Select(bills, st, c) == head + tail;
      forall i | 0 <= i < |head + tail|
        ensures (head + tail)[i] in st
      {
        if i >= |head| {
          assert (head + tail)[i] == tail[i - |head|];
        }
      }
    }
  }

  lemma TransferOpKeys(b: Books, from: Account, to: Account?, amount: real, description: Option<string>)
    requires from in b.acc && (to != null ==> to in b.acc)
    ensures TransferOp(b, from, to, amount, description).0.acc.Keys == b.acc.Keys
  {
  }

  lemma DepositOpKeys(b: Books, a: Account, amount: real, description: Option<string>)
    requires a in b.acc
    ensures DepositOp(b, a, amount, description).0.acc.Keys == b.acc.Keys
  {
  }

  /** An order is selected exactly when it is listed and passes. */
  /** The order selection read by position: each selected order passes, and every passing order is selected. */
  lemma SelectOrdersIndexed(orders: seq<StandingOrder>, st: map<StandingOrder, OrderState>, c: OrderCriterion)
    requires KnownOrders(st, orders)
    ensures forall i :: 0 <= i < |SelectOrders(orders, st, c)| ==>
      SelectOrders(orders, st, c)[i] in orders && SelectOrders(orders, st, c)[i] in st &&
      OrderMatches(c, SelectOrders(orders, st, c)[i], st)
    ensures forall i :: 0 <= i < |orders| && OrderMatches(c, orders[i], st) ==> orders[i] in SelectOrders(orders, st, c)
    ensures |SelectOrders(orders, st, c)| <= |orders|
  {
    SelectOrdersMembers(orders, st, c);
    SelectOrdersLength(orders, st, c);
  }

  lemma {:induction false} SelectOrdersLength(orders: seq<StandingOrder>, st: map<StandingOrder, OrderState>, c: OrderCriterion)
    requires KnownOrders(st, orders)
    ensures |SelectOrders(orders, st, c)| <= |orders|
    decreases |orders|
  {
    if orders != [] {
      SelectOrdersLength(orders[1..], st, c);
    }
  }

  lemma {:induction false} SelectOrdersMembers(orders: seq<StandingOrder>, st: map<StandingOrder, OrderState>, c: OrderCriterion)
    requires KnownOrders(st, orders)
    ensures forall o :: o in SelectOrders(orders, st, c) ==> o in orders
    ensures forall o :: o in SelectOrders(orders, st, c) <==> o in orders && o in st && OrderMatches(c, o, st)
    decreases |orders|
  {
    if orders != [] {
      SelectOrdersMembers(orders[1..], st, c);
      assert forall o :: o in orders <==> o == orders[0] || o in orders[1..];
    }
  }

  // -----------------------------------------------------------------------
  // Properties of a run
  // -----------------------------------------------------------------------

  /**
   * A transfer order whose source cannot cover the amount is skipped with
   * nothing changed, and so is still due; one that executes has been
   * transferred through the ledger and its date moved on by recordExecution.
   */
  lemma TransferStepContract(w: World, o: StandingOrder, today: Date)
    requires OrderFits(w, o) && o.amount.Some? && w.books.acc[o.source].balance < o.amount.value
    ensures TransferStep(w, o) == (w, false)
    ensures Due(w.orders[o], o.orderType, today) ==> Due(TransferStep(w, o).0.orders[o], o.orderType, today)
  {
  }

  /** An executed transfer order: the ledger did the transfer and recordExecution succeeded. */
  lemma TransferStepExecuted(w: World, o: StandingOrder)
    requires OrderFits(w, o) && TransferStep(w, o).1
    ensures o.amount.Some? && w.books.acc[o.source].balance >= o.amount.value
    ensures var (b1, t) := TransferOp(w.books, o.source, o.destination, o.amount.value,
                                      Some("Standing Order: " + o.description));
      t.Ok? && TransferStep(w, o).0.books == b1 && TransferStep(w, o).0.bills == w.bills &&
      Recorded(w.orders[o], o.orderType, o.executionDay, o.frequencyMonths).Ok? &&
      TransferStep(w, o).0.orders == w.orders[o := Recorded(w.orders[o], o.orderType, o.executionDay, o.frequencyMonths).value]
  {
  }

  /**
   * One matched bill: an unaffordable bill is skipped with nothing changed; an
   * affordable one ends the order's loop, either with nothing changed (the
   * withdrawal threw) or with the amount withdrawn and the bill marked PAID at
   * the start of the day. The deposit of the negated amount always throws, so
   * no transaction is recorded and the order is never reported as paid.
   */
  lemma PayStepContract(w: World, o: StandingOrder, bill: Bill, today: Date)
    requires o.source in w.books.acc && bill in w.bills
    ensures var (w1, out) := PayStep(w, o, bill, today);
      out != PaidBill && (out == Skipped <==> w.books.acc[o.source].balance < bill.amount) &&
      w1.books.log == w.books.log && w1.books.counter == w.books.counter && w1.orders == w.orders
    ensures var (w1, out) := PayStep(w, o, bill, today);
      w1 == w ||
      (out == Stopped && Withdrawn(w.books.acc[o.source], bill.amount).Ok? &&
       w1 == World(w.books.(acc := w.books.acc[o.source := Withdrawn(w.books.acc[o.source], bill.amount).value]),
                   w.bills[bill := MarkedPaid(w.bills[bill], AtStartOfDay(today))], w.orders))
  {
    var src := o.source;
    if w.books.acc[src].balance >= bill.amount && Withdrawn(w.books.acc[src], bill.amount).Ok? {
      var s := Withdrawn(w.books.acc[src], bill.amount).value;
      var b1 := w.books.(acc := w.books.acc[src := s]);
      WithdrawContract(w.books.acc[src], bill.amount);
      DepositContract(b1.acc[src], -bill.amount);
      assert DepositOp(b1, src, -bill.amount, Some("Bill payment: " + bill.providerName)).0 == b1;
    }
  }

  /** PayBills on a non-empty list, one bill at a time. */
  lemma PayBillsUnfold(w: World, o: StandingOrder, matching: seq<Bill>, today: Date)
    requires o.source in w.books.acc && Covers(w.bills, matching) && matching != []
    ensures var (w1, out) := PayStep(w, o, matching[0], today);
      Covers(w1.bills, matching[1..]) &&
      (out == Stopped ==> PayBills(w, o, matching, today) == (w1, [])) &&
      (out != Stopped ==> PayBills(w, o, matching, today).0 == PayBills(w1, o, matching[1..], today).0) &&
      (out != Stopped ==>
         PayBills(w, o, matching, today).1 == (if out == PaidBill then [o] else []) + PayBills(w1, o, matching[1..], today).1)
  {
    var (w1, out) := PayStep(w, o, matching[0], today);
    CoversKept(w.bills, w1.bills, matching);
  }

  /** BillPhase on a non-empty list, one order at a time. */
  lemma BillPhaseUnfold(w: World, billOrders: seq<StandingOrder>, bills: seq<Bill>, today: Date)
    requires (forall o :: o in billOrders ==> o.source in w.books.acc) && Covers(w.bills, bills) && billOrders != []
    ensures var (w1, e1) := PayBills(w, billOrders[0], Matching(w, billOrders[0], bills), today);
      (forall o :: o in billOrders[1..] ==> o.source in w1.books.acc) && Covers(w1.bills, bills) &&
      BillPhase(w, billOrders, bills, today).0 == BillPhase(w1, billOrders[1..], bills, today).0 &&
      BillPhase(w, billOrders, bills, today).1 == e1 + BillPhase(w1, billOrders[1..], bills, today).1
  {
    var (w1, e1) := PayBills(w, billOrders[0], Matching(w, billOrders[0], bills), today);
    CoversKept(w.bills, w1.bills, bills);
    assert forall o :: o in billOrders[1..] ==> o in billOrders;
  }

  /**
   * The invariant of the transfer loop after i orders: w is the World then,
   * executed what they reported, and the rest of the run from w finishes with
   * final, the result of the whole run.
   */
  predicate TransferLoop(due: seq<StandingOrder>, i: nat, w: World, executed: seq<StandingOrder>,
                         final: (World, seq<StandingOrder>))
  {
    i <= |due| && (forall o :: o in due[i..] ==> OrderFits(w, o)) &&
    var r := TransferPhase(w, due[i..]);
    r.0 == final.0 && executed + r.1 == final.1
  }

  lemma TransferLoopStart(w0: World, due: seq<StandingOrder>)
    requires forall o :: o in due ==> OrderFits(w0, o)
    ensures TransferLoop(due, 0, w0, [], TransferPhase(w0, due))
  {
    assert due[0..] == due;
  }

  lemma TransferLoopAdvance(due: seq<StandingOrder>, i: nat, wi: World, executed: seq<StandingOrder>,
                            final: (World, seq<StandingOrder>), w1: World, ok: bool)
    requires TransferLoop(due, i, wi, executed, final) && i < |due|
    requires (w1, ok) == TransferStep(wi, due[i])
    ensures ok ==> TransferLoop(due, i + 1, w1, executed + [due[i]], final)
    ensures !ok ==> TransferLoop(due, i + 1, w1, executed, final)
  {
    assert due[i..][0] == due[i] && due[i..][1..] == due[i + 1..];
    FitsKept(wi, w1, due[i..]);
    var tail := TransferPhase(w1, due[i + 1..]);
    if ok {
      assert TransferPhase(wi, due[i..]).1 == [due[i]] + tail.1;
      ConcatAssoc(executed, [due[i]], tail.1);
    } else {
      assert TransferPhase(wi, due[i..]).1 == tail.1;
    }
  }

  lemma TransferLoopDone(due: seq<StandingOrder>, w: World, executed: seq<StandingOrder>,
                         final: (World, seq<StandingOrder>))
    requires TransferLoop(due, |due|, w, executed, final)
    ensures (w, executed) == final
  {
    assert due[|due|..] == [];
    assert executed + [] == executed;
  }

  /**
   * The invariant of the inner bill loop after i matched bills: w is the
   * World then, listed what they reported, and the rest of the loop from w
   * finishes with final, the result of the whole loop.
   */
  predicate PayLoop(o: StandingOrder, matching: seq<Bill>, today: Date, i: nat, w: World,
                    listed: seq<StandingOrder>, final: (World, seq<StandingOrder>))
  {
    i <= |matching| && o.source in w.books.acc && Covers(w.bills, matching[i..]) &&
    var r := PayBills(w, o, matching[i..], today);
    r.0 == final.0 && listed + r.1 == final.1
  }

  lemma PayLoopStart(w0: World, o: StandingOrder, matching: seq<Bill>, today: Date)
    requires o.source in w0.books.acc && Covers(w0.bills, matching)
    ensures PayLoop(o, matching, today, 0, w0, [], PayBills(w0, o, matching, today))
  {
    assert matching[0..] == matching;
  }

  /**
   * One turn of the inner bill loop: a bill that stops the loop ends the run
   * there, any other keeps the invariant for the next bill.
   */
  lemma PayLoopNext(o: StandingOrder, matching: seq<Bill>, today: Date, i: nat, wi: World,
                    listed: seq<StandingOrder>, final: (World, seq<StandingOrder>), w1: World, out: PayOutcome)
    requires PayLoop(o, matching, today, i, wi, listed, final) && i < |matching|
    requires (w1, out) == PayStep(wi, o, matching[i], today)
    ensures out == Stopped ==> (w1, listed) == final
    ensures out == Skipped ==> PayLoop(o, matching, today, i + 1, w1, listed, final)
    ensures out == PaidBill ==> PayLoop(o, matching, today, i + 1, w1, listed + [o], final)
  {
    assert matching[i..][0] == matching[i] && matching[i..][1..] == matching[i + 1..];
    PayBillsUnfold(wi, o, matching[i..], today);
    var tail := PayBills(w1, o, matching[i + 1..], today);
    if out == Stopped {
      assert listed + [] == listed;
    } else if out == Skipped {
      assert [] + tail.1 == tail.1;
    } else {
      ConcatAssoc(listed, [o], tail.1);
    }
  }

  lemma PayLoopDone(o: StandingOrder, matching: seq<Bill>, today: Date, w: World,
                    listed: seq<StandingOrder>, final: (World, seq<StandingOrder>))
    requires PayLoop(o, matching, today, |matching|, w, listed, final)
    ensures (w, listed) == final
  {
    assert matching[|matching|..] == [];
    assert listed + [] == listed;
  }

  /**
   * The invariant of the bill-payment loop after i orders: w is the World
   * then, listed what they reported, and the rest of the run from w finishes
   * with final, the result of the whole run.
   */
  predicate BillLoop(billOrders: seq<StandingOrder>, bills: seq<Bill>, today: Date, i: nat, w: World,
                     listed: seq<StandingOrder>, final: (World, seq<StandingOrder>))
  {
    i <= |billOrders| && (forall o :: o in billOrders[i..] ==> o.source in w.books.acc) && Covers(w.bills, bills) &&
    var r := BillPhase(w, billOrders[i..], bills, today);
    r.0 == final.0 && listed + r.1 == final.1
  }

  lemma BillLoopStart(w0: World, billOrders: seq<StandingOrder>, bills: seq<Bill>, today: Date)
    requires (forall o :: o in billOrders ==> o.source in w0.books.acc) && Covers(w0.bills, bills)
    ensures BillLoop(billOrders, bills, today, 0, w0, [], BillPhase(w0, billOrders, bills, today))
  {
    assert billOrders[0..] == billOrders;
  }

  /** One turn of the bill-payment loop keeps its invariant. */
  lemma BillPhaseAdvance(billOrders: seq<StandingOrder>, bills: seq<Bill>, today: Date, i: nat, wi: World,
                         listed: seq<StandingOrder>, final: (World, seq<StandingOrder>), w1: World, more: seq<StandingOrder>)
    requires BillLoop(billOrders, bills, today, i, wi, listed, final) && i < |billOrders|
    requires (w1, more) == PayBills(wi, billOrders[i], Matching(wi, billOrders[i], bills), today)
    ensures BillLoop(billOrders, bills, today, i + 1, w1, listed + more, final)
  {
    assert billOrders[i..][0] == billOrders[i] && billOrders[i..][1..] == billOrders[i + 1..];
    BillPhaseUnfold(wi, billOrders[i..], bills, today);
    var tail := BillPhase(w1, billOrders[i + 1..], bills, today);
    ConcatAssoc(listed, more, tail.1);
  }

  lemma BillLoopDone(billOrders: seq<StandingOrder>, bills: seq<Bill>, today: Date, w: World,
                     listed: seq<StandingOrder>, final: (World, seq<StandingOrder>))
    requires BillLoop(billOrders, bills, today, |billOrders|, w, listed, final)
    ensures (w, listed) == final
  {
    assert billOrders[|billOrders|..] == [];
    assert listed + [] == listed;
  }

  lemma ConcatAssoc(a: seq<StandingOrder>, b: seq<StandingOrder>, c: seq<StandingOrder>)
    ensures (a + b) + c == a + (b + c)
  {
  }

  /**
   * A bill-payment order never records a transaction and is never listed as
   * executed: the first matched bill the source can afford is withdrawn and
   * marked PAID, the negated deposit then throws, and the remaining bills are
   * skipped. If no matched bill is affordable, or the withdrawal throws,
   * nothing changes.
   */
  lemma {:induction false} PayBillsContract(w: World, o: StandingOrder, matching: seq<Bill>, today: Date)
    requires o.source in w.books.acc && Covers(w.bills, matching)
    ensures var r := PayBills(w, o, matching, today);
      r.1 == [] && r.0.books.log == w.books.log && r.0.books.counter == w.books.counter && r.0.orders == w.orders
    ensures var r := PayBills(w, o, matching, today);
      r.0 == w || exists k :: PaidFirstAffordable(w, o, matching, today, k, r.0)
    decreases |matching|
  {
    if matching != [] {
      PayStepContract(w, o, matching[0], today);
      var (w1, out) := PayStep(w, o, matching[0], today);
      var r := PayBills(w, o, matching, today);
      if out == Skipped {
        PayBillsContract(w, o, matching[1..], today);
        if r.0 != w {
          var k :| PaidFirstAffordable(w, o, matching[1..], today, k, r.0);
          PaidFirstAffordableShift(w, o, matching, today, k, r.0);
        }
      } else if w1 != w {
        assert PaidFirstAffordable(w, o, matching, today, 0, r.0);
      }
    }
  }

  /**
   * The k-th matched bill is the first the source can afford; it was withdrawn
   * and marked PAID at the start of the day, and nothing else changed.
   */
  predicate PaidFirstAffordable(w: World, o: StandingOrder, matching: seq<Bill>, today: Date, k: int, w': World)
    requires o.source in w.books.acc && Covers(w.bills, matching)
  {
    var s := w.books.acc[o.source];
    0 <= k < |matching| &&
    (forall j :: 0 <= j < k ==> s.balance < matching[j].amount) &&
    s.balance >= matching[k].amount &&
    Withdrawn(s, matching[k].amount).Ok? &&
    w' == World(w.books.(acc := w.books.acc[o.source := Withdrawn(s, matching[k].amount).value]),
                w.bills[matching[k] := MarkedPaid(w.bills[matching[k]], AtStartOfDay(today))], w.orders)
  }

  lemma PaidFirstAffordableShift(w: World, o: StandingOrder, matching: seq<Bill>, today: Date, k: int, w': World)
    requires o.source in w.books.acc && Covers(w.bills, matching) && matching != []
    requires w.books.acc[o.source].balance < matching[0].amount
    requires Covers(w.bills, matching[1..]) && PaidFirstAffordable(w, o, matching[1..], today, k, w')
    ensures PaidFirstAffordable(w, o, matching, today, k + 1, w')
  {
    assert matching[k + 1] == matching[1..][k];
    assert forall j :: 1 <= j < k + 1 ==> matching[j] == matching[1..][j - 1];
  }

  /**
   * A run lists only transfer orders that were due when it started: the
   * bill-payment loop never adds to the list.
   */
  lemma ExecutedAreDueTransfers(w: World, orders: seq<StandingOrder>, bills: seq<Bill>, today: Date)
    requires Fits(w, orders, bills)
    ensures forall o :: o in ExecuteDue(w, orders, bills, today).1 ==>
      o in orders && o.orderType == Transfer && Due(w.orders[o], Transfer, today)
  {
    assert forall i :: 0 <= i < |orders| ==> orders[i] in orders;
    var due := SelectOrders(orders, w.orders, DueTransfer(today));
    SelectOrdersMembers(orders, w.orders, DueTransfer(today));
    var (w1, e1) := DueTransferRun(w, orders, today);
    TransferPhaseListsDue(w, due);
    FitsKept(w, w1, orders);
    CoversKept(w.bills, w1.bills, bills);
    assert KnownOrders(w1.orders, orders);
    var billOrders := SelectOrders(orders, w1.orders, ActiveBillPayment);
    SelectOrdersMembers(orders, w1.orders, ActiveBillPayment);
    BillPhaseListsNothing(w1, billOrders, bills, today);
  }

  lemma {:induction false} TransferPhaseListsDue(w: World, due: seq<StandingOrder>)
    requires forall o :: o in due ==> OrderFits(w, o)
    ensures forall o :: o in TransferPhase(w, due).1 ==> o in due
    decreases |due|
  {
    if due != [] {
      var (w1, ok) := TransferStep(w, due[0]);
      FitsKept(w, w1, due);
      TransferPhaseListsDue(w1, due[1..]);
    }
  }

  lemma {:induction false} BillPhaseListsNothing(w: World, billOrders: seq<StandingOrder>, bills: seq<Bill>, today: Date)
    requires (forall o :: o in billOrders ==> o.source in w.books.acc) && Covers(w.bills, bills)
    ensures BillPhase(w, billOrders, bills, today).1 == []
    ensures BillPhase(w, billOrders, bills, today).0.books.log == w.books.log
    decreases |billOrders|
  {
    if billOrders != [] {
      var o := billOrders[0];
      PayBillsContract(w, o, Matching(w, o, bills), today);
      var (w1, e1) := PayBills(w, o, Matching(w, o, bills), today);
      BillPhaseListsNothing(w1, billOrders[1..], bills, today);
    }
  }

  /**
   * A bill-payment order goes for the RF matches when there are any, and
   * falls back to the provider's outstanding bills only when there are none.
   */
  lemma MatchingContract(w: World, o: StandingOrder, bills: seq<Bill>)
    requires Covers(w.bills, bills)
    ensures var byRf := Select(bills, w.bills, OutstandingWithRf(o.rfCode));
      byRf != [] ==> Matching(w, o, bills) == byRf
    ensures var byRf := Select(bills, w.bills, OutstandingWithRf(o.rfCode));
      byRf == [] ==> Matching(w, o, bills) == Select(bills, w.bills, OutstandingFromProvider(o.providerName))
    ensures forall b :: b in Matching(w, o, bills) ==> b in bills && Outstanding(w.bills[b].status)
  {
    SelectMembers(bills, w.bills, OutstandingWithRf(o.rfCode));
    SelectMembers(bills, w.bills, OutstandingFromProvider(o.providerName));
  }

  /** The due-transfer query keeps exactly the ACTIVE transfer orders whose date has come. */
  lemma DueTransferQuery(orders: seq<StandingOrder>, st: map<StandingOrder, OrderState>, today: Date)
    requires KnownOrders(st, orders)
    ensures forall o :: o in SelectOrders(orders, st, DueTransfer(today)) <==>
      o in orders && o.orderType == Transfer && st[o].status == OrderStatus.Active &&
      st[o].nextExecutionDate.Some? && !IsAfter(st[o].nextExecutionDate.value, today)
    ensures forall o :: o in SelectOrders(orders, st, ActiveBillPayment) <==>
      o in orders && o.orderType == BillPayment && st[o].status == OrderStatus.Active
  {
    SelectOrdersMembers(orders, st, DueTransfer(today));
    SelectOrdersMembers(orders, st, ActiveBillPayment);
  }

  /** Distinct counter values give distinct order ids. */
  lemma OrderIdsDistinct(a: nat, b: nat)
    requires a != b
    ensures OrderId(a) != OrderId(b)
    ensures |OrderId(a)| >= 8 && OrderId(a)[..2] == "SO"
  {
    Text.ZeroPadRoundTrip(a, 6);
    Text.ZeroPadRoundTrip(b, 6);
    assert OrderId(a)[2..] == Text.ZeroPad(a, 6);
    assert OrderId(b)[2..] == Text.ZeroPad(b, 6);
  }

  /** findById returns the first order with the id, and null exactly when there is none. */
  lemma {:induction false} FindOrderContract(orders: seq<StandingOrder>, id: string)
    ensures FindOrder(orders, id).None? <==> forall i :: 0 <= i < |orders| ==> orders[i].id != id
    ensures FindOrder(orders, id).Some? ==>
      exists k :: 0 <= k < |orders| && orders[k] == FindOrder(orders, id).value && orders[k].id == id &&
        forall j :: 0 <= j < k ==> orders[j].id != id
    decreases |orders|
  {
    if orders != [] && orders[0].id != id {
      FindOrderContract(orders[1..], id);
      if FindOrder(orders, id).Some? {
        var k :| 0 <= k < |orders[1..]| && orders[1..][k] == FindOrder(orders, id).value && orders[1..][k].id == id &&
          forall j :: 0 <= j < k ==> orders[1..][j].id != id;
        assert forall j :: 1 <= j < k + 1 ==> orders[j] == orders[1..][j - 1];
        assert orders[k + 1] == orders[1..][k];
      } else {
        assert forall i :: 1 <= i < |orders| ==> orders[i] == orders[1..][i - 1];
      }
    }
  }

  /** An administrator has no standing orders; a customer has exactly the listed orders it owns. */
  lemma OrdersForUserContract(orders: seq<StandingOrder>, st: map<StandingOrder, OrderState>, user: User)
    requires KnownOrders(st, orders)
    ensures user.role.Admin? ==> OrdersForUser(orders, st, user) == []
    ensures !user.role.Admin? ==>
      forall o :: o in OrdersForUser(orders, st, user) <==> o in orders && o.owner.id == user.id
  {
    SelectOrdersMembers(orders, st, OrderCriterion.OwnedBy(user.id));
  }

  // -----------------------------------------------------------------------
  // The manager on the heap
  // -----------------------------------------------------------------------

  /** The World the ledger, the accounts in S, the bills in B and the orders in O make up. */
  ghost function WorldOf(S: set<Account>, tm: TransactionManager, B: set<Bill>, O: set<StandingOrder>): World
    reads tm, S, B, O
  {
    World(tm.BooksOf(S), BillMap(B), OrderMap(O))
  }

  /** order.recordExecution(), seen through the World of S, tm, B and O. */
  method RecordInWorld(ghost S: set<Account>, tm: TransactionManager, ghost B: set<Bill>, ghost O: set<StandingOrder>,
                       o: StandingOrder)
    returns (ok: bool)
    requires o in O
    modifies o
    ensures var w := old(WorldOf(S, tm, B, O));
      var c := Recorded(w.orders[o], o.orderType, o.executionDay, o.frequencyMonths);
      ok == c.Ok? && WorldOf(S, tm, B, O) == (if c.Ok? then w.(orders := w.orders[o := c.value]) else w)
  {
    ghost var m := OrderMap(O);
    var recorded := o.RecordExecution();
    assert OrderMap(O) == m[o := o.State()];
    if recorded.Fail? {
      assert OrderMap(O) == m;
    }
    ok := recorded.Pass?;
  }

  class StandingOrderManager {
    var orders: seq<StandingOrder>
    var counter: nat

    /** new StandingOrderManager(): ids from 1. */
    constructor()
      ensures orders == [] && counter == 1
    {
      orders := [];
      counter := 1;
    }

    /** new StandingOrderManager(list): ids continue after the list's size. */
    constructor FromList(orders: seq<StandingOrder>)
      ensures this.orders == orders && counter == |orders| + 1
    {
      this.orders := orders;
      counter := |orders| + 1;
    }

    /**
     * createTransferStandingOrder: the id takes the counter before the order
     * is constructed, so an execution day below 1, for which the constructor
     * throws, still uses up an id.
     */
    method CreateTransferOrder(source: Account, destination: Account, amount: real, frequencyMonths: int,
                               executionDay: int, description: string, owner: User, today: Date)
      returns (r: Result<StandingOrder, Exception>)
      modifies this
      ensures counter == old(counter) + 1
      ensures executionDay < 1 <==> r.Err?
      ensures r.Err? ==> r.error.DateTimeError? && orders == old(orders)
      ensures r.Ok? ==> fresh(r.value) && orders == old(orders) + [r.value] && r.value.id == OrderId(old(counter))
      ensures r.Ok? ==> (r.value.orderType == Transfer && r.value.source == source &&
        r.value.destination == destination && r.value.amount == Some(amount) &&
        r.value.frequencyMonths == frequencyMonths && r.value.executionDay == executionDay &&
        r.value.description == description && r.value.owner == owner)
      ensures r.Ok? ==> Calculated(OrderState(OrderStatus.Active, None), Transfer, today, executionDay, frequencyMonths) == Ok(r.value.State())
    {
      var id := OrderId(counter);
      counter := counter + 1;
      if executionDay < 1 {
        return Err(DateTimeError("Invalid value for DayOfMonth"));
      }
      var order := new StandingOrder.Transfer(id, source, destination, amount, frequencyMonths, executionDay,
                                              description, owner, today);
      orders := orders + [order];
      r := Ok(order);
    }

    /** createBillPaymentStandingOrder. */
    method CreateBillPaymentOrder(source: Account, rfCode: Option<string>, providerName: Option<string>, owner: User)
      returns (order: StandingOrder)
      modifies this
      ensures counter == old(counter) + 1
      ensures fresh(order) && orders == old(orders) + [order] && order.id == OrderId(old(counter))
      ensures order.orderType == BillPayment && order.source == source && order.rfCode == rfCode
      ensures order.providerName == providerName && order.owner == owner
      ensures order.State() == OrderState(OrderStatus.Active, None)
    {
      var id := OrderId(counter);
      counter := counter + 1;
      order := new StandingOrder.BillPayment(id, source, rfCode, providerName, owner);
      orders := orders + [order];
    }

    /** The current state of every listed order. */
    function States(): map<StandingOrder, OrderState>
      reads this, set o | o in orders
    {
      OrderMap(set o | o in orders)
    }

    /** getStandingOrdersForCustomer: every order the customer owns, in list order. */
    function OrdersForCustomer(customer: User): (r: seq<StandingOrder>)
      reads this, set o | o in orders
      ensures forall i :: 0 <= i < |r| ==> r[i] in orders && r[i].owner.id == customer.id
      ensures forall i :: 0 <= i < |orders| && orders[i].owner.id == customer.id ==> orders[i] in r
      ensures |r| <= |orders|
    {
      var st := States();
      var sel := SelectOrders(orders, st, OrderCriterion.OwnedBy(customer.id));
      SelectOrdersIndexed(orders, st, OrderCriterion.OwnedBy(customer.id));
      assert forall i :: 0 <= i < |orders| ==> st[orders[i]] == orders[i].State();
      assert forall i :: 0 <= i < |sel| ==> st[sel[i]] == sel[i].State();
      sel
    }

    /** getActiveStandingOrdersForCustomer: the customer's ACTIVE orders, in list order. */
    function ActiveOrdersForCustomer(customer: User): (r: seq<StandingOrder>)
      reads this, set o | o in orders
      ensures forall i :: 0 <= i < |r| ==>
        r[i] in orders && r[i].owner.id == customer.id && r[i].status == OrderStatus.Active
      ensures forall i :: 0 <= i < |orders| && orders[i].owner.id == customer.id && orders[i].status == OrderStatus.Active ==>
        orders[i] in r
      ensures |r| <= |orders|
    {
      var st := States();
      var sel := SelectOrders(orders, st, ActiveOwnedBy(customer.id));
      SelectOrdersIndexed(orders, st, ActiveOwnedBy(customer.id));
      assert forall i :: 0 <= i < |orders| ==> st[orders[i]] == orders[i].State();
      assert forall i :: 0 <= i < |sel| ==> st[sel[i]] == sel[i].State();
      sel
    }

    /** getDueTransferOrders: the ACTIVE transfer orders whose next execution date is not after today. */
    function DueTransferOrders(today: Date): (r: seq<StandingOrder>)
      reads this, set o | o in orders
      ensures forall i :: 0 <= i < |r| ==>
        r[i] in orders && r[i].orderType == Transfer && r[i].status == OrderStatus.Active &&
        r[i].nextExecutionDate.Some? && !IsAfter(r[i].nextExecutionDate.value, today)
      ensures forall i ::
        (0 <= i < |orders| && orders[i].orderType == Transfer && orders[i].status == OrderStatus.Active &&
         orders[i].nextExecutionDate.Some? && !IsAfter(orders[i].nextExecutionDate.value, today)) ==>
        orders[i] in r
      ensures |r| <= |orders|
    {
      var st := States();
      var sel := SelectOrders(orders, st, DueTransfer(today));
      SelectOrdersIndexed(orders, st, DueTransfer(today));
      assert forall i :: 0 <= i < |orders| ==> st[orders[i]] == orders[i].State();
      assert forall i :: 0 <= i < |sel| ==> st[sel[i]] == sel[i].State();
      sel
    }

    /** getActiveBillPaymentOrders: the ACTIVE bill-payment orders, in list order. */
    function ActiveBillPaymentOrders(): (r: seq<StandingOrder>)
      reads this, set o | o in orders
      ensures forall i :: 0 <= i < |r| ==>
        r[i] in orders && r[i].orderType == BillPayment && r[i].status == OrderStatus.Active
      ensures forall i :: 0 <= i < |orders| && orders[i].orderType == BillPayment && orders[i].status == OrderStatus.Active ==>
        orders[i] in r
      ensures |r| <= |orders|
    {
      var st := States();
      var sel := SelectOrders(orders, st, ActiveBillPayment);
      SelectOrdersIndexed(orders, st, ActiveBillPayment);
      assert forall i :: 0 <= i < |orders| ==> st[orders[i]] == orders[i].State();
      assert forall i :: 0 <= i < |sel| ==> st[sel[i]] == sel[i].State();
      sel
    }

    /** pauseOrder. */
    method PauseOrder(order: StandingOrder)
      modifies order
      ensures order.State() == old(order.State()).(status := PausedFrom(old(order.status)))
    {
      if order.status == OrderStatus.Active {
        order.SetStatus(OrderStatus.Paused);
      }
    }

    /** resumeOrder. */
    method ResumeOrder(order: StandingOrder)
      modifies order
      ensures order.State() == old(order.State()).(status := ResumedFrom(old(order.status)))
    {
      if order.status == OrderStatus.Paused {
        order.SetStatus(OrderStatus.Active);
      }
    }

    /** cancelOrder. */
    method CancelOrder(order: StandingOrder)
      modifies order
      ensures order.State() == old(order.State()).(status := CancelledFrom(old(order.status)))
    {
      if order.status != OrderStatus.Cancelled {
        order.SetStatus(OrderStatus.Cancelled);
      }
    }

    /** The body of the transfer loop for one order. */
    method ExecuteTransferOrder(ghost S: set<Account>, ghost B: set<Bill>, ghost O: set<StandingOrder>,
                                o: StandingOrder, tm: TransactionManager)
      returns (ok: bool)
      requires o in O && o.source in S && (o.destination != null ==> o.destination in S)
      modifies tm, S, o
      ensures (WorldOf(S, tm, B, O), ok) == TransferStep(old(WorldOf(S, tm, B, O)), o)
    {
      ghost var w := WorldOf(S, tm, B, O);
      ok := false;
      if o.amount.None? || o.source.balance < o.amount.value {
        return;
      }
      var r := tm.Transfer(S, o.source, o.destination, o.amount.value, Some("Standing Order: " + o.description));
      assert WorldOf(S, tm, B, O) == w.(books := tm.BooksOf(S));
      if r.Err? {
        return;
      }
      ok := RecordInWorld(S, tm, B, O, o);
    }

    /** The transfer loop of executeDueOrders. */
    method RunTransferOrders(ghost S: set<Account>, ghost B: set<Bill>, ghost O: set<StandingOrder>,
                             due: seq<StandingOrder>, tm: TransactionManager)
      returns (executed: seq<StandingOrder>)
      requires forall o :: o in due ==> o in O && o.source in S && (o.destination != null ==> o.destination in S)
      modifies tm, S, O
      ensures (WorldOf(S, tm, B, O), executed) == TransferPhase(old(WorldOf(S, tm, B, O)), due)
    {
      ghost var w0 := WorldOf(S, tm, B, O);
      TransferLoopStart(w0, due);
      ghost var final := TransferPhase(w0, due);
      executed := [];
      var i := 0;
      while i < |due|
        invariant i <= |due|
        invariant TransferLoop(due, i, WorldOf(S, tm, B, O), executed, final)
      {
        ghost var wi := WorldOf(S, tm, B, O);
        var ok := ExecuteTransferOrder(S, B, O, due[i], tm);
        TransferLoopAdvance(due, i, wi, executed, final, WorldOf(S, tm, B, O), ok);
        if ok {
          executed := executed + [due[i]];
        }
        i := i + 1;
      }
      TransferLoopDone(due, WorldOf(S, tm, B, O), executed, final);
    }

    /** The body of the inner loop of a bill-payment order, for one matched bill. */
    method PayBill(ghost S: set<Account>, ghost B: set<Bill>, ghost O: set<StandingOrder>,
                   o: StandingOrder, bill: Bill, today: Date, tm: TransactionManager)
      returns (out: PayOutcome)
      requires o.source in S && bill in B
      modifies tm, S, B
      ensures (WorldOf(S, tm, B, O), out) == PayStep(old(WorldOf(S, tm, B, O)), o, bill, today)
    {
      var src := o.source;
      if src.balance < bill.amount {
        return Skipped;
      }
      ghost var w := WorldOf(S, tm, B, O);
      var taken := TakeBill(S, B, O, o, bill, today, tm);
      if !taken {
        return Stopped;
      }
      ghost var w1 := WorldOf(S, tm, B, O);
      assert Taken(w, o, bill, today) == Some(w1);
      var t := tm.Deposit(S, src, -bill.amount, Some("Bill payment: " + bill.providerName));
      assert WorldOf(S, tm, B, O) == w1.(books := tm.BooksOf(S));
      if t.Err? {
        return Stopped;
      }
      out := PaidBill;
    }

    /** source.withdraw(amount), then bill.markAsPaid at the start of the day. */
    method TakeBill(ghost S: set<Account>, ghost B: set<Bill>, ghost O: set<StandingOrder>,
                    o: StandingOrder, bill: Bill, today: Date, tm: TransactionManager)
      returns (taken: bool)
      requires o.source in S && bill in B
      modifies S, B
      ensures taken == Taken(old(WorldOf(S, tm, B, O)), o, bill, today).Some?
      ensures WorldOf(S, tm, B, O) ==
        if taken then Taken(old(WorldOf(S, tm, B, O)), o, bill, today).value else old(WorldOf(S, tm, B, O))
    {
      ghost var w := WorldOf(S, tm, B, O);
      var r := WithdrawIn(S, o.source, bill.amount);
      if r.Fail? {
        return false;
      }
      ghost var books := tm.BooksOf(S);
      MarkPaidIn(B, bill, AtStartOfDay(today));
      assert tm.BooksOf(S) == books;
      assert OrderMap(O) == w.orders;
      taken := true;
    }

    /** The inner loop of one bill-payment order, over its matched bills. */
    method PayMatchingBills(ghost S: set<Account>, ghost B: set<Bill>, ghost O: set<StandingOrder>,
                            o: StandingOrder, matching: seq<Bill>, today: Date, tm: TransactionManager)
      returns (listed: seq<StandingOrder>)
      requires o.source in S && forall b :: b in matching ==> b in B
      modifies tm, S, B
      ensures (WorldOf(S, tm, B, O), listed) == PayBills(old(WorldOf(S, tm, B, O)), o, matching, today)
    {
      ghost var w0 := WorldOf(S, tm, B, O);
      PayLoopStart(w0, o, matching, today);
      ghost var final := PayBills(w0, o, matching, today);
      listed := [];
      var i := 0;
      while i < |matching|
        invariant i <= |matching|
        invariant PayLoop(o, matching, today, i, WorldOf(S, tm, B, O), listed, final)
      {
        ghost var wi := WorldOf(S, tm, B, O);
        var out := PayBill(S, B, O, o, matching[i], today, tm);
        PayLoopNext(o, matching, today, i, wi, listed, final, WorldOf(S, tm, B, O), out);
        if out == Stopped {
          return;
        }
        if out == PaidBill {
          listed := listed + [o];
        }
        i := i + 1;
      }
      PayLoopDone(o, matching, today, WorldOf(S, tm, B, O), listed, final);
    }

    /** The body of the bill-payment loop for one order. */
    method ExecuteBillOrder(ghost S: set<Account>, ghost B: set<Bill>, ghost O: set<StandingOrder>,
                            o: StandingOrder, today: Date, tm: TransactionManager, bm: BillManager)
      returns (listed: seq<StandingOrder>)
      requires o.source in S && B == set b | b in bm.bills
      modifies tm, S, B
      ensures (WorldOf(S, tm, B, O), listed) ==
        PayBills(old(WorldOf(S, tm, B, O)), o, Matching(old(WorldOf(S, tm, B, O)), o, bm.bills), today)
    {
      ghost var w := WorldOf(S, tm, B, O);
      var matching := bm.UnpaidByRfCode(o.rfCode);
      if matching == [] {
        matching := bm.UnpaidByProvider(o.providerName);
      }
      assert matching == Matching(w, o, bm.bills);
      SelectMembers(bm.bills, BillMap(B), OutstandingWithRf(o.rfCode));
      SelectMembers(bm.bills, BillMap(B), OutstandingFromProvider(o.providerName));
      listed := PayMatchingBills(S, B, O, o, matching, today, tm);
    }

    /** The bill-payment loop of executeDueOrders. */
    method RunBillOrders(ghost S: set<Account>, ghost B: set<Bill>, ghost O: set<StandingOrder>,
                         billOrders: seq<StandingOrder>, today: Date, tm: TransactionManager, bm: BillManager)
      returns (listed: seq<StandingOrder>)
      requires (forall o :: o in billOrders ==> o.source in S) && B == set b | b in bm.bills
      modifies tm, S, B
      ensures (WorldOf(S, tm, B, O), listed) == BillPhase(old(WorldOf(S, tm, B, O)), billOrders, bm.bills, today)
    {
      ghost var w0 := WorldOf(S, tm, B, O);
      BillLoopStart(w0, billOrders, bm.bills, today);
      ghost var final := BillPhase(w0, billOrders, bm.bills, today);
      listed := [];
      var i := 0;
      while i < |billOrders|
        invariant i <= |billOrders| && B == set b | b in bm.bills
        invariant BillLoop(billOrders, bm.bills, today, i, WorldOf(S, tm, B, O), listed, final)
      {
        ghost var wi := WorldOf(S, tm, B, O);
        var more := ExecuteBillOrder(S, B, O, billOrders[i], today, tm, bm);
        BillPhaseAdvance(billOrders, bm.bills, today, i, wi, listed, final, WorldOf(S, tm, B, O), more);
        listed := listed + more;
        i := i + 1;
      }
      BillLoopDone(billOrders, bm.bills, today, WorldOf(S, tm, B, O), listed, final);
    }

    /** executeDueOrders: the transfer loop, then the bill-payment loop. */
    method ExecuteDueOrders(ghost S: set<Account>, today: Date, tm: TransactionManager, bm: BillManager)
      returns (executed: seq<StandingOrder>)
      requires forall o :: o in orders ==> o.source in S && (o.destination != null ==> o.destination in S)
      modifies tm, S, set b | b in bm.bills, set o | o in orders
      ensures var B := set b | b in bm.bills;
        var O := set o | o in orders;
        (WorldOf(S, tm, B, O), executed) == ExecuteDue(old(WorldOf(S, tm, B, O)), orders, bm.bills, today)
    {
      ghost var B := set b | b in bm.bills;
      ghost var O := set o | o in orders;
      var transferred := RunDueTransferOrders(S, B, O, today, tm);
      var paid := RunActiveBillOrders(S, B, O, today, tm, bm);
      executed := transferred + paid;
    }

    /** The first half of executeDueOrders: the due transfer orders, each in turn. */
    method RunDueTransferOrders(ghost S: set<Account>, ghost B: set<Bill>, ghost O: set<StandingOrder>,
                                today: Date, tm: TransactionManager)
      returns (transferred: seq<StandingOrder>)
      requires O == set o | o in orders
      requires forall o :: o in orders ==> o.source in S && (o.destination != null ==> o.destination in S)
      modifies tm, S, O
      ensures (WorldOf(S, tm, B, O), transferred) == DueTransferRun(old(WorldOf(S, tm, B, O)), orders, today)
    {
      ghost var w := WorldOf(S, tm, B, O);
      assert forall i :: 0 <= i < |orders| ==> orders[i] in orders;
      var due := DueTransferOrders(today);
      SelectOrdersMembers(orders, w.orders, DueTransfer(today));
      transferred := RunTransferOrders(S, B, O, due, tm);
    }

    /** The second half of executeDueOrders: the active bill-payment orders, each in turn. */
    method RunActiveBillOrders(ghost S: set<Account>, ghost B: set<Bill>, ghost O: set<StandingOrder>,
                               today: Date, tm: TransactionManager, bm: BillManager)
      returns (paid: seq<StandingOrder>)
      requires O == set o | o in orders
      requires forall o :: o in orders ==> o.source in S && (o.destination != null ==> o.destination in S)
      requires B == set b | b in bm.bills
      modifies tm, S, B
      ensures (WorldOf(S, tm, B, O), paid) == ActiveBillRun(old(WorldOf(S, tm, B, O)), orders, bm.bills, today)
    {
      ghost var w := WorldOf(S, tm, B, O);
      assert forall i :: 0 <= i < |orders| ==> orders[i] in orders;
      var billOrders := ActiveBillPaymentOrders();
      SelectOrdersMembers(orders, w.orders, ActiveBillPayment);
      paid := RunBillOrders(S, B, O, billOrders, today, tm, bm);
    }
  }
}
