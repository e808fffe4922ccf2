/**
 * The bank as a whole (BankSystem): the managers over one shared set of
 * accounts, bills, standing orders and transactions, the virtual current
 * date, the day-stepping simulation and the direct bill payment.
 */
module Banking {
  import opened Wrappers
  import opened Dates
  import opened Users
  import opened Accounts
  import opened Transactions
  import opened Ledger
  import opened Bills
  import opened BillManagement
  import opened StandingOrders
  import opened StandingOrderManagement
  import opened AccountManagement
  import opened Simulation
  import Money

  /** The issuer's first business account, which a direct bill payment credits. */
  function Payee(accounts: seq<Account>, issuer: User?): (r: Option<Account>)
    reads set a | a in accounts
    ensures r.Some? ==> r.value in accounts && r.value.kind == AccountKind.Business
  {
    if issuer == null then None
    else
      var owned := OwnedOfKind(accounts, AccountKind.Business, issuer);
      OwnedOfKindContract(accounts, AccountKind.Business, issuer);
      if owned == [] then None else Some(owned[0])
  }

  /** The description of a direct bill payment. */
  function BillDescription(bill: Bill): string {
    "Bill payment: " + bill.providerName + " (RF: " + bill.rfCode + ")"
  }

  /** sourceAccount.withdraw(amount + fee), then bill.markAsPaid(at); an exception from the withdrawal ends it. */
  function Debited(w: World, bill: Bill, source: Account, at: DateTime): (r: Result<World, Exception>)
    requires bill in w.bills && source in w.books.acc
    ensures r.Ok? ==> SameKeys(w, r.value)
  {
    match Withdrawn(w.books.acc[source], bill.amount + Money.BillPaymentFee)
    case Err(e) => Err(e)
    case Ok(s) =>
      Ok(w.(books := w.books.(acc := w.books.acc[source := s]), bills := w.bills[bill := MarkedPaid(w.bills[bill], at)]))
  }

  /** The payee's deposit of the bill amount, when there is a payee. */
  function Credited(w: World, payee: Option<Account>, amount: real): (r: Result<World, Exception>)
    requires payee.Some? ==> payee.value in w.books.acc
    ensures r.Ok? ==> SameKeys(w, r.value)
  {
    if payee.None? then Ok(w)
    else
      match Deposited(w.books.acc[payee.value], amount)
      case Err(e) => Err(e)
      case Ok(s) => Ok(w.(books := w.books.(acc := w.books.acc[payee.value := s])))
  }

  /** The BILL_PAYMENT record: id size + 1, the source's balance as the snapshot and as the balance after. */
  function BillPaymentRecord(w: World, bill: Bill, source: Account): Transaction
    requires source in w.books.acc
  {
    WithBalanceAfter(Opened(|w.books.log| + 1, source, null, bill.amount, TransactionType.BillPayment,
                            BillDescription(bill), w.books.acc), w.books.acc[source].balance)
  }

  /**
   * BankSystem.payBill on values: a PAID bill, or a balance below the amount
   * plus the 0.50 fee, throws before anything changes; otherwise the source is
   * debited, the bill marked paid at the given time, the payee (if any) is
   * credited the amount without the fee, and one BILL_PAYMENT record with id
   * size + 1 is appended without touching the transaction counter. A failing
   * withdrawal throws with nothing changed; a failing credit throws after the
   * debit and the marking.
   */
  function DirectBillPayment(w: World, bill: Bill, source: Account, payee: Option<Account>, at: DateTime)
    : (World, Result<Transaction, Exception>)
    requires bill in w.bills && source in w.books.acc && (payee.Some? ==> payee.value in w.books.acc)
  {
    if w.bills[bill].status == Paid then (w, Err(IllegalState("Bill is already paid")))
    else if w.books.acc[source].balance < bill.amount + Money.BillPaymentFee then (w, Err(IllegalState("Insufficient funds")))
    else
      match Debited(w, bill, source, at)
      case Err(e) => (w, Err(e))
      case Ok(w1) =>
        match Credited(w1, payee, bill.amount)
        case Err(e) => (w1, Err(e))
        case Ok(w2) =>
          var t := BillPaymentRecord(w2, bill, source);
          (w2.(books := w2.books.(log := w2.books.log + [t])), Ok(t))
  }

  /**
   * A direct bill payment refuses a PAID bill and a short balance with
   * nothing changed. When it succeeds the source has lost the amount plus the
   * fee (when it is not the payee), the bill is PAID at the given time, the
   * payee has gained the amount, and the log has grown by one BILL_PAYMENT
   * record with id size + 1 while the counter stays; so when the log was
   * aligned with its counter, the next record the manager logs repeats that id.
   */
  lemma DirectBillPaymentContract(w: World, bill: Bill, source: Account, payee: Option<Account>, at: DateTime)
    requires bill in w.bills && source in w.books.acc && (payee.Some? ==> payee.value in w.books.acc)
    ensures var (w', r) := DirectBillPayment(w, bill, source, payee, at);
      (w.bills[bill].status == Paid ==> w' == w && r == Err(IllegalState("Bill is already paid"))) &&
      (w.bills[bill].status != Paid && w.books.acc[source].balance < bill.amount + Money.BillPaymentFee ==>
        w' == w && r == Err(IllegalState("Insufficient funds")))
    ensures var (w', r) := DirectBillPayment(w, bill, source, payee, at);
      r.Ok? ==>
        w'.bills == w.bills[bill := BillState(Paid, Some(at))] && w'.orders == w.orders &&
        w'.books.counter == w.books.counter && w'.books.log == w.books.log + [r.value] &&
        r.value.id == |w.books.log| + 1 && r.value.txType == TransactionType.BillPayment && r.value.amount == bill.amount &&
        r.value.from == source && r.value.to == null &&
        (payee != Some(source) ==> w'.books.acc[source].balance == w.books.acc[source].balance - bill.amount - 0.50) &&
        (payee.Some? && payee.value != source ==>
          w'.books.acc[payee.value].balance == w.books.acc[payee.value].balance + bill.amount)
    ensures var (w', r) := DirectBillPayment(w, bill, source, payee, at);
      r.Ok? && Aligned(w.books) ==> w'.books.counter == r.value.id && !Aligned(w'.books)
  {
  }

  /** The World the ledger, the accounts in S, the bills in B and the orders in O make up, with the date. */
  class BankSystem {
    const accountManager: AccountManager
    const transactionManager: TransactionManager
    const billManager: BillManager
    const standingOrderManager: StandingOrderManager
    var currentDate: Date

    /** The managers over the shared lists, and the date the clock gave. */
    constructor(accountManager: AccountManager, transactionManager: TransactionManager, billManager: BillManager,
                standingOrderManager: StandingOrderManager, today: Date)
      ensures this.accountManager == accountManager && this.transactionManager == transactionManager
      ensures this.billManager == billManager && this.standingOrderManager == standingOrderManager
      ensures currentDate == today
    {
      this.accountManager := accountManager;
      this.transactionManager := transactionManager;
      this.billManager := billManager;
      this.standingOrderManager := standingOrderManager;
      currentDate := today;
    }

    ghost function Bills(): set<Bill>
      reads billManager
    {
      set b | b in billManager.bills
    }

    ghost function Orders(): set<StandingOrder>
      reads standingOrderManager
    {
      set o | o in standingOrderManager.orders
    }

    /** The shared state: the accounts in S, the log, every listed bill and every listed order. */
    ghost function State(S: set<Account>): World
      reads billManager, standingOrderManager, transactionManager, S, Bills(), Orders()
    {
      WorldOf(S, transactionManager, Bills(), Orders())
    }

    /** S holds every listed account and every account a standing order names. */
    ghost predicate Knows(S: set<Account>)
      reads accountManager, standingOrderManager
    {
      (forall i :: 0 <= i < |accountManager.accounts| ==> accountManager.accounts[i] in S) &&
      (forall o :: o in standingOrderManager.orders ==> o.source in S && (o.destination != null ==> o.destination in S))
    }

    /** S knows the shared lists, so the state fits them. */
    ghost predicate Ready(S: set<Account>)
      reads accountManager, billManager, standingOrderManager, transactionManager, S, Bills(), Orders()
    {
      Knows(S) && Listed(State(S).books.acc, accountManager.accounts) &&
      Fits(State(S), standingOrderManager.orders, billManager.bills)
    }

    /** What S knows, the state fits. */
    lemma StateFits(S: set<Account>)
      requires Knows(S)
      ensures Ready(S)
    {
      assert forall i :: 0 <= i < |billManager.bills| ==> billManager.bills[i] in Bills();
    }

    /** One pass of the while loop: accrual, the month-end block, standing orders, aging. */
    method RunDay(ghost S: set<Account>, ghost w: World, target: Date)
      requires Knows(S) && State(S) == w
      requires Listed(w.books.acc, accountManager.accounts) && Fits(w, standingOrderManager.orders, billManager.bills)
      modifies transactionManager, S, Bills(), Orders()
      ensures State(S) == DayStep(w, accountManager.accounts, standingOrderManager.orders,
                                  billManager.bills, currentDate, target)
    {
      RunBooks(S, w, target);
      FitsKept(w, State(S), standingOrderManager.orders);
      RunSchedule(S, State(S));
    }

    /** The accrual loop and, at a month's end or on the target day, the month-end block. */
    method RunBooks(ghost S: set<Account>, ghost w: World, target: Date)
      requires Knows(S) && State(S) == w && Listed(w.books.acc, accountManager.accounts)
      modifies transactionManager, S
      ensures State(S) == BooksDay(w, accountManager.accounts, currentDate, target)
    {
      RunAccrual(S, w);
      if NextDay(currentDate).month != currentDate.month || currentDate == target {
        RunMonthEnd(S, State(S));
      }
    }

    /** The accrual loop of one day. */
    method RunAccrual(ghost S: set<Account>, ghost w: World)
      requires Knows(S) && State(S) == w && Listed(w.books.acc, accountManager.accounts)
      modifies S
      ensures State(S) == w.(books := w.books.(acc := AccrueAll(w.books.acc, accountManager.accounts)))
    {
      AccrueActive(S, accountManager.accounts);
    }

    /** The month-end block of one day. */
    method RunMonthEnd(ghost S: set<Account>, ghost w: World)
      requires Knows(S) && State(S) == w && Listed(w.books.acc, accountManager.accounts)
      modifies transactionManager, S
      ensures State(S) == w.(books := MonthEnd(w.books, accountManager.accounts))
    {
      MonthEndIn(S, transactionManager, accountManager);
    }

    /** The standing orders due today, then the aging of the bills. */
    method RunSchedule(ghost S: set<Account>, ghost w: World)
      requires Knows(S) && State(S) == w && Fits(w, standingOrderManager.orders, billManager.bills)
      modifies transactionManager, S, Bills(), Orders()
      ensures State(S) == ScheduleDay(w, standingOrderManager.orders, billManager.bills, currentDate)
    {
      ghost var w3 := ExecuteDue(w, standingOrderManager.orders, billManager.bills, currentDate).0;
      CoversKept(w.bills, w3.bills, billManager.bills);
      RunOrders(S, w);
      RunAging(S, w3);
    }

    /** The standing orders due today. */
    method RunOrders(ghost S: set<Account>, ghost w: World)
      requires Knows(S) && State(S) == w && Fits(w, standingOrderManager.orders, billManager.bills)
      modifies transactionManager, S, Bills(), Orders()
      ensures State(S) == ExecuteDue(w, standingOrderManager.orders, billManager.bills, currentDate).0
    {
      var _ := standingOrderManager.ExecuteDueOrders(S, currentDate, transactionManager, billManager);
    }

    /** updateOverdueBills on today's date. */
    method RunAging(ghost S: set<Account>, ghost w: World)
      requires State(S) == w && Covers(w.bills, billManager.bills)
      modifies Bills()
      ensures State(S) == w.(bills := AgedAll(w.bills, billManager.bills, currentDate))
    {
      billManager.UpdateOverdueBills(currentDate);
    }

    /**
     * simulateTimePassing: a target before the current date throws with
     * nothing changed; otherwise every day from the current date through the
     * target is processed and the date becomes the target.
     */
    method SimulateTimePassing(ghost S: set<Account>, target: Date) returns (r: Outcome<Exception>)
      requires Ready(S)
      modifies this`currentDate, transactionManager, S, Bills(), Orders()
      ensures Ready(S)
      ensures Simulated(old(State(S)), accountManager.accounts, standingOrderManager.orders, billManager.bills,
                        old(currentDate), target) ==
              (if r.Pass? then Ok((State(S), currentDate)) else Err(r.error))
      ensures r.Fail? ==> State(S) == old(State(S)) && currentDate == old(currentDate)
    {
      if IsBefore(target, currentDate) {
        return Fail(IllegalArgument("Cannot simulate backwards in time"));
      }
      RunTo(S, target);
      r := Pass;
    }

    /** The loop, then `currentDate = targetDate`. */
    method RunTo(ghost S: set<Account>, target: Date)
      requires Ready(S) && !IsBefore(target, currentDate)
      modifies this`currentDate, transactionManager, S, Bills(), Orders()
      ensures Ready(S)
      ensures State(S) == ProcessDays(old(State(S)), accountManager.accounts, standingOrderManager.orders,
                                      billManager.bills, old(currentDate), target)
      ensures currentDate == target
    {
      ghost var w0 := State(S);
      RunDays(S, w0, target);
      KnownKept(w0, State(S), accountManager.accounts, standingOrderManager.orders, billManager.bills);
      currentDate := target;
    }

    /** The while loop of simulateTimePassing: every day from the current date through the target. */
    method RunDays(ghost S: set<Account>, ghost w0: World, target: Date)
      requires Knows(S) && State(S) == w0
      requires Listed(w0.books.acc, accountManager.accounts) && Fits(w0, standingOrderManager.orders, billManager.bills)
      modifies this`currentDate, transactionManager, S, Bills(), Orders()
      ensures State(S) == ProcessDays(w0, accountManager.accounts, standingOrderManager.orders, billManager.bills,
                                      old(currentDate), target)
    {
      ghost var accounts, orders, bills := accountManager.accounts, standingOrderManager.orders, billManager.bills;
      ghost var d0 := currentDate;
      ghost var w := w0;
      while !IsAfter(currentDate, target)
        invariant State(S) == w && OnTrack(w0, d0, w, currentDate, accounts, orders, bills, target)
        decreases DayNumber(target) - DayNumber(currentDate) + 1
      {
        OnTrackStep(w0, d0, w, currentDate, accounts, orders, bills, target);
        w := RunTurn(S, w, target);
      }
      OnTrackDone(w0, d0, w, currentDate, accounts, orders, bills, target);
    }

    /** One turn of the while loop: the day is processed and the date moves on by one. */
    method RunTurn(ghost S: set<Account>, ghost w: World, target: Date) returns (ghost w': World)
      requires Knows(S) && State(S) == w
      requires Listed(w.books.acc, accountManager.accounts) && Fits(w, standingOrderManager.orders, billManager.bills)
      modifies this`currentDate, transactionManager, S, Bills(), Orders()
      ensures w' == DayStep(w, accountManager.accounts, standingOrderManager.orders, billManager.bills, old(currentDate), target)
      ensures State(S) == w' && currentDate == NextDay(old(currentDate))
    {
      RunDay(S, w, target);
      w' := State(S);
      currentDate := NextDay(currentDate);
    }

    /** advanceDay: simulate to the day after the current date, which never throws. */
    method AdvanceDay(ghost S: set<Account>)
      requires Ready(S)
      modifies this`currentDate, transactionManager, S, Bills(), Orders()
      ensures Ready(S)
      ensures currentDate == NextDay(old(currentDate)) &&
        State(S) == ProcessDays(old(State(S)), accountManager.accounts, standingOrderManager.orders, billManager.bills,
                                old(currentDate), NextDay(old(currentDate)))
    {
      NextDayIsImmediatelyAfter(currentDate, currentDate);
      var _ := SimulateTimePassing(S, NextDay(currentDate));
    }

    /** simulateDays: for a positive count, simulate that many days ahead; otherwise nothing happens. */
    method SimulateDays(ghost S: set<Account>, days: int)
      requires Ready(S)
      modifies this`currentDate, transactionManager, S, Bills(), Orders()
      ensures Ready(S)
      ensures days <= 0 ==> State(S) == old(State(S)) && currentDate == old(currentDate)
      ensures days > 0 ==>
        currentDate == PlusDays(old(currentDate), days) &&
        State(S) == ProcessDays(old(State(S)), accountManager.accounts, standingOrderManager.orders, billManager.bills,
                                old(currentDate), PlusDays(old(currentDate), days))
    {
      if days > 0 {
        PlusDaysNumber(currentDate, days);
        DayNumberOrder(PlusDays(currentDate, days), currentDate);
        var _ := SimulateTimePassing(S, PlusDays(currentDate, days));
      }
    }

    /**
     * payBill, with the clock's reading passed in. The issuer's business
     * accounts are looked up first: the lookup reads only the const owner and
     * kind of each account, which the debit does not touch.
     */
    method PayBill(ghost S: set<Account>, bill: Bill, source: Account, at: DateTime) returns (r: Result<Transaction, Exception>)
      requires Ready(S) && source in S && bill in billManager.bills
      modifies S, bill, transactionManager
      ensures (State(S), r) ==
        DirectBillPayment(old(State(S)), bill, source, old(Payee(accountManager.accounts, bill.issuer)), at)
    {
      var payee: Option<Account> := None;
      if bill.issuer != null {
        var issuerAccounts := accountManager.AccountsOwnedOfKind(AccountKind.Business, bill.issuer);
        if issuerAccounts != [] {
          payee := Some(issuerAccounts[0]);
        }
      }
      assert payee == Payee(accountManager.accounts, bill.issuer);
      r := SettleBill(S, transactionManager, Bills(), Orders(), bill, source, payee, at);
    }
  }

  /** The body of payBill once the payee is known. */
  method SettleBill(ghost S: set<Account>, tm: TransactionManager, ghost B: set<Bill>, ghost O: set<StandingOrder>,
                    bill: Bill, source: Account, payee: Option<Account>, at: DateTime)
    returns (r: Result<Transaction, Exception>)
    requires bill in B && source in S && (payee.Some? ==> payee.value in S)
    modifies S, bill, tm
    ensures (WorldOf(S, tm, B, O), r) == DirectBillPayment(old(WorldOf(S, tm, B, O)), bill, source, payee, at)
  {
    if bill.status == Paid {
      return Err(IllegalState("Bill is already paid"));
    }
    var total := bill.amount + Money.BillPaymentFee;
    if source.balance < total {
      return Err(IllegalState("Insufficient funds"));
    }
    var debited := DebitIn(S, tm, B, O, bill, source, at);
    if debited.Fail? {
      return Err(debited.error);
    }
    var credited := CreditIn(S, tm, B, O, payee, bill.amount);
    if credited.Fail? {
      return Err(credited.error);
    }
    var t := Transaction(|tm.transactions| + 1, source, null, bill.amount, TransactionType.BillPayment,
                         BillDescription(bill), Some(source.balance), TransactionStatus.Completed);
    t := t.(balanceAfter := Some(source.balance));
    assert t == BillPaymentRecord(WorldOf(S, tm, B, O), bill, source);
    AppendRecord(S, tm, B, O, t);
    r := Ok(t);
  }

  /** transactions.add(t) on the shared list, which leaves the counter as it is. */
  method AppendRecord(ghost S: set<Account>, tm: TransactionManager, ghost B: set<Bill>, ghost O: set<StandingOrder>,
                      t: Transaction)
    modifies tm`transactions
    ensures var w := old(WorldOf(S, tm, B, O));
      WorldOf(S, tm, B, O) == w.(books := w.books.(log := w.books.log + [t]))
  {
    tm.transactions := tm.transactions + [t];
  }

  /** The withdrawal and the marking, seen through the World. */
  method DebitIn(ghost S: set<Account>, tm: TransactionManager, ghost B: set<Bill>, ghost O: set<StandingOrder>,
                 bill: Bill, source: Account, at: DateTime)
    returns (r: Outcome<Exception>)
    requires bill in B && source in S
    modifies source, bill
    ensures var c := Debited(old(WorldOf(S, tm, B, O)), bill, source, at);
      r == (if c.Ok? then Pass else Fail(c.error)) && WorldOf(S, tm, B, O) == (if c.Ok? then c.value else old(WorldOf(S, tm, B, O)))
  {
    r := WithdrawIn(S, source, bill.amount + Money.BillPaymentFee);
    if r.Pass? {
      ghost var m := AccMap(S);
      MarkPaidIn(B, bill, at);
      assert AccMap(S) == m;
    }
  }

  /** The payee's deposit, seen through the World. */
  method CreditIn(ghost S: set<Account>, tm: TransactionManager, ghost B: set<Bill>, ghost O: set<StandingOrder>,
                  payee: Option<Account>, amount: real)
    returns (r: Outcome<Exception>)
    requires payee.Some? ==> payee.value in S
    modifies S
    ensures var c := Credited(old(WorldOf(S, tm, B, O)), payee, amount);
      r == (if c.Ok? then Pass else Fail(c.error)) && WorldOf(S, tm, B, O) == (if c.Ok? then c.value else old(WorldOf(S, tm, B, O)))
  {
    r := Pass;
    if payee.Some? {
      r := DepositIn(S, payee.value, amount);
    }
  }

  /** The month-end block: interest on every account, then fees on getAllBusinessAccounts. */
  method MonthEndIn(ghost S: set<Account>, tm: TransactionManager, am: AccountManager)
    requires forall i :: 0 <= i < |am.accounts| ==> am.accounts[i] in S
    modifies tm, S
    ensures tm.BooksOf(S) == MonthEnd(old(tm.BooksOf(S)), am.accounts)
  {
    ApplyInterest(S, tm, am.accounts);
    var business := am.AccountsOfKind(AccountKind.Business);
    OfKindContract(am.accounts, AccountKind.Business);
    assert forall i :: 0 <= i < |business| ==> business[i] in am.accounts && business[i].kind == AccountKind.Business;
    ApplyFees(S, tm, business);
  }

  /** The accrual loop over the shared account list. */
  method AccrueActive(ghost S: set<Account>, accounts: seq<Account>)
    requires forall i :: 0 <= i < |accounts| ==> accounts[i] in S
    modifies S
    ensures AccMap(S) == AccrueAll(old(AccMap(S)), accounts)
  {
    ghost var m0 := AccMap(S);
    for i := 0 to |accounts|
      invariant AccMap(S) == AccrueAll(m0, accounts[..i])
    {
      var a := accounts[i];
      assert accounts[..i + 1][..i] == accounts[..i];
      if a.status == AccountStatus.Active {
        ghost var m := AccMap(S);
        a.AccrueInterest();
        assert AccMap(S) == m[a := a.State()];
      }
    }
    assert accounts[..|accounts|] == accounts;
  }

  /** The monthly-interest loop over the shared account list. */
  method ApplyInterest(ghost S: set<Account>, tm: TransactionManager, accounts: seq<Account>)
    requires forall i :: 0 <= i < |accounts| ==> accounts[i] in S
    modifies tm, S
    ensures tm.BooksOf(S) == InterestPhase(old(tm.BooksOf(S)), accounts)
  {
    ghost var b0 := tm.BooksOf(S);
    for i := 0 to |accounts|
      invariant tm.BooksOf(S) == InterestPhase(b0, accounts[..i])
    {
      var a := accounts[i];
      assert accounts[..i + 1][..i] == accounts[..i];
      if a.status == AccountStatus.Active {
        ghost var b := tm.BooksOf(S);
        var interest := a.ApplyMonthlyInterest();
        assert tm.BooksOf(S) == b.(acc := b.acc[a := a.State()]);
        if interest > 0.0 {
          var _ := tm.RecordInterest(S, a, interest, Some("Monthly interest"));
        }
      }
    }
    assert accounts[..|accounts|] == accounts;
  }

  /** The maintenance-fee loop over getAllBusinessAccounts. */
  method ApplyFees(ghost S: set<Account>, tm: TransactionManager, business: seq<Account>)
    requires forall i :: 0 <= i < |business| ==> business[i] in S && business[i].kind == AccountKind.Business
    modifies tm, S
    ensures tm.BooksOf(S) == FeePhase(old(tm.BooksOf(S)), business)
  {
    ghost var b0 := tm.BooksOf(S);
    for i := 0 to |business|
      invariant tm.BooksOf(S) == FeePhase(b0, business[..i])
    {
      var a := business[i];
      assert business[..i + 1][..i] == business[..i];
      if a.status == AccountStatus.Active {
        ghost var b := tm.BooksOf(S);
        var fee := a.ApplyMaintenanceFee();
        assert tm.BooksOf(S) == b.(acc := b.acc[a := a.State()]);
        if fee > 0.0 {
          var _ := tm.RecordMaintenanceFee(S, a, fee);
        }
      }
    }
    assert business[..|business|] == business;
  }
}
