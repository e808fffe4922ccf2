/**
 * The four undoable banking commands (DepositCommand, WithdrawCommand,
 * TransferCommand, PayBillCommand). Each command is an object with an
 * `executed` flag; execute and undo are specified by functions on the
 * command's progress and on the states they touch, and the round trips are
 * lemmas about those functions. An undo changes balances and bills directly,
 * through Account and Bill, and records nothing in the log.
 */
module Commands {
  import opened Wrappers
  import opened Dates
  import opened Accounts
  import opened Transactions
  import opened Bills
  import opened Ledger
  import BillManagement
  import Money

  /** The changing part of a deposit, withdraw or transfer command. */
  datatype Progress = Progress(executed: bool, transaction: Option<Transaction>)

  /** The changing part of a bill-payment command. */
  datatype Payment = Payment(executed: bool, previousStatus: BillStatus)

  // -----------------------------------------------------------------------
  // DepositCommand
  // -----------------------------------------------------------------------

  /** DepositCommand.execute: only once, through TransactionManager.deposit. */
  function DepositExecuted(p: Progress, b: Books, a: Account, amount: real, description: Option<string>)
    : (Progress, Books, bool)
    requires a in b.acc
  {
    if p.executed then (p, b, false)
    else
      var (b', r) := DepositOp(b, a, amount, description);
      if r.Ok? then (Progress(true, Some(r.value)), b', true) else (p, b', false)
  }

  /** DepositCommand.undo: withdraw the amount again, without a record. */
  function DepositUndone(p: Progress, acc: map<Account, AccountState>, a: Account, amount: real)
    : (Progress, map<Account, AccountState>, bool)
    requires a in acc
  {
    if !p.executed || p.transaction.None? then (p, acc, false)
    else match Withdrawn(acc[a], amount)
      case Err(_) => (p, acc, false)
      case Ok(s) => (p.(executed := false), acc[a := s], true)
  }

  class DepositCommand {
    const account: Account
    const amount: real
    const description: Option<string>
    const transactionManager: TransactionManager
    var executed: bool
    var executedTransaction: Option<Transaction>

    function View(): Progress
      reads this
    {
      Progress(executed, executedTransaction)
    }

    constructor(account: Account, amount: real, description: Option<string>, transactionManager: TransactionManager)
      ensures this.account == account && this.amount == amount && this.description == description
      ensures this.transactionManager == transactionManager
      ensures View() == Progress(false, None)
    {
      this.account := account;
      this.amount := amount;
      this.description := description;
      this.transactionManager := transactionManager;
      executed := false;
      executedTransaction := None;
    }

    method Execute(ghost S: set<Account>) returns (ok: bool)
      requires account in S
      modifies this, transactionManager, account
      ensures (View(), transactionManager.BooksOf(S), ok) ==
        DepositExecuted(old(View()), old(transactionManager.BooksOf(S)), account, amount, description)
    {
      if executed {
        return false;
      }
      var r := transactionManager.Deposit(S, account, amount, description);
      if r.Err? {
        return false;
      }
      executedTransaction := Some(r.value);
      executed := true;
      ok := true;
    }

    method Undo(ghost S: set<Account>) returns (ok: bool)
      requires account in S
      modifies this, account
      ensures (View(), AccMap(S), ok) == DepositUndone(old(View()), old(AccMap(S)), account, amount)
    {
      if !executed || executedTransaction.None? {
        return false;
      }
      var o := WithdrawIn(S, account, amount);
      if o.Fail? {
        return false;
      }
      executed := false;
      ok := true;
    }

    /** isUndoable: executed, and the balance can give the amount back. */
    predicate IsUndoable()
      reads this, account
    {
      executed && account.balance >= amount
    }
  }

  // -----------------------------------------------------------------------
  // WithdrawCommand
  // -----------------------------------------------------------------------

  /** WithdrawCommand.execute: only once, and only with the funds, through TransactionManager.withdraw. */
  function WithdrawExecuted(p: Progress, b: Books, a: Account, amount: real, description: Option<string>)
    : (Progress, Books, bool)
    requires a in b.acc
  {
    if p.executed || b.acc[a].balance < amount then (p, b, false)
    else
      var (b', r) := WithdrawOp(b, a, amount, description);
      if r.Ok? then (Progress(true, Some(r.value)), b', true) else (p, b', false)
  }

  /** WithdrawCommand.undo: deposit the amount back, without a record. */
  function WithdrawUndone(p: Progress, acc: map<Account, AccountState>, a: Account, amount: real)
    : (Progress, map<Account, AccountState>, bool)
    requires a in acc
  {
    if !p.executed || p.transaction.None? then (p, acc, false)
    else match Deposited(acc[a], amount)
      case Err(_) => (p, acc, false)
      case Ok(s) => (p.(executed := false), acc[a := s], true)
  }

  class WithdrawCommand {
    const account: Account
    const amount: real
    const description: Option<string>
    const transactionManager: TransactionManager
    var executed: bool
    var executedTransaction: Option<Transaction>

    function View(): Progress
      reads this
    {
      Progress(executed, executedTransaction)
    }

    constructor(account: Account, amount: real, description: Option<string>, transactionManager: TransactionManager)
      ensures this.account == account && this.amount == amount && this.description == description
      ensures this.transactionManager == transactionManager
      ensures View() == Progress(false, None)
    {
      this.account := account;
      this.amount := amount;
      this.description := description;
      this.transactionManager := transactionManager;
      executed := false;
      executedTransaction := None;
    }

    method Execute(ghost S: set<Account>) returns (ok: bool)
      requires account in S
      modifies this, transactionManager, account
      ensures (View(), transactionManager.BooksOf(S), ok) ==
        WithdrawExecuted(old(View()), old(transactionManager.BooksOf(S)), account, amount, description)
    {
      if executed {
        return false;
      }
      if account.balance < amount {
        return false;
      }
      var r := transactionManager.Withdraw(S, account, amount, description);
      if r.Err? {
        return false;
      }
      executedTransaction := Some(r.value);
      executed := true;
      ok := true;
    }

    method Undo(ghost S: set<Account>) returns (ok: bool)
      requires account in S
      modifies this, account
      ensures (View(), AccMap(S), ok) == WithdrawUndone(old(View()), old(AccMap(S)), account, amount)
    {
      if !executed || executedTransaction.None? {
        return false;
      }
      var o := DepositIn(S, account, amount);
      if o.Fail? {
        return false;
      }
      executed := false;
      ok := true;
    }

    /** isUndoable: executed. */
    predicate IsUndoable()
      reads this
    {
      executed
    }
  }

  // -----------------------------------------------------------------------
  // TransferCommand
  // -----------------------------------------------------------------------

  /** TransferCommand.execute: only once, and only with the funds, through TransactionManager.transfer. */
  function TransferExecuted(p: Progress, b: Books, from: Account, to: Account, amount: real,
                            description: Option<string>): (Progress, Books, bool)
    requires from in b.acc && to in b.acc
  {
    if p.executed || b.acc[from].balance < amount then (p, b, false)
    else
      var (b', r) := TransferOp(b, from, to, amount, description);
      if r.Ok? then (Progress(true, Some(r.value)), b', true) else (p, b', false)
  }

  /**
   * TransferCommand.undo: with enough funds at the destination, withdraw
   * there and deposit at the source, without records. A deposit that throws
   * leaves the destination debited.
   */
  function TransferUndone(p: Progress, acc: map<Account, AccountState>, from: Account, to: Account, amount: real)
    : (Progress, map<Account, AccountState>, bool)
    requires from in acc && to in acc
  {
    if !p.executed || p.transaction.None? || acc[to].balance < amount then (p, acc, false)
    else match Withdrawn(acc[to], amount)
      case Err(_) => (p, acc, false)
      case Ok(s1) =>
        var acc1 := acc[to := s1];
        match Deposited(acc1[from], amount)
        case Err(_) => (p, acc1, false)
        case Ok(s2) => (p.(executed := false), acc1[from := s2], true)
  }

  class TransferCommand {
    const fromAccount: Account
    const toAccount: Account
    const amount: real
    const description: Option<string>
    const transactionManager: TransactionManager
    var executed: bool
    var executedTransaction: Option<Transaction>

    function View(): Progress
      reads this
    {
      Progress(executed, executedTransaction)
    }

    constructor(fromAccount: Account, toAccount: Account, amount: real, description: Option<string>,
                transactionManager: TransactionManager)
      ensures this.fromAccount == fromAccount && this.toAccount == toAccount
      ensures this.amount == amount && this.description == description
      ensures this.transactionManager == transactionManager
      ensures View() == Progress(false, None)
    {
      this.fromAccount := fromAccount;
      this.toAccount := toAccount;
      this.amount := amount;
      this.description := description;
      this.transactionManager := transactionManager;
      executed := false;
      executedTransaction := None;
    }

    method Execute(ghost S: set<Account>) returns (ok: bool)
      requires fromAccount in S && toAccount in S
      modifies this, transactionManager, fromAccount, toAccount
      ensures (View(), transactionManager.BooksOf(S), ok) ==
        TransferExecuted(old(View()), old(transactionManager.BooksOf(S)), fromAccount, toAccount, amount, description)
    {
      if executed {
        return false;
      }
      if fromAccount.balance < amount {
        return false;
      }
      var r := transactionManager.Transfer(S, fromAccount, toAccount, amount, description);
      if r.Err? {
        return false;
      }
      executedTransaction := Some(r.value);
      executed := true;
      ok := true;
    }

    method Undo(ghost S: set<Account>) returns (ok: bool)
      requires fromAccount in S && toAccount in S
      modifies this, fromAccount, toAccount
      ensures (View(), AccMap(S), ok) == TransferUndone(old(View()), old(AccMap(S)), fromAccount, toAccount, amount)
    {
      if !executed || executedTransaction.None? {
        return false;
      }
      if toAccount.balance < amount {
        return false;
      }
      var o := WithdrawIn(S, toAccount, amount);
      if o.Fail? {
        return false;
      }
      o := DepositIn(S, fromAccount, amount);
      if o.Fail? {
        return false;
      }
      executed := false;
      ok := true;
    }

    /** isUndoable: executed, and the destination can give the amount back. */
    predicate IsUndoable()
      reads this, toAccount
    {
      executed && toAccount.balance >= amount
    }
  }

  // -----------------------------------------------------------------------
  // PayBillCommand
  // -----------------------------------------------------------------------

  /**
   * PayBillCommand.execute: only once, not for a PAID bill, and only when the
   * payer covers amount + fee; the status is saved before the debit, then the
   * bill is marked paid. No record is written.
   */
  function PayBillExecuted(p: Payment, s: AccountState, bs: BillState, amount: real, at: DateTime)
    : (Payment, AccountState, BillState, bool)
  {
    if p.executed || bs.status == Paid || s.balance < amount + Money.BillPaymentFee then (p, s, bs, false)
    else
      var p1 := p.(previousStatus := bs.status);
      match Withdrawn(s, amount + Money.BillPaymentFee)
      case Err(_) => (p1, s, bs, false)
      case Ok(s1) => (p1.(executed := true), s1, MarkedPaid(bs, at), true)
  }

  /** PayBillCommand.undo: refund amount + fee, restore the saved status, clear the paid date. */
  function PayBillUndone(p: Payment, s: AccountState, bs: BillState, amount: real)
    : (Payment, AccountState, BillState, bool)
  {
    if !p.executed then (p, s, bs, false)
    else match Deposited(s, amount + Money.BillPaymentFee)
      case Err(_) => (p, s, bs, false)
      case Ok(s1) => (p.(executed := false), s1, BillState(p.previousStatus, None), true)
  }

  class PayBillCommand {
    const bill: Bill
    const payerAccount: Account
    const billManager: BillManagement.BillManager
    const fee: real := Money.BillPaymentFee
    var executed: bool
    /**
     * The status saved by execute. It is null in a new command; the model
     * starts it at UNPAID, a value nothing reads before execute sets it.
     */
    var previousStatus: BillStatus

    function View(): Payment
      reads this
    {
      Payment(executed, previousStatus)
    }

    constructor(bill: Bill, payerAccount: Account, billManager: BillManagement.BillManager)
      ensures this.bill == bill && this.payerAccount == payerAccount && this.billManager == billManager
      ensures !executed
    {
      this.bill := bill;
      this.payerAccount := payerAccount;
      this.billManager := billManager;
      executed := false;
      previousStatus := Unpaid;
    }

    /** `at` is the clock reading the source takes for the paid date. */
    method Execute(at: DateTime) returns (ok: bool)
      modifies this, payerAccount, bill
      ensures (View(), payerAccount.State(), bill.State(), ok) ==
        PayBillExecuted(old(View()), old(payerAccount.State()), old(bill.State()), bill.amount, at)
    {
      if executed {
        return false;
      }
      if bill.status == Paid {
        return false;
      }
      var totalAmount := bill.amount + fee;
      if payerAccount.balance < totalAmount {
        return false;
      }
      previousStatus := bill.status;
      var o := payerAccount.Withdraw(totalAmount);
      if o.Fail? {
        return false;
      }
      billManager.MarkBillAsPaid(bill, at);
      executed := true;
      ok := true;
    }

    method Undo() returns (ok: bool)
      modifies this, payerAccount, bill
      ensures (View(), payerAccount.State(), bill.State(), ok) ==
        PayBillUndone(old(View()), old(payerAccount.State()), old(bill.State()), bill.amount)
    {
      if !executed {
        return false;
      }
      var totalAmount := bill.amount + fee;
      var o := payerAccount.Deposit(totalAmount);
      if o.Fail? {
        return false;
      }
      bill.SetStatus(previousStatus);
      bill.SetPaidDate(None);
      executed := false;
      ok := true;
    }

    /** isUndoable: executed. */
    predicate IsUndoable()
      reads this
    {
      executed
    }
  }

  // -----------------------------------------------------------------------
  // Properties
  // -----------------------------------------------------------------------

  /** Appended by one record: the new log is the old one followed by that record. */
  lemma AppendedOne(b: Books, b': Books)
    requires Appended(b, b', 1)
    ensures b'.log == b.log + [b'.log[|b.log|]]
  {
    assert b'.log == b'.log[..|b.log|] + [b'.log[|b.log|]];
  }

  /**
   * A deposit command succeeds exactly when it has not run yet, the amount is
   * positive and the account ACTIVE. It then raises the balance by the amount,
   * appends the one DEPOSIT record it keeps, and refuses a second execute;
   * otherwise nothing changes.
   */
  lemma DepositExecuteContract(p: Progress, b: Books, a: Account, amount: real, description: Option<string>)
    requires a in b.acc
    ensures var (p', b', ok) := DepositExecuted(p, b, a, amount, description);
      (ok <==> !p.executed && amount > 0.0 && b.acc[a].status == Active) &&
      (!ok ==> p' == p && b' == b) &&
      (ok ==> p'.executed && Appended(b, b', 1) && p'.transaction == Some(b'.log[|b.log|]) &&
              b'.acc == b.acc[a := b.acc[a].(balance := b.acc[a].balance + amount)] &&
              DepositExecuted(p', b', a, amount, description) == (p', b', false))
  {
    DepositOpContract(b, a, amount, description);
  }

  /**
   * Undoing a deposit succeeds exactly when it was executed and the account,
   * still ACTIVE, holds the amount; it then lowers the balance by the amount
   * and clears `executed`. A refused or failed undo changes nothing.
   */
  lemma DepositUndoContract(p: Progress, acc: map<Account, AccountState>, a: Account, amount: real)
    requires a in acc
    ensures var (p', acc', ok) := DepositUndone(p, acc, a, amount);
      (ok <==> p.executed && p.transaction.Some? && amount > 0.0 && acc[a].status == Active && acc[a].balance >= amount) &&
      (!ok ==> p' == p && acc' == acc) &&
      (ok ==> p' == p.(executed := false) && acc' == acc[a := acc[a].(balance := acc[a].balance - amount)])
  {
  }

  /**
   * From a non-negative balance, execute then undo restores every account
   * exactly, while the deposit record stays in the log.
   */
  lemma DepositRoundTrip(p: Progress, b: Books, a: Account, amount: real, description: Option<string>)
    requires a in b.acc && b.acc[a].balance >= 0.0
    requires DepositExecuted(p, b, a, amount, description).2
    ensures var (p1, b1, _) := DepositExecuted(p, b, a, amount, description);
      p1.transaction.Some? &&
      DepositUndone(p1, b1.acc, a, amount) == (p1.(executed := false), b.acc, true) &&
      b1.log == b.log + [p1.transaction.value]
  {
    DepositExecuteContract(p, b, a, amount, description);
    var (p1, b1, _) := DepositExecuted(p, b, a, amount, description);
    AppendedOne(b, b1);
    assert b1.acc[a := b.acc[a]] == b.acc;
  }

  /**
   * A withdraw command succeeds exactly when it has not run yet, the amount is
   * positive, the account ACTIVE and its balance covers the amount; then the
   * balance drops by the amount and one WITHDRAWAL record is appended.
   * Otherwise nothing changes.
   */
  lemma WithdrawExecuteContract(p: Progress, b: Books, a: Account, amount: real, description: Option<string>)
    requires a in b.acc
    ensures var (p', b', ok) := WithdrawExecuted(p, b, a, amount, description);
      (ok <==> !p.executed && amount > 0.0 && b.acc[a].status == Active && b.acc[a].balance >= amount) &&
      (!ok ==> p' == p && b' == b) &&
      (ok ==> p'.executed && Appended(b, b', 1) && p'.transaction == Some(b'.log[|b.log|]) &&
              b'.acc == b.acc[a := b.acc[a].(balance := b.acc[a].balance - amount)] &&
              WithdrawExecuted(p', b', a, amount, description) == (p', b', false))
  {
    WithdrawOpContract(b, a, amount, description);
  }

  /**
   * Undoing a withdrawal succeeds exactly when it was executed and the
   * account is still ACTIVE; it deposits the amount back and clears `executed`.
   */
  lemma WithdrawUndoContract(p: Progress, acc: map<Account, AccountState>, a: Account, amount: real)
    requires a in acc
    ensures var (p', acc', ok) := WithdrawUndone(p, acc, a, amount);
      (ok <==> p.executed && p.transaction.Some? && amount > 0.0 && acc[a].status == Active) &&
      (!ok ==> p' == p && acc' == acc) &&
      (ok ==> p' == p.(executed := false) && acc' == acc[a := acc[a].(balance := acc[a].balance + amount)])
  {
  }

  /** Execute then undo restores every account exactly; the withdrawal record stays. */
  lemma WithdrawRoundTrip(p: Progress, b: Books, a: Account, amount: real, description: Option<string>)
    requires a in b.acc
    requires WithdrawExecuted(p, b, a, amount, description).2
    ensures var (p1, b1, _) := WithdrawExecuted(p, b, a, amount, description);
      p1.transaction.Some? &&
      WithdrawUndone(p1, b1.acc, a, amount) == (p1.(executed := false), b.acc, true) &&
      b1.log == b.log + [p1.transaction.value]
  {
    WithdrawExecuteContract(p, b, a, amount, description);
    var (p1, b1, _) := WithdrawExecuted(p, b, a, amount, description);
    AppendedOne(b, b1);
    assert b1.acc[a := b.acc[a]] == b.acc;
  }

  /**
   * A transfer command is refused with nothing changed when it already ran or
   * the source cannot cover the amount. It succeeds exactly when, besides,
   * the amount is positive and both accounts are ACTIVE; between distinct
   * accounts it then moves the amount, keeps the sum of the two balances and
   * appends two records. A destination that is not ACTIVE fails the command
   * after the source was debited.
   */
  lemma TransferExecuteContract(p: Progress, b: Books, from: Account, to: Account, amount: real,
                                description: Option<string>)
    requires from in b.acc && to in b.acc
    ensures var (p', b', ok) := TransferExecuted(p, b, from, to, amount, description);
      (ok <==> !p.executed && amount > 0.0 && b.acc[from].balance >= amount &&
               b.acc[from].status == Active && b.acc[to].status == Active) &&
      (p.executed || b.acc[from].balance < amount || amount <= 0.0 || b.acc[from].status != Active ==>
        p' == p && b' == b) &&
      (!ok ==> p' == p && b'.log == b.log && b'.counter == b.counter) &&
      (ok ==> p'.executed && Appended(b, b', 2) && p'.transaction == Some(b'.log[|b.log|])) &&
      (ok && from != to ==>
        b'.acc == b.acc[from := b.acc[from].(balance := b.acc[from].balance - amount)]
                       [to := b.acc[to].(balance := b.acc[to].balance + amount)] &&
        b'.acc[from].balance + b'.acc[to].balance == b.acc[from].balance + b.acc[to].balance) &&
      (!ok && !p.executed && from != to && amount > 0.0 && b.acc[from].balance >= amount &&
        b.acc[from].status == Active ==>
        b'.acc == b.acc[from := b.acc[from].(balance := b.acc[from].balance - amount)])
  {
    TransferAppends(b, from, to, amount, description);
    if !p.executed && amount > 0.0 && b.acc[from].balance >= amount && b.acc[from].status == Active && from != to {
      if b.acc[to].status == Active {
        TransferOpMoves(b, from, to, amount, description);
      } else {
        TransferDebitsBeforeCredit(b, from, to, amount, description);
      }
    }
  }

  /**
   * Undoing a transfer is refused with nothing changed unless it was executed
   * and the destination holds the amount; between distinct ACTIVE accounts
   * it moves the amount back and keeps the sum of the two balances.
   */
  lemma TransferUndoContract(p: Progress, acc: map<Account, AccountState>, from: Account, to: Account, amount: real)
    requires from in acc && to in acc
    ensures var (p', acc', ok) := TransferUndone(p, acc, from, to, amount);
      (ok <==> p.executed && p.transaction.Some? && acc[to].balance >= amount && amount > 0.0 &&
               acc[to].status == Active && acc[from].status == Active) &&
      (!p.executed || acc[to].balance < amount ==> p' == p && acc' == acc) &&
      (!ok ==> p' == p) &&
      (ok ==> p' == p.(executed := false)) &&
      (ok && from != to ==>
        acc' == acc[to := acc[to].(balance := acc[to].balance - amount)]
                   [from := acc[from].(balance := acc[from].balance + amount)] &&
        acc'[from].balance + acc'[to].balance == acc[from].balance + acc[to].balance)
  {
  }

  /**
   * Between distinct accounts, a transfer that executes can be undone, and
   * the undo restores both accounts exactly; the two records stay in the log.
   */
  lemma TransferRoundTrip(p: Progress, b: Books, from: Account, to: Account, amount: real,
                          description: Option<string>)
    requires from in b.acc && to in b.acc && from != to && b.acc[to].balance >= 0.0
    requires TransferExecuted(p, b, from, to, amount, description).2
    ensures var (p1, b1, _) := TransferExecuted(p, b, from, to, amount, description);
      TransferUndone(p1, b1.acc, from, to, amount) == (p1.(executed := false), b.acc, true) &&
      |b1.log| == |b.log| + 2
  {
    TransferExecuteContract(p, b, from, to, amount, description);
    var (p1, b1, _) := TransferExecuted(p, b, from, to, amount, description);
    TransferUndoContract(p1, b1.acc, from, to, amount);
    var acc' := TransferUndone(p1, b1.acc, from, to, amount).1;
    assert acc' == b.acc;
  }

  /**
   * A bill-payment command succeeds exactly when it has not run, the bill is
   * not PAID, the payer is ACTIVE and covers amount + 0.50 (and that total is
   * positive). It then debits the total, marks the bill PAID at the given time
   * and saves the old status; otherwise the account and the bill are as they were.
   */
  lemma PayBillExecuteContract(p: Payment, s: AccountState, bs: BillState, amount: real, at: DateTime)
    ensures var (p', s', bs', ok) := PayBillExecuted(p, s, bs, amount, at);
      (ok <==> !p.executed && bs.status != Paid && s.status == Active &&
               s.balance >= amount + 0.50 && amount + 0.50 > 0.0) &&
      (!ok ==> s' == s && bs' == bs && p'.executed == p.executed) &&
      (ok ==> p' == Payment(true, bs.status) && s' == s.(balance := s.balance - (amount + 0.50)) &&
              bs' == BillState(Paid, Some(at)))
  {
  }

  /**
   * Undoing a bill payment succeeds exactly when it was executed and the
   * payer is ACTIVE (and the total positive); it refunds amount + 0.50,
   * restores the saved status and clears the paid date.
   */
  lemma PayBillUndoContract(p: Payment, s: AccountState, bs: BillState, amount: real)
    ensures var (p', s', bs', ok) := PayBillUndone(p, s, bs, amount);
      (ok <==> p.executed && s.status == Active && amount + 0.50 > 0.0) &&
      (!ok ==> p' == p && s' == s && bs' == bs) &&
      (ok ==> p' == p.(executed := false) && s' == s.(balance := s.balance + (amount + 0.50)) &&
              bs' == BillState(p.previousStatus, None))
  {
  }

  /**
   * Execute then undo restores the payer's account exactly and the bill's
   * status, with no paid date: the bill is back exactly when it had none.
   */
  lemma PayBillRoundTrip(p: Payment, s: AccountState, bs: BillState, amount: real, at: DateTime)
    requires PayBillExecuted(p, s, bs, amount, at).3
    ensures var (p1, s1, bs1, _) := PayBillExecuted(p, s, bs, amount, at);
      PayBillUndone(p1, s1, bs1, amount) == (p1.(executed := false), s, BillState(bs.status, None), true)
  {
    PayBillExecuteContract(p, s, bs, amount, at);
  }
}
