/**
 * The transaction log and the operations that write it (TransactionManager).
 * Each operation is first a function on Books, the value of everything it can
 * change (the accounts' states, the log and the id counter), returning the new
 * Books together with the record it returns or the exception it throws. A
 * Java exception does not roll back what was already done, so a partial
 * mutation shows up as new Books next to an Err. The class TransactionManager
 * then performs the same steps on the heap and is proved against these
 * functions.
 */
module Ledger {
  import opened Wrappers
  import opened Accounts
  import opened Transactions
  import Money
  import Text
  import TransferApi

  datatype Books = Books(acc: map<Account, AccountState>, log: seq<Transaction>, counter: int)

  /** Build a record with the next id, overwrite its snapshot with `snap`'s balance, append it. */
  function Logged(b: Books, from: Account?, to: Account?, amount: real, txType: TransactionType,
                  description: string, snap: Account): (Books, Transaction)
    requires Known(b.acc, from, to) && snap in b.acc
  {
    var t := WithBalanceAfter(Opened(b.counter, from, to, amount, txType, description, b.acc), b.acc[snap].balance);
    (b.(log := b.log + [t], counter := b.counter + 1), t)
  }

  // -----------------------------------------------------------------------
  // The operations
  // -----------------------------------------------------------------------

  /** deposit: mutate the account first; a rejected deposit appends nothing. */
  function DepositOp(b: Books, a: Account, amount: real, description: Option<string>): (Books, Result<Transaction, Exception>)
    requires a in b.acc
  {
    match Deposited(b.acc[a], amount)
    case Err(e) => (b, Err(e))
    case Ok(s) =>
      var (b', t) := Logged(b.(acc := b.acc[a := s]), null, a, amount, TransactionType.Deposit,
                            OrDefault(description, "Cash deposit"), a);
      (b', Ok(t))
  }

  /** withdraw. */
  function WithdrawOp(b: Books, a: Account, amount: real, description: Option<string>): (Books, Result<Transaction, Exception>)
    requires a in b.acc
  {
    match Withdrawn(b.acc[a], amount)
    case Err(e) => (b, Err(e))
    case Ok(s) =>
      var (b', t) := Logged(b.(acc := b.acc[a := s]), a, null, amount, Withdrawal,
                            OrDefault(description, "Cash withdrawal"), a);
      (b', Ok(t))
  }

  /**
   * transfer: the funds check, then the debit, then the credit, then two
   * records. A null destination or a failing credit
   * comes after the debit, which stays.
   */
  function TransferOp(b: Books, from: Account, to: Account?, amount: real, description: Option<string>): (Books, Result<Transaction, Exception>)
    requires from in b.acc && (to != null ==> to in b.acc)
  {
    if b.acc[from].balance < amount then (b, Err(IllegalState("Insufficient funds")))
    else match Withdrawn(b.acc[from], amount)
      case Err(e) => (b, Err(e))
      case Ok(s1) =>
        var acc1 := b.acc[from := s1];
        if to == null then (b.(acc := acc1), Err(NullReference))
        else match Deposited(acc1[to], amount)
          case Err(e) => (b.(acc := acc1), Err(e))
          case Ok(s2) =>
            var b1 := b.(acc := acc1[to := s2]);
            var (b2, outgoing) := Logged(b1, from, to, amount, TransferOut,
                                         OrDefault(description, "Transfer to " + to.iban), from);
            var (b3, incoming) := Logged(b2, from, to, amount, TransferIn,
                                         OrDefault(description, "Transfer from " + from.iban), to);
            (b3, Ok(outgoing))
  }

  /** recordBillPayment: a record of a debit made elsewhere; no balance changes. */
  function RecordBillPaymentOp(b: Books, from: Account, amount: real, description: Option<string>): (Books, Transaction)
    requires from in b.acc
  {
    Logged(b, from, null, amount, BillPayment, OrDefault(description, "Bill payment"), from)
  }

  /** payBill: the funds check, the debit, one record. */
  function PayBillOp(b: Books, from: Account, amount: real, description: Option<string>): (Books, Result<Transaction, Exception>)
    requires from in b.acc
  {
    if b.acc[from].balance < amount then (b, Err(IllegalState("Insufficient funds")))
    else match Withdrawn(b.acc[from], amount)
      case Err(e) => (b, Err(e))
      case Ok(s) =>
        var (b', t) := Logged(b.(acc := b.acc[from := s]), from, null, amount, BillPayment,
                              OrDefault(description, "Bill payment"), from);
        (b', Ok(t))
  }

  /** recordInterest. */
  function RecordInterestOp(b: Books, a: Account, amount: real, description: Option<string>): (Books, Transaction)
    requires a in b.acc
  {
    Logged(b, null, a, amount, Interest, OrDefault(description, "Monthly interest"), a)
  }

  /** recordMaintenanceFee. */
  function RecordMaintenanceFeeOp(b: Books, a: Account, amount: real): (Books, Transaction)
    requires a in b.acc
  {
    Logged(b, a, null, amount, MaintenanceFee, "Monthly maintenance fee", a)
  }

  /** The two payment rails of the gateway, with their fee and names. */
  datatype Rail = Sepa | Swift

  function RailFee(rail: Rail): real {
    if rail == Sepa then Money.SepaFee else Money.SwiftFee
  }

  function RailName(rail: Rail): string {
    if rail == Sepa then "SEPA" else "SWIFT"
  }

  /** The fee as the source writes it into its messages. */
  function RailFeeText(rail: Rail): string {
    if rail == Sepa then "1.50" else "25.00"
  }

  /**
   * sepaTransfer, sepaTransferFull, swiftTransfer and swiftTransferFull: the
   * funds check includes the fee; the gateway's answer is an input; a refusal
   * throws before any debit; on approval amount + fee is debited and one record
   * of the amount alone is appended. `recipient` is what the description names
   * (the IBAN, or the name followed by the IBAN in parentheses).
   */
  function ExternalOp(b: Books, rail: Rail, from: Account, recipient: string, amount: real,
                      description: Option<string>, gateway: TransferApi.TransferResult): (Books, Result<Transaction, Exception>)
    requires from in b.acc
  {
    var total := amount + RailFee(rail);
    if b.acc[from].balance < total then
      (b, Err(IllegalState("Insufficient funds (including " + RailName(rail) + " fee of " + RailFeeText(rail) + "€)")))
    else if !gateway.success then
      (b, Err(IllegalState(RailName(rail) + " transfer failed: " + OrNull(gateway.message))))
    else match Withdrawn(b.acc[from], total)
      case Err(e) => (b, Err(e))
      case Ok(s) =>
        var (b', t) := Logged(b.(acc := b.acc[from := s]), from, null, amount,
                              if rail == Sepa then SepaTransfer else SwiftTransfer,
                              ExternalDescription(rail, recipient, description, gateway), from);
        (b', Ok(t))
  }

  /** The description of a gateway transfer: rail, recipient, the caller's text, the fee and the gateway's id. */
  function ExternalDescription(rail: Rail, recipient: string, description: Option<string>,
                               gateway: TransferApi.TransferResult): string {
    RailName(rail) + " transfer to " + recipient + " - " + OrDefault(description, "") +
    " (Fee: " + RailFeeText(rail) + "€) [API TxID: " + OrNull(gateway.transactionId) + "]"
  }

  /** The recipient text of the full variants: the name, then the account in parentheses. */
  function FullRecipient(name: Option<string>, account: string): string {
    OrNull(name) + " (" + account + ")"
  }

  // -----------------------------------------------------------------------
  // Queries
  // -----------------------------------------------------------------------

  /** Whether a record names the IBAN as its source or its destination. */
  predicate Touches(t: Transaction, iban: string) {
    (t.from != null && t.from.iban == iban) || (t.to != null && t.to.iban == iban)
  }

  /** getTransactionsForAccount: the log filtered on the IBAN, in order. */
  function ForAccount(log: seq<Transaction>, iban: string): (r: seq<Transaction>)
    decreases |log|
  {
    if log == [] then []
    else ForAccount(log[..|log| - 1], iban) + (if Touches(log[|log| - 1], iban) then [log[|log| - 1]] else [])
  }

  function Max(a: int, b: int): int { if a >= b then a else b }

  /**
   * getRecentTransactions: the tail from max(0, n - limit). With a negative
   * limit the start lies past the end and subList throws.
   */
  function Recent(log: seq<Transaction>, iban: string, limit: int): Result<seq<Transaction>, Exception> {
    var l := ForAccount(log, iban);
    var start := Max(0, |l| - limit);
    if start > |l| then
      Err(IllegalArgument("fromIndex(" + Text.Decimal(start) + ") > toIndex(" + Text.Decimal(|l|) + ")"))
    else Ok(l[start..])
  }

  // -----------------------------------------------------------------------
  // Properties
  // -----------------------------------------------------------------------

  /**
   * b' is b with k records appended, and nothing else of the log changed: the
   * old log is a prefix, the new records carry the ids counter, counter + 1, …,
   * and the counter has moved past them.
   */
  predicate Appended(b: Books, b': Books, k: nat) {
    |b'.log| == |b.log| + k && b'.log[..|b.log|] == b.log &&
    (forall i :: |b.log| <= i < |b'.log| ==> b'.log[i].id == b.counter + (i - |b.log|)) &&
    b'.counter == b.counter + k
  }

  /** The log's ids are its positions, counted from 1, and the counter is the next one. */
  predicate Aligned(b: Books) {
    b.counter == |b.log| + 1 && forall i :: 0 <= i < |b.log| ==> b.log[i].id == i + 1
  }

  lemma AppendedKeepsAligned(b: Books, b': Books, k: nat)
    requires Aligned(b) && Appended(b, b', k)
    ensures Aligned(b')
  {
    forall i | 0 <= i < |b'.log|
      ensures b'.log[i].id == i + 1
    {
      if i < |b.log| {
        assert b'.log[i] == b'.log[..|b.log|][i];
      }
    }
  }

  lemma LoggedAppends(b: Books, from: Account?, to: Account?, amount: real, txType: TransactionType,
                      description: string, snap: Account)
    requires Known(b.acc, from, to) && snap in b.acc
    ensures var (b', t) := Logged(b, from, to, amount, txType, description, snap);
      Appended(b, b', 1) && b'.acc == b.acc && b'.log[|b.log|] == t &&
      t.id == b.counter && t.from == from && t.to == to && t.amount == amount && t.txType == txType &&
      t.description == description && t.balanceAfter == Some(b.acc[snap].balance) && t.status == Completed
  {
    var (b', t) := Logged(b, from, to, amount, txType, description, snap);
    assert b'.log[..|b.log|] == b.log;
  }

  /**
   * deposit: a rejected deposit changes nothing; an accepted one raises the
   * balance by the amount, changes no other account, and appends one DEPOSIT
   * record into the account, with the next id, the new balance and the
   * default description when none is given.
   */
  lemma DepositOpContract(b: Books, a: Account, amount: real, description: Option<string>)
    requires a in b.acc
    ensures var (b', r) := DepositOp(b, a, amount, description);
      (r.Err? <==> amount <= 0.0 || b.acc[a].status != Active) &&
      (r.Err? ==> b' == b) &&
      (r.Ok? ==> b'.acc == b.acc[a := b.acc[a].(balance := b.acc[a].balance + amount)] && Appended(b, b', 1) &&
                 b'.log[|b.log|] == r.value && r.value.txType == TransactionType.Deposit &&
                 r.value.from == null && r.value.to == a && r.value.amount == amount &&
                 r.value.balanceAfter == Some(b.acc[a].balance + amount) && r.value.status == Completed &&
                 r.value.description == (if description.Some? then description.value else "Cash deposit"))
  {
    if Deposited(b.acc[a], amount).Ok? {
      var s := Deposited(b.acc[a], amount).value;
      LoggedAppends(b.(acc := b.acc[a := s]), null, a, amount, TransactionType.Deposit, OrDefault(description, "Cash deposit"), a);
    }
  }

  /**
   * withdraw: rejected (amount, status or funds) it changes nothing; accepted it
   * lowers the balance by the amount and appends one WITHDRAWAL record out of
   * the account with the new balance.
   */
  lemma WithdrawOpContract(b: Books, a: Account, amount: real, description: Option<string>)
    requires a in b.acc
    ensures var (b', r) := WithdrawOp(b, a, amount, description);
      (r.Err? <==> amount <= 0.0 || b.acc[a].status != Active || b.acc[a].balance < amount) &&
      (r.Err? ==> b' == b) &&
      (r.Ok? ==> b'.acc == b.acc[a := b.acc[a].(balance := b.acc[a].balance - amount)] && Appended(b, b', 1) &&
                 b'.log[|b.log|] == r.value && r.value.txType == Withdrawal &&
                 r.value.from == a && r.value.to == null && r.value.amount == amount &&
                 r.value.balanceAfter == Some(b.acc[a].balance - amount) &&
                 r.value.description == (if description.Some? then description.value else "Cash withdrawal"))
  {
    if Withdrawn(b.acc[a], amount).Ok? {
      var s := Withdrawn(b.acc[a], amount).value;
      LoggedAppends(b.(acc := b.acc[a := s]), a, null, amount, Withdrawal, OrDefault(description, "Cash withdrawal"), a);
    }
  }

  /** A transfer whose source cannot cover the amount throws before anything changes. */
  lemma TransferChecksFundsFirst(b: Books, from: Account, to: Account?, amount: real, description: Option<string>)
    requires from in b.acc && (to != null ==> to in b.acc)
    requires b.acc[from].balance < amount
    ensures TransferOp(b, from, to, amount, description) == (b, Err(IllegalState("Insufficient funds")))
  {
  }

  /**
   * A transfer between two distinct ACTIVE accounts with enough funds and a
   * positive amount moves the amount, keeps the sum of the two balances, and
   * appends TRANSFER_OUT then TRANSFER_IN with consecutive ids, each with the
   * new balance of its own account.
   */
  lemma TransferOpMoves(b: Books, from: Account, to: Account, amount: real, description: Option<string>)
    requires from in b.acc && to in b.acc && from != to
    requires amount > 0.0 && b.acc[from].balance >= amount
    requires b.acc[from].status == Active && b.acc[to].status == Active
    ensures var (b', r) := TransferOp(b, from, to, amount, description);
      r.Ok? && Appended(b, b', 2) &&
      b'.acc == b.acc[from := b.acc[from].(balance := b.acc[from].balance - amount)]
                     [to := b.acc[to].(balance := b.acc[to].balance + amount)] &&
      b'.acc[from].balance + b'.acc[to].balance == b.acc[from].balance + b.acc[to].balance &&
      r.value == b'.log[|b.log|] &&
      b'.log[|b.log|].txType == TransferOut && b'.log[|b.log|].balanceAfter == Some(b.acc[from].balance - amount) &&
      b'.log[|b.log| + 1].txType == TransferIn && b'.log[|b.log| + 1].balanceAfter == Some(b.acc[to].balance + amount) &&
      b'.log[|b.log|].from == from && b'.log[|b.log|].to == to &&
      b'.log[|b.log| + 1].from == from && b'.log[|b.log| + 1].to == to
  {
    var s1 := Withdrawn(b.acc[from], amount).value;
    var acc1 := b.acc[from := s1];
    var s2 := Deposited(acc1[to], amount).value;
    var b1 := b.(acc := acc1[to := s2]);
    var dOut := OrDefault(description, "Transfer to " + to.iban);
    var dIn := OrDefault(description, "Transfer from " + from.iban);
    LoggedAppends(b1, from, to, amount, TransferOut, dOut, from);
    var (b2, o) := Logged(b1, from, to, amount, TransferOut, dOut, from);
    LoggedAppends(b2, from, to, amount, TransferIn, dIn, to);
    var (b3, i) := Logged(b2, from, to, amount, TransferIn, dIn, to);
    assert b3.log == b.log + [o, i];
    assert b3.log[..|b.log|] == b.log;
  }

  /**
   * A transfer into a destination that is not ACTIVE, or into no destination,
   * throws after the source was debited: the debit stays and nothing is logged.
   */
  lemma TransferDebitsBeforeCredit(b: Books, from: Account, to: Account?, amount: real, description: Option<string>)
    requires from in b.acc && (to != null ==> to in b.acc) && from != to
    requires amount > 0.0 && b.acc[from].balance >= amount && b.acc[from].status == Active
    requires to == null || b.acc[to].status != Active
    ensures var (b', r) := TransferOp(b, from, to, amount, description);
      r.Err? && b'.log == b.log && b'.counter == b.counter &&
      b'.acc == b.acc[from := b.acc[from].(balance := b.acc[from].balance - amount)]
  {
  }

  /** The three recording operations append one record and change no balance. */
  lemma RecordingChangesNoBalance(b: Books, a: Account, amount: real, description: Option<string>)
    requires a in b.acc
    ensures var (b', t) := RecordBillPaymentOp(b, a, amount, description);
      Appended(b, b', 1) && b'.acc == b.acc && t.txType == BillPayment && t.from == a &&
      t.balanceAfter == Some(b.acc[a].balance) &&
      t.description == (if description.Some? then description.value else "Bill payment")
    ensures var (b', t) := RecordInterestOp(b, a, amount, description);
      Appended(b, b', 1) && b'.acc == b.acc && t.txType == Interest && t.to == a && t.from == null &&
      t.description == (if description.Some? then description.value else "Monthly interest")
    ensures var (b', t) := RecordMaintenanceFeeOp(b, a, amount);
      Appended(b, b', 1) && b'.acc == b.acc && t.txType == MaintenanceFee && t.from == a &&
      t.description == "Monthly maintenance fee"
  {
    LoggedAppends(b, a, null, amount, BillPayment, OrDefault(description, "Bill payment"), a);
    LoggedAppends(b, null, a, amount, Interest, OrDefault(description, "Monthly interest"), a);
    LoggedAppends(b, a, null, amount, MaintenanceFee, "Monthly maintenance fee", a);
  }

  /** payBill: the funds check and the debit decide; one BILL_PAYMENT record on success. */
  lemma PayBillOpContract(b: Books, from: Account, amount: real, description: Option<string>)
    requires from in b.acc
    ensures var (b', r) := PayBillOp(b, from, amount, description);
      (r.Err? <==> b.acc[from].balance < amount || amount <= 0.0 || b.acc[from].status != Active) &&
      (r.Err? ==> b' == b) &&
      (r.Ok? ==> b'.acc == b.acc[from := b.acc[from].(balance := b.acc[from].balance - amount)] &&
                 Appended(b, b', 1) && r.value.txType == BillPayment && r.value.amount == amount &&
                 r.value.balanceAfter == Some(b.acc[from].balance - amount))
  {
    if PayBillOp(b, from, amount, description).1.Ok? {
      var s := Withdrawn(b.acc[from], amount).value;
      LoggedAppends(b.(acc := b.acc[from := s]), from, null, amount, BillPayment, OrDefault(description, "Bill payment"), from);
    }
  }

  /**
   * SEPA and SWIFT: short of amount + fee, or refused by the gateway, nothing
   * changes; approved with a positive amount on an ACTIVE account, amount + fee
   * is debited and one record of the amount alone is appended.
   */
  lemma ExternalOpContract(b: Books, rail: Rail, from: Account, recipient: string, amount: real,
                           description: Option<string>, gateway: TransferApi.TransferResult)
    requires from in b.acc
    ensures var (b', r) := ExternalOp(b, rail, from, recipient, amount, description, gateway);
      (b.acc[from].balance < amount + RailFee(rail) || !gateway.success ==> r.Err? && b' == b) &&
      (r.Err? ==> b' == b) &&
      (r.Ok? ==> gateway.success && b.acc[from].balance >= amount + RailFee(rail) &&
                 b'.acc == b.acc[from := b.acc[from].(balance := b.acc[from].balance - (amount + RailFee(rail)))] &&
                 Appended(b, b', 1) && r.value.amount == amount && r.value.from == from && r.value.to == null &&
                 r.value.txType == (if rail == Sepa then SepaTransfer else SwiftTransfer))
    ensures (gateway.success && amount + RailFee(rail) > 0.0 && b.acc[from].status == Active &&
             b.acc[from].balance >= amount + RailFee(rail)) ==>
            ExternalOp(b, rail, from, recipient, amount, description, gateway).1.Ok?
  {
    var (b', r) := ExternalOp(b, rail, from, recipient, amount, description, gateway);
    if r.Ok? {
      var total := amount + RailFee(rail);
      var s := Withdrawn(b.acc[from], total).value;
      var desc := ExternalDescription(rail, recipient, description, gateway);
      LoggedAppends(b.(acc := b.acc[from := s]), from, null, amount,
                    if rail == Sepa then SepaTransfer else SwiftTransfer, desc, from);
    }
  }

  /** The SEPA fee is 1.50 and the SWIFT fee 25.00, as the messages say. */
  lemma RailFees()
    ensures RailFee(Sepa) == 1.50 && RailFee(Swift) == 25.00
    ensures RailFee(Sepa) < RailFee(Swift)
  {
  }

  /** Every operation keeps ids equal to positions when they were. */
  lemma OperationsKeepAligned(b: Books, a: Account, other: Account?, amount: real, description: Option<string>)
    requires Aligned(b) && a in b.acc && (other != null ==> other in b.acc)
    ensures Aligned(DepositOp(b, a, amount, description).0)
    ensures Aligned(WithdrawOp(b, a, amount, description).0)
    ensures Aligned(TransferOp(b, a, other, amount, description).0)
    ensures Aligned(PayBillOp(b, a, amount, description).0)
    ensures Aligned(RecordInterestOp(b, a, amount, description).0)
    ensures Aligned(RecordMaintenanceFeeOp(b, a, amount).0)
    ensures Aligned(RecordBillPaymentOp(b, a, amount, description).0)
  {
    DepositOpContract(b, a, amount, description);
    if DepositOp(b, a, amount, description).1.Ok? {
      AppendedKeepsAligned(b, DepositOp(b, a, amount, description).0, 1);
    }
    WithdrawOpContract(b, a, amount, description);
    if WithdrawOp(b, a, amount, description).1.Ok? {
      AppendedKeepsAligned(b, WithdrawOp(b, a, amount, description).0, 1);
    }
    TransferKeepsAligned(b, a, other, amount, description);
    PayBillOpContract(b, a, amount, description);
    if PayBillOp(b, a, amount, description).1.Ok? {
      AppendedKeepsAligned(b, PayBillOp(b, a, amount, description).0, 1);
    }
    RecordingChangesNoBalance(b, a, amount, description);
    AppendedKeepsAligned(b, RecordInterestOp(b, a, amount, description).0, 1);
    AppendedKeepsAligned(b, RecordMaintenanceFeeOp(b, a, amount).0, 1);
    AppendedKeepsAligned(b, RecordBillPaymentOp(b, a, amount, description).0, 1);
  }

  /** A transfer either appends its two records or leaves log and counter as they were. */
  lemma TransferAppends(b: Books, from: Account, to: Account?, amount: real, description: Option<string>)
    requires from in b.acc && (to != null ==> to in b.acc)
    ensures var (b', r) := TransferOp(b, from, to, amount, description);
      (r.Ok? ==> Appended(b, b', 2) && r.value == b'.log[|b.log|]) &&
      (r.Err? ==> b'.log == b.log && b'.counter == b.counter)
  {
    var (b', r) := TransferOp(b, from, to, amount, description);
    if r.Ok? {
      var s1 := Withdrawn(b.acc[from], amount).value;
      var acc1 := b.acc[from := s1];
      var s2 := Deposited(acc1[to], amount).value;
      var b1 := b.(acc := acc1[to := s2]);
      var dOut := OrDefault(description, "Transfer to " + to.iban);
      var dIn := OrDefault(description, "Transfer from " + from.iban);
      LoggedAppends(b1, from, to, amount, TransferOut, dOut, from);
      var (b2, o) := Logged(b1, from, to, amount, TransferOut, dOut, from);
      LoggedAppends(b2, from, to, amount, TransferIn, dIn, to);
      var (b3, i) := Logged(b2, from, to, amount, TransferIn, dIn, to);
      assert b3.log == b.log + [o, i];
      assert b3.log[..|b.log|] == b.log;
    }
  }

  lemma TransferKeepsAligned(b: Books, from: Account, to: Account?, amount: real, description: Option<string>)
    requires Aligned(b) && from in b.acc && (to != null ==> to in b.acc)
    ensures Aligned(TransferOp(b, from, to, amount, description).0)
  {
    TransferAppends(b, from, to, amount, description);
    if TransferOp(b, from, to, amount, description).1.Ok? {
      AppendedKeepsAligned(b, TransferOp(b, from, to, amount, description).0, 2);
    }
  }

  /** getTransactionsForAccount keeps exactly the records naming the IBAN, in log order. */
  lemma {:induction false} ForAccountContract(log: seq<Transaction>, iban: string)
    ensures forall t :: t in ForAccount(log, iban) <==> t in log && Touches(t, iban)
    ensures |ForAccount(log, iban)| <= |log|
    ensures forall t :: t in ForAccount(log, iban) ==> Touches(t, iban)
    decreases |log|
  {
    if log != [] {
      ForAccountContract(log[..|log| - 1], iban);
      assert log == log[..|log| - 1] + [log[|log| - 1]];
    }
  }

  /** The filter distributes over appending, so new records land at the end of each account's view. */
  lemma {:induction false} ForAccountAppend(log: seq<Transaction>, more: seq<Transaction>, iban: string)
    ensures ForAccount(log + more, iban) == ForAccount(log, iban) + ForAccount(more, iban)
    decreases |more|
  {
    if more == [] {
      assert log + more == log;
    } else {
      var last := more[|more| - 1];
      assert (log + more)[..|log + more| - 1] == log + more[..|more| - 1];
      ForAccountAppend(log, more[..|more| - 1], iban);
    }
  }

  /**
   * getRecentTransactions returns the last min(limit, n) records of the
   * account's view for a non-negative limit, and throws for a negative one.
   */
  lemma RecentContract(log: seq<Transaction>, iban: string, limit: int)
    ensures var l := ForAccount(log, iban);
      (limit >= 0 ==> Recent(log, iban, limit).Ok? &&
                      |Recent(log, iban, limit).value| == (if limit < |l| then limit else |l|) &&
                      Recent(log, iban, limit).value == l[|l| - |Recent(log, iban, limit).value|..]) &&
      (limit < 0 ==> Recent(log, iban, limit).Err?)
  {
  }

  // -----------------------------------------------------------------------
  // The manager on the heap
  // -----------------------------------------------------------------------

  class TransactionManager {
    var transactions: seq<Transaction>
    var counter: int

    /** The Books this manager and the accounts in S make up. */
    ghost function BooksOf(S: set<Account>): Books
      reads this, S
    {
      Books(AccMap(S), transactions, counter)
    }

    /** new TransactionManager(): an empty log, ids from 1. */
    constructor()
      ensures transactions == [] && counter == 1
    {
      transactions := [];
      counter := 1;
    }

    /** new TransactionManager(list): ids continue after the list's size. */
    constructor FromList(transactions: seq<Transaction>)
      ensures this.transactions == transactions && counter == |transactions| + 1
    {
      this.transactions := transactions;
      counter := |transactions| + 1;
    }

    /** Append a record with the next id and the given account's current balance. */
    method Log(ghost S: set<Account>, from: Account?, to: Account?, amount: real, txType: TransactionType,
               description: string, snap: Account) returns (t: Transaction)
      requires (from != null ==> from in S) && (to != null ==> to in S) && snap in S
      modifies this
      ensures (BooksOf(S), t) == Logged(old(BooksOf(S)), from, to, amount, txType, description, snap)
    {
      var first := if from != null then Some(from.balance) else if to != null then Some(to.balance) else None;
      t := Transaction(counter, from, to, amount, txType, description, first, Completed);
      counter := counter + 1;
      t := t.(balanceAfter := Some(snap.balance));
      transactions := transactions + [t];
    }

    method Deposit(ghost S: set<Account>, a: Account, amount: real, description: Option<string>)
      returns (r: Result<Transaction, Exception>)
      requires a in S
      modifies this, a
      ensures (BooksOf(S), r) == DepositOp(old(BooksOf(S)), a, amount, description)
    {
      var o := DepositIn(S, a, amount);
      if o.Fail? {
        return Err(o.error);
      }
      var t := Log(S, null, a, amount, TransactionType.Deposit, OrDefault(description, "Cash deposit"), a);
      r := Ok(t);
    }

    method Withdraw(ghost S: set<Account>, a: Account, amount: real, description: Option<string>)
      returns (r: Result<Transaction, Exception>)
      requires a in S
      modifies this, a
      ensures (BooksOf(S), r) == WithdrawOp(old(BooksOf(S)), a, amount, description)
    {
      var o := WithdrawIn(S, a, amount);
      if o.Fail? {
        return Err(o.error);
      }
      var t := Log(S, a, null, amount, Withdrawal, OrDefault(description, "Cash withdrawal"), a);
      r := Ok(t);
    }

    method Transfer(ghost S: set<Account>, from: Account, to: Account?, amount: real, description: Option<string>)
      returns (r: Result<Transaction, Exception>)
      requires from in S && (to != null ==> to in S)
      modifies this, from, to
      ensures (BooksOf(S), r) == TransferOp(old(BooksOf(S)), from, to, amount, description)
    {
      if from.balance < amount {
        return Err(IllegalState("Insufficient funds"));
      }
      var o := WithdrawIn(S, from, amount);
      if o.Fail? {
        return Err(o.error);
      }
      if to == null {
        return Err(NullReference);
      }
      o := DepositIn(S, to, amount);
      if o.Fail? {
        return Err(o.error);
      }
      var outgoing := Log(S, from, to, amount, TransferOut, OrDefault(description, "Transfer to " + to.iban), from);
      var incoming := Log(S, from, to, amount, TransferIn, OrDefault(description, "Transfer from " + from.iban), to);
      r := Ok(outgoing);
    }

    method RecordBillPayment(ghost S: set<Account>, from: Account, amount: real, description: Option<string>)
      returns (t: Transaction)
      requires from in S
      modifies this
      ensures (BooksOf(S), t) == RecordBillPaymentOp(old(BooksOf(S)), from, amount, description)
    {
      t := Log(S, from, null, amount, BillPayment, OrDefault(description, "Bill payment"), from);
    }

    method PayBill(ghost S: set<Account>, from: Account, amount: real, description: Option<string>)
      returns (r: Result<Transaction, Exception>)
      requires from in S
      modifies this, from
      ensures (BooksOf(S), r) == PayBillOp(old(BooksOf(S)), from, amount, description)
    {
      if from.balance < amount {
        return Err(IllegalState("Insufficient funds"));
      }
      var o := WithdrawIn(S, from, amount);
      if o.Fail? {
        return Err(o.error);
      }
      var t := Log(S, from, null, amount, BillPayment, OrDefault(description, "Bill payment"), from);
      r := Ok(t);
    }

    /** The four gateway transfers; the gateway's answer is the input `gateway`. */
    method External(ghost S: set<Account>, rail: Rail, from: Account, recipient: string, amount: real,
                    description: Option<string>, gateway: TransferApi.TransferResult)
      returns (r: Result<Transaction, Exception>)
      requires from in S
      modifies this, from
      ensures (BooksOf(S), r) == ExternalOp(old(BooksOf(S)), rail, from, recipient, amount, description, gateway)
    {
      var total := amount + RailFee(rail);
      if from.balance < total {
        return Err(IllegalState("Insufficient funds (including " + RailName(rail) + " fee of " + RailFeeText(rail) + "€)"));
      }
      if !gateway.success {
        return Err(IllegalState(RailName(rail) + " transfer failed: " + OrNull(gateway.message)));
      }
      var o := WithdrawIn(S, from, total);
      if o.Fail? {
        return Err(o.error);
      }
      var desc := ExternalDescription(rail, recipient, description, gateway);
      var t := Log(S, from, null, amount, if rail == Sepa then SepaTransfer else SwiftTransfer, desc, from);
      r := Ok(t);
    }

    method RecordInterest(ghost S: set<Account>, a: Account, amount: real, description: Option<string>)
      returns (t: Transaction)
      requires a in S
      modifies this
      ensures (BooksOf(S), t) == RecordInterestOp(old(BooksOf(S)), a, amount, description)
    {
      t := Log(S, null, a, amount, Interest, OrDefault(description, "Monthly interest"), a);
    }

    method RecordMaintenanceFee(ghost S: set<Account>, a: Account, amount: real)
      returns (t: Transaction)
      requires a in S
      modifies this
      ensures (BooksOf(S), t) == RecordMaintenanceFeeOp(old(BooksOf(S)), a, amount)
    {
      t := Log(S, a, null, amount, MaintenanceFee, "Monthly maintenance fee", a);
    }

    /** getTransactionsForAccount, as the stream filter walks the list. */
    method TransactionsForAccount(account: Account) returns (r: seq<Transaction>)
      ensures r == ForAccount(transactions, account.iban)
    {
      r := [];
      var i := 0;
      while i < |transactions|
        invariant 0 <= i <= |transactions|
        invariant r == ForAccount(transactions[..i], account.iban)
      {
        assert transactions[..i + 1][..i] == transactions[..i];
        if Touches(transactions[i], account.iban) {
          r := r + [transactions[i]];
        }
        i := i + 1;
      }
      assert transactions[..i] == transactions;
    }

    method RecentTransactions(account: Account, limit: int) returns (r: Result<seq<Transaction>, Exception>)
      ensures r == Recent(transactions, account.iban, limit)
    {
      var l := TransactionsForAccount(account);
      var startIndex := Max(0, |l| - limit);
      if startIndex > |l| {
        return Err(IllegalArgument("fromIndex(" + Text.Decimal(startIndex) + ") > toIndex(" + Text.Decimal(|l|) + ")"));
      }
      r := Ok(l[startIndex..]);
    }
  }
}
