/**
 * TransactionBuilder: a transaction record assembled field by field, with
 * presets for the common kinds, checked and turned into a Transaction by
 * build. The builder's own fields are its state; what they hold at any time
 * is a TxDraft value, and build is specified on drafts.
 */
module TransactionBuilding {
  import opened Wrappers
  import opened Dates
  import opened Accounts
  import opened Transactions

  /** The fields of a builder; a null amount or type is None. */
  datatype TxDraft = TxDraft(
    id: int,
    dateTime: DateTime,
    amount: Option<real>,
    txType: Option<TransactionType>,
    description: string,
    balanceAfter: Option<real>,
    from: Account?,
    to: Account?,
    status: TransactionStatus)

  /** A new or reset builder; `now` is the clock reading it takes. */
  function FreshDraft(now: DateTime): TxDraft {
    TxDraft(0, now, None, None, "", None, null, null, Completed)
  }

  /** asDeposit. */
  function AsDeposit(d: TxDraft, account: Account?, amount: Option<real>): TxDraft {
    d.(txType := Some(Deposit), to := account, from := null, amount := amount, description := "Cash deposit")
  }

  /** asWithdrawal. */
  function AsWithdrawal(d: TxDraft, account: Account?, amount: Option<real>): TxDraft {
    d.(txType := Some(Withdrawal), from := account, to := null, amount := amount, description := "Cash withdrawal")
  }

  /** asTransfer: the description names the destination's IBAN. */
  function AsTransfer(d: TxDraft, from: Account?, to: Account, amount: Option<real>): TxDraft {
    d.(txType := Some(TransferOut), from := from, to := to, amount := amount, description := "Transfer to " + to.iban)
  }

  /** The message of an external transfer, naming the rail, the recipient and the gateway's id. */
  function ExternalDescription(sepa: bool, recipient: string, apiTxId: string): string {
    (if sepa then "SEPA" else "SWIFT") + " transfer to " + recipient + " [API TxID: " + apiTxId + "]"
  }

  /** asSepaTransfer (sepa) and asSwiftTransfer: only the source is named. */
  function AsExternalTransfer(d: TxDraft, from: Account?, sepa: bool, recipient: string, amount: Option<real>,
                              apiTxId: string): TxDraft {
    d.(txType := Some(if sepa then SepaTransfer else SwiftTransfer), from := from, to := null, amount := amount,
       description := ExternalDescription(sepa, recipient, apiTxId))
  }

  /** asBillPayment. */
  function AsBillPayment(d: TxDraft, from: Account?, rfCode: string, amount: Option<real>): TxDraft {
    d.(txType := Some(BillPayment), from := from, to := null, amount := amount, description := "Bill payment RF: " + rfCode)
  }

  /**
   * build: validate, then the record with the builder's balanceAfter and
   * status in place of what the constructor put there. The builder's
   * dateTime is not passed on.
   */
  function Built(d: TxDraft): Result<Transaction, Exception> {
    if d.amount.None? || d.amount.value <= 0.0 then Err(IllegalState("Transaction amount must be positive"))
    else if d.txType.None? then Err(IllegalState("Transaction type is required"))
    else Ok(Transaction(d.id, d.from, d.to, d.amount.value, d.txType.value, d.description, d.balanceAfter, d.status))
  }

  class TransactionBuilder {
    var id: int
    var dateTime: DateTime
    var amount: Option<real>
    var txType: Option<TransactionType>
    var description: string
    var balanceAfter: Option<real>
    var fromAccount: Account?
    var toAccount: Account?
    var status: TransactionStatus

    function Draft(): TxDraft
      reads this
    {
      TxDraft(id, dateTime, amount, txType, description, balanceAfter, fromAccount, toAccount, status)
    }

    /** new TransactionBuilder(): COMPLETED, an empty description, the clock's time. */
    constructor(now: DateTime)
      ensures Draft() == FreshDraft(now)
    {
      id := 0;
      dateTime := now;
      amount := None;
      txType := None;
      description := "";
      balanceAfter := None;
      fromAccount := null;
      toAccount := null;
      status := Completed;
    }

    method WithId(id: int)
      modifies this
      ensures Draft() == old(Draft()).(id := id)
    {
      this.id := id;
    }

    method WithDateTime(dateTime: DateTime)
      modifies this
      ensures Draft() == old(Draft()).(dateTime := dateTime)
    {
      this.dateTime := dateTime;
    }

    method WithAmount(amount: Option<real>)
      modifies this
      ensures Draft() == old(Draft()).(amount := amount)
    {
      this.amount := amount;
    }

    method WithType(txType: Option<TransactionType>)
      modifies this
      ensures Draft() == old(Draft()).(txType := txType)
    {
      this.txType := txType;
    }

    method WithDescription(description: string)
      modifies this
      ensures Draft() == old(Draft()).(description := description)
    {
      this.description := description;
    }

    method WithBalanceAfter(balanceAfter: Option<real>)
      modifies this
      ensures Draft() == old(Draft()).(balanceAfter := balanceAfter)
    {
      this.balanceAfter := balanceAfter;
    }

    method FromAccount(account: Account?)
      modifies this
      ensures Draft() == old(Draft()).(from := account)
    {
      fromAccount := account;
    }

    method ToAccount(account: Account?)
      modifies this
      ensures Draft() == old(Draft()).(to := account)
    {
      toAccount := account;
    }

    method WithStatus(status: TransactionStatus)
      modifies this
      ensures Draft() == old(Draft()).(status := status)
    {
      this.status := status;
    }

    method SetDeposit(account: Account?, amount: Option<real>)
      modifies this
      ensures Draft() == AsDeposit(old(Draft()), account, amount)
    {
      txType := Some(Deposit);
      toAccount := account;
      fromAccount := null;
      this.amount := amount;
      description := "Cash deposit";
    }

    method SetWithdrawal(account: Account?, amount: Option<real>)
      modifies this
      ensures Draft() == AsWithdrawal(old(Draft()), account, amount)
    {
      txType := Some(Withdrawal);
      fromAccount := account;
      toAccount := null;
      this.amount := amount;
      description := "Cash withdrawal";
    }

    method SetTransfer(from: Account?, to: Account, amount: Option<real>)
      modifies this
      ensures Draft() == AsTransfer(old(Draft()), from, to, amount)
    {
      txType := Some(TransferOut);
      fromAccount := from;
      toAccount := to;
      this.amount := amount;
      description := "Transfer to " + to.iban;
    }

    method SetSepaTransfer(from: Account?, toIban: string, amount: Option<real>, apiTxId: string)
      modifies this
      ensures Draft() == AsExternalTransfer(old(Draft()), from, true, toIban, amount, apiTxId)
    {
      txType := Some(SepaTransfer);
      fromAccount := from;
      toAccount := null;
      this.amount := amount;
      description := ExternalDescription(true, toIban, apiTxId);
    }

    method SetSwiftTransfer(from: Account?, toAccount: string, amount: Option<real>, apiTxId: string)
      modifies this
      ensures Draft() == AsExternalTransfer(old(Draft()), from, false, toAccount, amount, apiTxId)
    {
      txType := Some(SwiftTransfer);
      fromAccount := from;
      this.toAccount := null;
      this.amount := amount;
      description := ExternalDescription(false, toAccount, apiTxId);
    }

    method SetBillPayment(from: Account?, rfCode: string, amount: Option<real>)
      modifies this
      ensures Draft() == AsBillPayment(old(Draft()), from, rfCode, amount)
    {
      txType := Some(BillPayment);
      fromAccount := from;
      toAccount := null;
      this.amount := amount;
      description := "Bill payment RF: " + rfCode;
    }

    /** build: the builder itself is left as it was. */
    method Build() returns (r: Result<Transaction, Exception>)
      ensures r == Built(Draft())
    {
      if amount.None? || amount.value <= 0.0 {
        return Err(IllegalState("Transaction amount must be positive"));
      }
      if txType.None? {
        return Err(IllegalState("Transaction type is required"));
      }
      var t := Transaction(id, fromAccount, toAccount, amount.value, txType.value, description, None, Completed);
      t := t.(balanceAfter := balanceAfter);
      t := t.(status := status);
      r := Ok(t);
    }

    /** reset: every field back to its default, with a new clock reading. */
    method Reset(now: DateTime)
      modifies this
      ensures Draft() == FreshDraft(now)
    {
      id := 0;
      dateTime := now;
      amount := None;
      txType := None;
      description := "";
      balanceAfter := None;
      fromAccount := null;
      toAccount := null;
      status := Completed;
    }
  }

  // -----------------------------------------------------------------------
  // Properties
  // -----------------------------------------------------------------------

  /**
   * build succeeds exactly when the amount is positive and a type is set,
   * checking the amount first, and the record it returns carries every field
   * of the draft as it is.
   */
  lemma BuiltContract(d: TxDraft)
    ensures Built(d).Ok? <==> d.amount.Some? && d.amount.value > 0.0 && d.txType.Some?
    ensures d.amount.None? || d.amount.value <= 0.0 ==>
      Built(d) == Err(IllegalState("Transaction amount must be positive"))
    ensures d.amount.Some? && d.amount.value > 0.0 && d.txType.None? ==>
      Built(d) == Err(IllegalState("Transaction type is required"))
    ensures Built(d).Ok? ==>
      var t := Built(d).value;
      t.id == d.id && t.from == d.from && t.to == d.to && Some(t.amount) == d.amount &&
      Some(t.txType) == d.txType && t.description == d.description &&
      t.balanceAfter == d.balanceAfter && t.status == d.status
  {
  }

  /**
   * The record build returns is the constructor's, whatever balances the
   * accounts had, with its snapshot and status overwritten by the builder's.
   */
  lemma BuiltOverridesSnapshot(d: TxDraft, balances: map<Account, AccountState>)
    requires Known(balances, d.from, d.to)
    requires Built(d).Ok?
    ensures Built(d).value ==
      Opened(d.id, d.from, d.to, d.amount.value, d.txType.value, d.description, balances)
        .(balanceAfter := d.balanceAfter).(status := d.status)
  {
  }

  /** The builder's dateTime has no influence on what build returns. */
  lemma BuiltIgnoresDateTime(d: TxDraft, t: DateTime)
    ensures Built(d.(dateTime := t)) == Built(d)
  {
  }

  /**
   * A new builder is COMPLETED with an empty description and no balance, and
   * cannot build until an amount and a type are given.
   */
  lemma FreshDraftDefaults(now: DateTime)
    ensures var d := FreshDraft(now);
      d.status == Completed && d.description == "" && d.balanceAfter.None? &&
      d.from == null && d.to == null && d.id == 0
    ensures Built(FreshDraft(now)) == Err(IllegalState("Transaction amount must be positive"))
  {
  }

  /**
   * asDeposit names only the destination, asWithdrawal only the source,
   * asTransfer both, as an outgoing transfer; each keeps the id, the
   * balance, the status and the time, and with a positive amount the draft
   * builds.
   */
  lemma PresetsContract(d: TxDraft, a: Account?, b: Account, x: real)
    requires x > 0.0
    ensures var p := AsDeposit(d, a, Some(x));
      p.to == a && p.from == null && p.txType == Some(Deposit) && Built(p).Ok? &&
      p.(txType := d.txType, to := d.to, from := d.from, amount := d.amount, description := d.description) == d
    ensures var p := AsWithdrawal(d, a, Some(x));
      p.from == a && p.to == null && p.txType == Some(Withdrawal) && Built(p).Ok? &&
      p.(txType := d.txType, to := d.to, from := d.from, amount := d.amount, description := d.description) == d
    ensures var p := AsTransfer(d, a, b, Some(x));
      p.from == a && p.to == b && p.txType == Some(TransferOut) && Built(p).Ok? &&
      p.(txType := d.txType, to := d.to, from := d.from, amount := d.amount, description := d.description) == d
  {
  }
}
