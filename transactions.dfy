/**
 * A record in the transaction log (Transaction). Records are values: the
 * managers build one, overwrite its balance snapshot with setBalanceAfter and
 * append it, and nothing changes it after that. The timestamp, which the
 * constructor reads from the clock, is not part of the model.
 */
module Transactions {
  import opened Wrappers
  import Accounts

  datatype TransactionType =
    | Deposit | Withdrawal | TransferIn | TransferOut | BillPayment
    | Interest | MaintenanceFee | SepaTransfer | SwiftTransfer

  datatype TransactionStatus = Pending | Completed | Failed | Cancelled

  datatype Transaction = Transaction(
    id: int,
    from: Accounts.Account?,
    to: Accounts.Account?,
    amount: real,
    txType: TransactionType,
    description: string,
    balanceAfter: Option<real>,
    status: TransactionStatus)

  /** The accounts a record names must have a known balance. */
  predicate Known(balances: map<Accounts.Account, Accounts.AccountState>, from: Accounts.Account?, to: Accounts.Account?) {
    (from != null ==> from in balances) && (to != null ==> to in balances)
  }

  /**
   * The constructor's snapshot: the balance of the source account if there is
   * one, else of the destination, else none.
   */
  function Snapshot(balances: map<Accounts.Account, Accounts.AccountState>, from: Accounts.Account?, to: Accounts.Account?): Option<real>
    requires Known(balances, from, to)
  {
    if from != null then Some(balances[from].balance)
    else if to != null then Some(balances[to].balance)
    else None
  }

  /** new Transaction(id, from, to, amount, type, description), with the given balances. */
  function Opened(id: int, from: Accounts.Account?, to: Accounts.Account?, amount: real,
                  txType: TransactionType, description: string,
                  balances: map<Accounts.Account, Accounts.AccountState>): (t: Transaction)
    requires Known(balances, from, to)
  {
    Transaction(id, from, to, amount, txType, description, Snapshot(balances, from, to), Completed)
  }

  /** setBalanceAfter. */
  function WithBalanceAfter(t: Transaction, balance: real): Transaction {
    t.(balanceAfter := Some(balance))
  }

  /** The types whose amount is shown as a credit. */
  predicate IsCredit(txType: TransactionType) {
    txType == Deposit || txType == TransferIn || txType == Interest
  }

  /** The sign both toString and toShortString put before the amount. */
  function Sign(txType: TransactionType): char {
    if IsCredit(txType) then '+' else '-'
  }

  /**
   * A new record is COMPLETED and keeps id, accounts, amount, type and
   * description as given; its snapshot follows the source account, falling
   * back to the destination, and is empty only when neither is given.
   */
  lemma OpenedContract(id: int, from: Accounts.Account?, to: Accounts.Account?, amount: real,
                       txType: TransactionType, description: string,
                       balances: map<Accounts.Account, Accounts.AccountState>)
    requires Known(balances, from, to)
    ensures var t := Opened(id, from, to, amount, txType, description, balances);
      t.status == Completed && t.id == id && t.from == from && t.to == to &&
      t.amount == amount && t.txType == txType && t.description == description
    ensures var t := Opened(id, from, to, amount, txType, description, balances);
      (t.balanceAfter.None? <==> from == null && to == null) &&
      (from != null ==> t.balanceAfter == Some(balances[from].balance)) &&
      (from == null && to != null ==> t.balanceAfter == Some(balances[to].balance))
  {
  }

  /** setBalanceAfter replaces the snapshot and nothing else. */
  lemma OverrideSnapshot(t: Transaction, balance: real)
    ensures WithBalanceAfter(t, balance).balanceAfter == Some(balance)
    ensures WithBalanceAfter(t, balance).(balanceAfter := t.balanceAfter) == t
  {
  }

  /**
   * Exactly three types are shown with '+': deposits, incoming transfers and
   * interest; every other type, fees and outgoing payments included, with '-'.
   */
  lemma SignRule()
    ensures forall ty :: Sign(ty) == '+' <==> ty in {Deposit, TransferIn, Interest}
    ensures forall ty :: Sign(ty) == '+' || Sign(ty) == '-'
    ensures Sign(Withdrawal) == '-' && Sign(TransferOut) == '-' && Sign(BillPayment) == '-'
    ensures Sign(MaintenanceFee) == '-' && Sign(SepaTransfer) == '-' && Sign(SwiftTransfer) == '-'
  {
  }
}
