/**
 * Bank accounts (Account, PersonalAccount, BusinessAccount). One class holds
 * both variants: `kind` says which subclass an account is, `owner` is the
 * primary owner of a personal account or the owner of a business account.
 * The ledger fields change only through deposit, withdraw, accrueInterest,
 * applyMonthlyInterest and applyMaintenanceFee; each method is specified by a
 * function on AccountState, the value of the fields that change.
 */
module Accounts {
  import opened Wrappers
  import Money
  import opened Users

  datatype AccountStatus = Active | Inactive | Frozen | Closed

  /** Which subclass of Account an account is. */
  datatype AccountKind = Personal | Business

  /** getAccountType(). */
  function KindName(k: AccountKind): string {
    if k == Personal then "PERSONAL" else "BUSINESS"
  }

  /**
   * The mutable fields of an account. `monthlyFee` is meaningful for business
   * accounts only and `secondaryOwners` for personal accounts only.
   */
  datatype AccountState = AccountState(
    balance: real,
    status: AccountStatus,
    interestRate: real,
    accruedInterest: real,
    monthlyFee: real,
    secondaryOwners: seq<User>)

  /** The state the Account constructor gives: ACTIVE, the default rate, nothing accrued. */
  function Opening(balance: real, monthlyFee: real): AccountState {
    AccountState(balance, Active, Money.DefaultInterestRate, 0.0, monthlyFee, [])
  }

  /** The new state of a call that may throw: unchanged when it threw. */
  function Commit(r: Result<AccountState, Exception>, s: AccountState): AccountState {
    if r.Ok? then r.value else s
  }

  function OutcomeOf(r: Result<AccountState, Exception>): Outcome<Exception> {
    if r.Ok? then Pass else Fail(r.error)
  }

  /** Account.deposit: the amount check comes first, then the status check. */
  function Deposited(s: AccountState, amount: real): Result<AccountState, Exception> {
    if amount <= 0.0 then Err(IllegalArgument("Deposit amount must be positive"))
    else if s.status != Active then Err(IllegalState("Account is not active"))
    else Ok(s.(balance := s.balance + amount))
  }

  /** Account.withdraw: amount, then status, then funds. */
  function Withdrawn(s: AccountState, amount: real): Result<AccountState, Exception> {
    if amount <= 0.0 then Err(IllegalArgument("Withdrawal amount must be positive"))
    else if s.status != Active then Err(IllegalState("Account is not active"))
    else if s.balance < amount then Err(IllegalState("Insufficient funds"))
    else Ok(s.(balance := s.balance - amount))
  }

  /** The interest one day adds: balance times the rounded daily rate. */
  function DailyInterest(s: AccountState): real {
    s.balance * Money.DailyRate(s.interestRate)
  }

  /** Account.accrueInterest; it does not look at the status. */
  function Accrued(s: AccountState): AccountState {
    s.(accruedInterest := s.accruedInterest + DailyInterest(s))
  }

  /** Account.applyMonthlyInterest: the new state and the interest returned. */
  function InterestApplied(s: AccountState): (AccountState, real) {
    (s.(balance := s.balance + s.accruedInterest, accruedInterest := 0.0), s.accruedInterest)
  }

  /** BusinessAccount.applyMaintenanceFee: the new state and the amount charged. */
  function FeeApplied(s: AccountState): (AccountState, real) {
    if s.status == Active then
      if s.balance >= s.monthlyFee then (s.(balance := s.balance - s.monthlyFee), s.monthlyFee)
      else (s.(balance := 0.0), s.balance)
    else (s, 0.0)
  }

  /** n days of accrual. */
  function AccruedDays(s: AccountState, n: nat): AccountState
    decreases n
  {
    if n == 0 then s else AccruedDays(Accrued(s), n - 1)
  }

  /** PersonalAccount.addSecondaryOwner on the list: skip a listed user and the primary owner. */
  function WithSecondaryOwner(owners: seq<User>, primary: User, u: User): seq<User> {
    if u in owners || u == primary then owners else owners + [u]
  }

  /** List.remove(Object): drop the first occurrence, if any. */
  function WithoutFirst(owners: seq<User>, u: User): seq<User> {
    if owners == [] then []
    else if owners[0] == u then owners[1..]
    else [owners[0]] + WithoutFirst(owners[1..], u)
  }

  predicate NoDuplicates(owners: seq<User>) {
    forall i, j :: 0 <= i < j < |owners| ==> owners[i] != owners[j]
  }

  class Account {
    const iban: string
    const kind: AccountKind
    const owner: User
    var balance: real
    var status: AccountStatus
    var interestRate: real
    var accruedInterest: real
    var monthlyFee: real
    var secondaryOwners: seq<User>

    function State(): AccountState
      reads this
    {
      AccountState(balance, status, interestRate, accruedInterest, monthlyFee, secondaryOwners)
    }

    /** new PersonalAccount(iban, balance, primaryOwner). */
    constructor Personal(iban: string, balance: real, primaryOwner: User)
      requires primaryOwner.role.Individual?
      ensures this.iban == iban && kind == AccountKind.Personal && owner == primaryOwner
      ensures State() == Opening(balance, 0.0)
    {
      this.iban := iban;
      this.kind := AccountKind.Personal;
      this.owner := primaryOwner;
      this.balance := balance;
      this.status := Active;
      this.interestRate := Money.DefaultInterestRate;
      this.accruedInterest := 0.0;
      this.monthlyFee := 0.0;
      this.secondaryOwners := [];
    }

    /** new BusinessAccount(iban, balance, owner, monthlyMaintenanceFee). */
    constructor Business(iban: string, balance: real, owner: User, monthlyFee: real)
      requires owner.role.Business?
      ensures this.iban == iban && kind == AccountKind.Business && this.owner == owner
      ensures State() == Opening(balance, monthlyFee)
    {
      this.iban := iban;
      this.kind := AccountKind.Business;
      this.owner := owner;
      this.balance := balance;
      this.status := Active;
      this.interestRate := Money.DefaultInterestRate;
      this.accruedInterest := 0.0;
      this.monthlyFee := monthlyFee;
      this.secondaryOwners := [];
    }

    /** new BusinessAccount(iban, balance, owner): the fee defaults to 25.00. */
    constructor BusinessWithDefaultFee(iban: string, balance: real, owner: User)
      requires owner.role.Business?
      ensures this.iban == iban && kind == AccountKind.Business && this.owner == owner
      ensures State() == Opening(balance, Money.DefaultMaintenanceFee)
    {
      this.iban := iban;
      this.kind := AccountKind.Business;
      this.owner := owner;
      this.balance := balance;
      this.status := Active;
      this.interestRate := Money.DefaultInterestRate;
      this.accruedInterest := 0.0;
      this.monthlyFee := Money.DefaultMaintenanceFee;
      this.secondaryOwners := [];
    }

    method Deposit(amount: real) returns (r: Outcome<Exception>)
      modifies this
      ensures r == OutcomeOf(Deposited(old(State()), amount))
      ensures State() == Commit(Deposited(old(State()), amount), old(State()))
    {
      if amount <= 0.0 {
        return Fail(IllegalArgument("Deposit amount must be positive"));
      }
      if status != Active {
        return Fail(IllegalState("Account is not active"));
      }
      balance := balance + amount;
      r := Pass;
    }

    method Withdraw(amount: real) returns (r: Outcome<Exception>)
      modifies this
      ensures r == OutcomeOf(Withdrawn(old(State()), amount))
      ensures State() == Commit(Withdrawn(old(State()), amount), old(State()))
    {
      if amount <= 0.0 {
        return Fail(IllegalArgument("Withdrawal amount must be positive"));
      }
      if status != Active {
        return Fail(IllegalState("Account is not active"));
      }
      if balance < amount {
        return Fail(IllegalState("Insufficient funds"));
      }
      balance := balance - amount;
      r := Pass;
    }

    method AccrueInterest()
      modifies this
      ensures State() == Accrued(old(State()))
    {
      var dailyRate := Money.DailyRate(interestRate);
      var interest := balance * dailyRate;
      accruedInterest := accruedInterest + interest;
    }

    method ApplyMonthlyInterest() returns (interest: real)
      modifies this
      ensures (State(), interest) == InterestApplied(old(State()))
    {
      interest := accruedInterest;
      balance := balance + accruedInterest;
      accruedInterest := 0.0;
    }

    method ApplyMaintenanceFee() returns (charged: real)
      requires kind == AccountKind.Business
      modifies this
      ensures (State(), charged) == FeeApplied(old(State()))
    {
      if status == Active {
        if balance >= monthlyFee {
          balance := balance - monthlyFee;
          return monthlyFee;
        } else {
          charged := balance;
          balance := 0.0;
          return charged;
        }
      }
      return 0.0;
    }

    method SetStatus(status: AccountStatus)
      modifies this
      ensures State() == old(State()).(status := status)
    {
      this.status := status;
    }

    method SetInterestRate(rate: real)
      modifies this
      ensures State() == old(State()).(interestRate := rate)
    {
      this.interestRate := rate;
    }

    /** BusinessAccount.setMonthlyMaintenanceFee. */
    method SetMonthlyFee(fee: real)
      modifies this
      ensures State() == old(State()).(monthlyFee := fee)
    {
      this.monthlyFee := fee;
    }

    /** isOwner: the owner's id, or for a personal account also a co-owner's id, equals u's. */
    predicate HasOwner(u: User)
      reads this
    {
      owner.id == u.id ||
      (kind == AccountKind.Personal && exists j :: 0 <= j < |secondaryOwners| && secondaryOwners[j].id == u.id)
    }

    /** isPrimaryOwner (and BusinessAccount.isOwner): the owner's id equals u's. */
    predicate IsPrimaryOwner(u: User): (r: bool)
      reads this
      ensures r ==> HasOwner(u)
      ensures kind == AccountKind.Business ==> (r <==> HasOwner(u))
    {
      owner.id == u.id
    }

    /** isOwner, as the source computes it: the primary first, then each co-owner. */
    method IsOwner(u: User) returns (b: bool)
      ensures b == HasOwner(u)
    {
      if owner.id == u.id {
        return true;
      }
      if kind == AccountKind.Business {
        return false;
      }
      var i := 0;
      while i < |secondaryOwners|
        invariant 0 <= i <= |secondaryOwners|
        invariant forall j :: 0 <= j < i ==> secondaryOwners[j].id != u.id
      {
        if secondaryOwners[i].id == u.id {
          return true;
        }
        i := i + 1;
      }
      return false;
    }

    method AddSecondaryOwner(u: User)
      requires kind == AccountKind.Personal
      modifies this
      ensures State() == old(State()).(secondaryOwners := WithSecondaryOwner(old(secondaryOwners), owner, u))
    {
      if u !in secondaryOwners && u != owner {
        secondaryOwners := secondaryOwners + [u];
      }
    }

    method RemoveSecondaryOwner(u: User)
      requires kind == AccountKind.Personal
      modifies this
      ensures State() == old(State()).(secondaryOwners := WithoutFirst(old(secondaryOwners), u))
    {
      secondaryOwners := WithoutFirst(secondaryOwners, u);
    }

    /** getAllOwners: the primary owner followed by the co-owners, in order. */
    function AllOwners(): (r: seq<User>)
      reads this
      ensures |r| == 1 + |secondaryOwners| && r[0] == owner && r[1..] == secondaryOwners
    {
      [owner] + secondaryOwners
    }
  }

  /** The changing state of every account in a set. */
  function AccMap(accounts: set<Account>): map<Account, AccountState>
    reads accounts
  {
    map a | a in accounts :: a.State()
  }

  /** account.deposit(amount), seen through the states of the accounts in S. */
  method DepositIn(ghost S: set<Account>, a: Account, amount: real) returns (r: Outcome<Exception>)
    requires a in S
    modifies a
    ensures var c := Deposited(old(AccMap(S))[a], amount);
      r == OutcomeOf(c) && AccMap(S) == (if c.Ok? then old(AccMap(S))[a := c.value] else old(AccMap(S)))
  {
    ghost var m := AccMap(S);
    r := a.Deposit(amount);
    assert AccMap(S) == m[a := a.State()];
    if r.Fail? {
      assert AccMap(S) == m;
    }
  }

  /** account.withdraw(amount), seen through the states of the accounts in S. */
  method WithdrawIn(ghost S: set<Account>, a: Account, amount: real) returns (r: Outcome<Exception>)
    requires a in S
    modifies a
    ensures var c := Withdrawn(old(AccMap(S))[a], amount);
      r == OutcomeOf(c) && AccMap(S) == (if c.Ok? then old(AccMap(S))[a := c.value] else old(AccMap(S)))
  {
    ghost var m := AccMap(S);
    r := a.Withdraw(amount);
    assert AccMap(S) == m[a := a.State()];
    if r.Fail? {
      assert AccMap(S) == m;
    }
  }

  // -----------------------------------------------------------------------
  // Properties of the ledger operations
  // -----------------------------------------------------------------------

  /**
   * A deposit succeeds exactly for a positive amount on an ACTIVE account, the
   * amount being checked first; it then adds exactly the amount and changes no
   * other field.
   */
  lemma DepositContract(s: AccountState, amount: real)
    ensures Deposited(s, amount).Ok? <==> amount > 0.0 && s.status == Active
    ensures amount <= 0.0 ==> Deposited(s, amount).error.IllegalArgument?
    ensures amount > 0.0 && s.status != Active ==> Deposited(s, amount).error.IllegalState?
    ensures Deposited(s, amount).Ok? ==>
      var t := Deposited(s, amount).value;
      t.balance == s.balance + amount && t.(balance := s.balance) == s
  {
  }

  /**
   * A withdrawal succeeds exactly for a positive amount, an ACTIVE account and
   * enough funds; it then subtracts exactly the amount, so a non-negative
   * balance stays non-negative.
   */
  lemma WithdrawContract(s: AccountState, amount: real)
    ensures Withdrawn(s, amount).Ok? <==> amount > 0.0 && s.status == Active && s.balance >= amount
    ensures Withdrawn(s, amount).Ok? ==>
      var t := Withdrawn(s, amount).value;
      t.balance == s.balance - amount && t.balance >= 0.0 && t.(balance := s.balance) == s
  {
  }

  /** On an ACTIVE account, withdraw(a) then deposit(a) restores the state exactly. */
  lemma WithdrawThenDeposit(s: AccountState, amount: real)
    requires Withdrawn(s, amount).Ok?
    ensures Deposited(Withdrawn(s, amount).value, amount) == Ok(s)
  {
  }

  /** From a non-negative balance, deposit(a) then withdraw(a) restores the state exactly. */
  lemma DepositThenWithdraw(s: AccountState, amount: real)
    requires Deposited(s, amount).Ok? && s.balance >= 0.0
    ensures Withdrawn(Deposited(s, amount).value, amount) == Ok(s)
  {
  }

  /** Accrual leaves the balance alone and adds balance times the rounded daily rate. */
  lemma {:induction false} AccrualOverDays(s: AccountState, n: nat)
    ensures AccruedDays(s, n).balance == s.balance
    ensures AccruedDays(s, n).interestRate == s.interestRate
    ensures AccruedDays(s, n).status == s.status
    ensures AccruedDays(s, n).accruedInterest == s.accruedInterest + (n as real) * DailyInterest(s)
    decreases n
  {
    if n > 0 {
      AccrualOverDays(Accrued(s), n - 1);
      assert DailyInterest(Accrued(s)) == DailyInterest(s);
    }
  }

  /** Thirty days on 1000.00 at the default rate realise 0.821919 of interest. */
  lemma ThirtyDaysAtDefaultRate()
    ensures InterestApplied(AccruedDays(Opening(1000.0, 0.0), 30)).1 == 0.821919
    ensures InterestApplied(AccruedDays(Opening(1000.0, 0.0), 30)).0.balance == 1000.821919
  {
    Money.DefaultDailyRate();
    AccrualOverDays(Opening(1000.0, 0.0), 30);
  }

  /**
   * applyMonthlyInterest hands back the accrued amount, moves it into the
   * balance and zeroes the accrual, so an immediate second call returns 0 and
   * changes nothing.
   */
  lemma InterestAppliedOnce(s: AccountState)
    ensures InterestApplied(s).1 == s.accruedInterest
    ensures InterestApplied(s).0.balance == s.balance + s.accruedInterest
    ensures InterestApplied(s).0.accruedInterest == 0.0
    ensures InterestApplied(InterestApplied(s).0) == (InterestApplied(s).0, 0.0)
  {
  }

  /**
   * The maintenance fee: the charge and the new balance add up to the old
   * balance on an ACTIVE account; from a non-negative balance the charge is at
   * most the fee and the balance stays non-negative; an inactive account is
   * not charged.
   */
  lemma FeeConservation(s: AccountState)
    ensures s.status == Active ==> FeeApplied(s).1 + FeeApplied(s).0.balance == s.balance
    ensures s.status != Active ==> FeeApplied(s) == (s, 0.0)
    ensures s.balance >= 0.0 ==> FeeApplied(s).1 <= s.monthlyFee || s.status != Active
    ensures s.balance >= 0.0 ==> FeeApplied(s).0.balance >= 0.0
    ensures FeeApplied(s).0.(balance := s.balance) == s
  {
  }

  /** No negative balance, accrual or rate. */
  predicate Sound(s: AccountState) {
    s.balance >= 0.0 && s.accruedInterest >= 0.0 && s.interestRate >= 0.0
  }

  lemma DailyRateNonNegative(rate: real)
    requires rate >= 0.0
    ensures Money.DailyRate(rate) >= 0.0
  {
    Money.RoundHalfUpIsNearest(rate / 365.0, 10);
  }

  /** Every ledger operation keeps a sound account sound. */
  lemma OperationsKeepSound(s: AccountState, amount: real)
    requires Sound(s)
    ensures Sound(Commit(Deposited(s, amount), s))
    ensures Sound(Commit(Withdrawn(s, amount), s))
    ensures Sound(Accrued(s))
    ensures Sound(InterestApplied(s).0) && InterestApplied(s).1 >= 0.0
    ensures Sound(FeeApplied(s).0)
  {
    DailyRateNonNegative(s.interestRate);
    assert DailyInterest(s) >= 0.0;
  }

  /** addSecondaryOwner never adds the primary owner or a second copy of a co-owner. */
  lemma SecondaryOwnersStayDistinct(owners: seq<User>, primary: User, u: User)
    requires NoDuplicates(owners) && primary !in owners
    ensures NoDuplicates(WithSecondaryOwner(owners, primary, u))
    ensures primary !in WithSecondaryOwner(owners, primary, u)
    ensures u in WithSecondaryOwner(owners, primary, u) <==> u != primary
  {
  }

  /**
   * removeSecondaryOwner drops the user and keeps the others in order: with
   * no duplicates, what remains is exactly the list without that user.
   */
  lemma {:induction false} RemoveKeepsOthers(owners: seq<User>, u: User)
    requires NoDuplicates(owners)
    ensures WithoutFirst(owners, u) == Filtered(owners, u)
    ensures u !in WithoutFirst(owners, u)
    decreases |owners|
  {
    if owners != [] {
      RemoveKeepsOthers(owners[1..], u);
      if owners[0] == u {
        NotInFiltered(owners[1..], u);
      }
    }
  }

  /** The list without any occurrence of u, in order. */
  function Filtered(owners: seq<User>, u: User): (r: seq<User>)
    ensures u !in r
  {
    if owners == [] then [] else (if owners[0] == u then [] else [owners[0]]) + Filtered(owners[1..], u)
  }

  lemma {:induction false} NotInFiltered(owners: seq<User>, u: User)
    requires u !in owners
    ensures Filtered(owners, u) == owners
    decreases |owners|
  {
    if owners != [] {
      NotInFiltered(owners[1..], u);
    }
  }
}
