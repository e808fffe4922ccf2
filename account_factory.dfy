/**
 * AccountFactory: it opens personal and business accounts under IBANs drawn
 * from two counters of its own (one per kind, both starting at 1), checks the
 * shape of an IBAN and reads the account type back from its bank code. The
 * Java counters are static; here they are the fields of one factory object.
 */
module AccountCreation {
  import opened Wrappers
  import opened Users
  import opened Accounts
  import Text
  import AccountManagement

  /** The largest counter whose IBAN still has twenty characters, plus one. */
  const IbanCounterBound: nat := 1000000000000000

  /** isValidIban: non-null, twenty characters, "GR", then bank code 100 or 200. */
  predicate IsValidIban(iban: Option<string>) {
    iban.Some? && |iban.value| == 20 && iban.value[..2] == "GR" &&
    (iban.value[2..5] == "100" || iban.value[2..5] == "200")
  }

  /** getAccountTypeFromIban: the kind named by the characters at 2..5. */
  function TypeFromIban(iban: Option<string>): Result<AccountKind, Exception> {
    if iban.None? || |iban.value| < 5 then Err(IllegalArgument("Invalid IBAN format"))
    else
      var code := iban.value[2..5];
      if code == "100" then Ok(AccountKind.Personal)
      else if code == "200" then Ok(AccountKind.Business)
      else Err(IllegalArgument("Unknown account type code: " + code))
  }

  /** The state an account opened by the factory starts in. */
  function FactoryOpening(kind: AccountKind, balance: real): AccountState {
    match kind
    case Personal => Opening(balance, 0.0).(interestRate := 0.01)
    case Business => Opening(balance, 25.00).(interestRate := 0.005).(monthlyFee := 25.00)
  }

  /** The owner variant an account of the kind demands. */
  predicate OwnerFits(kind: AccountKind, owner: User) {
    match kind
    case Personal => owner.role.Individual?
    case Business => owner.role.Business?
  }

  class AccountFactory {
    var personalAccountCounter: nat
    var businessAccountCounter: nat

    constructor()
      ensures personalAccountCounter == 1 && businessAccountCounter == 1
    {
      personalAccountCounter := 1;
      businessAccountCounter := 1;
    }

    /** The counter the next IBAN of the kind is drawn from. */
    function Next(kind: AccountKind): nat
      reads this
    {
      if kind == AccountKind.Personal then personalAccountCounter else businessAccountCounter
    }

    /** generatePersonalIban: the IBAN of the current counter, which then moves on. */
    method GeneratePersonalIban() returns (iban: string)
      modifies this
      ensures iban == AccountManagement.Iban(AccountKind.Personal, old(personalAccountCounter))
      ensures personalAccountCounter == old(personalAccountCounter) + 1
      ensures businessAccountCounter == old(businessAccountCounter)
    {
      var accountNumber := Text.ZeroPad(personalAccountCounter, 15);
      personalAccountCounter := personalAccountCounter + 1;
      iban := "GR" + "100" + accountNumber;
    }

    /** generateBusinessIban. */
    method GenerateBusinessIban() returns (iban: string)
      modifies this
      ensures iban == AccountManagement.Iban(AccountKind.Business, old(businessAccountCounter))
      ensures businessAccountCounter == old(businessAccountCounter) + 1
      ensures personalAccountCounter == old(personalAccountCounter)
    {
      var accountNumber := Text.ZeroPad(businessAccountCounter, 15);
      businessAccountCounter := businessAccountCounter + 1;
      iban := "GR" + "200" + accountNumber;
    }

    /** setCounters. */
    method SetCounters(personal: nat, business: nat)
      modifies this
      ensures personalAccountCounter == personal && businessAccountCounter == business
    {
      personalAccountCounter := personal;
      businessAccountCounter := business;
    }

    /** createPersonalAccount(owner, initialBalance): the rate is set to 0.01. */
    method CreatePersonalAccount(owner: User, initialBalance: real) returns (a: Account)
      requires owner.role.Individual?
      modifies this
      ensures fresh(a) && a.kind == AccountKind.Personal && a.owner == owner
      ensures a.iban == AccountManagement.Iban(AccountKind.Personal, old(personalAccountCounter))
      ensures a.State() == FactoryOpening(AccountKind.Personal, initialBalance)
      ensures personalAccountCounter == old(personalAccountCounter) + 1
      ensures businessAccountCounter == old(businessAccountCounter)
    {
      var iban := GeneratePersonalIban();
      a := new Account.Personal(iban, initialBalance, owner);
      a.SetInterestRate(0.01);
    }

    /** createPersonalAccount(owner): a zero balance. */
    method CreateEmptyPersonalAccount(owner: User) returns (a: Account)
      requires owner.role.Individual?
      modifies this
      ensures fresh(a) && a.kind == AccountKind.Personal && a.owner == owner
      ensures a.iban == AccountManagement.Iban(AccountKind.Personal, old(personalAccountCounter))
      ensures a.State() == FactoryOpening(AccountKind.Personal, 0.0)
      ensures personalAccountCounter == old(personalAccountCounter) + 1
      ensures businessAccountCounter == old(businessAccountCounter)
    {
      a := CreatePersonalAccount(owner, 0.0);
    }

    /** createBusinessAccount(owner, initialBalance): rate 0.005 and fee 25.00. */
    method CreateBusinessAccount(owner: User, initialBalance: real) returns (a: Account)
      requires owner.role.Business?
      modifies this
      ensures fresh(a) && a.kind == AccountKind.Business && a.owner == owner
      ensures a.iban == AccountManagement.Iban(AccountKind.Business, old(businessAccountCounter))
      ensures a.State() == FactoryOpening(AccountKind.Business, initialBalance)
      ensures businessAccountCounter == old(businessAccountCounter) + 1
      ensures personalAccountCounter == old(personalAccountCounter)
    {
      var iban := GenerateBusinessIban();
      a := new Account.BusinessWithDefaultFee(iban, initialBalance, owner);
      a.SetInterestRate(0.005);
      a.SetMonthlyFee(25.00);
    }

    /** createBusinessAccount(owner): a zero balance. */
    method CreateEmptyBusinessAccount(owner: User) returns (a: Account)
      requires owner.role.Business?
      modifies this
      ensures fresh(a) && a.kind == AccountKind.Business && a.owner == owner
      ensures a.iban == AccountManagement.Iban(AccountKind.Business, old(businessAccountCounter))
      ensures a.State() == FactoryOpening(AccountKind.Business, 0.0)
      ensures businessAccountCounter == old(businessAccountCounter) + 1
      ensures personalAccountCounter == old(personalAccountCounter)
    {
      a := CreateBusinessAccount(owner, 0.0);
    }

    /**
     * createAccount(type, owner): an owner of the wrong variant is refused
     * before any IBAN is drawn; otherwise a zero-balance account of the kind
     * is opened under the kind's next IBAN.
     */
    method CreateAccount(kind: AccountKind, owner: User) returns (r: Result<Account, Exception>)
      modifies this
      ensures !OwnerFits(kind, owner) ==>
        r == Err(IllegalArgument(if kind == AccountKind.Personal then "Personal accounts require IndividualUser"
                                 else "Business accounts require BusinessUser")) &&
        personalAccountCounter == old(personalAccountCounter) &&
        businessAccountCounter == old(businessAccountCounter)
      ensures OwnerFits(kind, owner) ==>
        r.Ok? && fresh(r.value) && r.value.kind == kind && r.value.owner == owner &&
        r.value.iban == AccountManagement.Iban(kind, old(Next(kind))) &&
        r.value.State() == FactoryOpening(kind, 0.0) &&
        Next(kind) == old(Next(kind)) + 1 &&
        (kind == AccountKind.Personal ==> businessAccountCounter == old(businessAccountCounter)) &&
        (kind == AccountKind.Business ==> personalAccountCounter == old(personalAccountCounter))
    {
      match kind
      case Personal =>
        if !owner.role.Individual? {
          return Err(IllegalArgument("Personal accounts require IndividualUser"));
        }
        var a := CreateEmptyPersonalAccount(owner);
        r := Ok(a);
      case Business =>
        if !owner.role.Business? {
          return Err(IllegalArgument("Business accounts require BusinessUser"));
        }
        var a := CreateEmptyBusinessAccount(owner);
        r := Ok(a);
    }
  }

  // -----------------------------------------------------------------------
  // Properties
  // -----------------------------------------------------------------------

  /**
   * While its counter is below 10^15, a generated IBAN is valid and reads
   * back as the kind it was generated for.
   */
  lemma GeneratedIbanValid(kind: AccountKind, n: nat)
    requires n < IbanCounterBound
    ensures IsValidIban(Some(AccountManagement.Iban(kind, n)))
    ensures TypeFromIban(Some(AccountManagement.Iban(kind, n))) == Ok(kind)
  {
    AccountManagement.IbanFormat(kind, n);
  }

  /**
   * From 10^15 on the counter needs a sixteenth digit: the IBAN is longer
   * than twenty characters and isValidIban rejects it, though its type still
   * reads back.
   */
  lemma LongCounterIbanInvalid(kind: AccountKind, n: nat)
    requires n >= IbanCounterBound
    ensures !IsValidIban(Some(AccountManagement.Iban(kind, n)))
    ensures TypeFromIban(Some(AccountManagement.Iban(kind, n))) == Ok(kind)
  {
    LongCounterIbanLength(kind, n);
    AccountManagement.IbanFormat(kind, n);
  }

  /** From 10^15 on, the counter is written in more than fifteen digits. */
  lemma LongCounterIbanLength(kind: AccountKind, n: nat)
    requires n >= IbanCounterBound
    ensures |AccountManagement.Iban(kind, n)| > 20
  {
    BoundIsPow10();
    Text.DecimalLengthAbove(n, 15);
    assert |Text.ZeroPad(n, 15)| > 15;
  }

  lemma BoundIsPow10()
    ensures Text.Pow10(15) == IbanCounterBound
  {
    assert Text.Pow10(15) == 1000000000000000;
  }

  /**
   * getAccountTypeFromIban succeeds exactly on a non-null string of at least
   * five characters whose bank code is the kind's, and it refuses every other
   * input with the messages of the source.
   */
  lemma TypeFromIbanContract(iban: Option<string>, kind: AccountKind)
    ensures TypeFromIban(iban) == Ok(kind) <==>
      iban.Some? && |iban.value| >= 5 && iban.value[2..5] == AccountManagement.KindCode(kind)
    ensures iban.None? || |iban.value| < 5 ==> TypeFromIban(iban) == Err(IllegalArgument("Invalid IBAN format"))
    ensures iban.Some? && |iban.value| >= 5 && iban.value[2..5] != "100" && iban.value[2..5] != "200" ==>
      TypeFromIban(iban) == Err(IllegalArgument("Unknown account type code: " + iban.value[2..5]))
  {
  }

  /** Every valid IBAN has a type, and it is the one its bank code names. */
  lemma ValidIbanHasType(iban: Option<string>)
    requires IsValidIban(iban)
    ensures TypeFromIban(iban).Ok?
    ensures AccountManagement.KindCode(TypeFromIban(iban).value) == iban.value[2..5]
  {
  }

  /**
   * The type check is weaker than validation: it looks neither at the
   * country code nor at the length.
   */
  lemma TypeWithoutValidity()
    ensures TypeFromIban(Some("XX100")) == Ok(AccountKind.Personal)
    ensures !IsValidIban(Some("XX100"))
  {
    assert "XX100"[2..5] == "100";
  }

  /**
   * The two counters never produce the same IBAN: different kinds, or
   * different counter values, give different IBANs.
   */
  lemma FactoryIbansDistinct(k1: AccountKind, n1: nat, k2: AccountKind, n2: nat)
    requires k1 != k2 || n1 != n2
    ensures AccountManagement.Iban(k1, n1) != AccountManagement.Iban(k2, n2)
  {
    if AccountManagement.Iban(k1, n1) == AccountManagement.Iban(k2, n2) {
      AccountManagement.IbanInjective(k1, n1, k2, n2);
    }
  }

  /**
   * Personal accounts earn 0.01 and pay no fee; business accounts earn 0.005
   * and pay 25.00 a month; both open ACTIVE with no accrued interest and no
   * co-owners.
   */
  lemma FactoryDefaults(balance: real)
    ensures var p := FactoryOpening(AccountKind.Personal, balance);
      p.balance == balance && p.interestRate == 0.01 && p.monthlyFee == 0.0 &&
      p.status == Active && p.accruedInterest == 0.0 && p.secondaryOwners == []
    ensures var b := FactoryOpening(AccountKind.Business, balance);
      b.balance == balance && b.interestRate == 0.005 && b.monthlyFee == 25.00 &&
      b.status == Active && b.accruedInterest == 0.0 && b.secondaryOwners == []
  {
  }
}
