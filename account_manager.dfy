/**
 * The account registry (AccountManager): it opens personal and business
 * accounts under IBANs drawn from one shared counter, finds an account by
 * IBAN, lists the accounts a customer owns, and sets an account's status.
 */
module AccountManagement {
  import opened Wrappers
  import opened Users
  import opened Accounts
  import Text
  import Money

  /** The bank code of an IBAN: "100" for a personal account, "200" for a business one. */
  function KindCode(kind: AccountKind): string {
    if kind == AccountKind.Personal then "100" else "200"
  }

  /** "GR" + the kind's code + String.format("%015d", n). */
  function Iban(kind: AccountKind, n: nat): string {
    "GR" + KindCode(kind) + Text.ZeroPad(n, 15)
  }

  /**
   * A generated IBAN is "GR", the kind's code and the counter in at least
   * fifteen digits; it has twenty characters while the counter is below 10^15.
   */
  lemma IbanFormat(kind: AccountKind, n: nat)
    ensures |Iban(kind, n)| >= 20 && Iban(kind, n)[..2] == "GR" && Iban(kind, n)[2..5] == KindCode(kind)
    ensures n < 1000000000000000 ==> |Iban(kind, n)| == 20
    ensures Text.AllDigits(Iban(kind, n)[5..]) && Text.DigitsValue(Iban(kind, n)[5..]) == n
  {
    Text.ZeroPadRoundTrip(n, 15);
    assert Text.Pow10(15) == 1000000000000000;
    assert Iban(kind, n)[5..] == Text.ZeroPad(n, 15);
  }

  /** Two generated IBANs are equal only for the same kind and the same counter value. */
  lemma IbanInjective(k1: AccountKind, n1: nat, k2: AccountKind, n2: nat)
    requires Iban(k1, n1) == Iban(k2, n2)
    ensures k1 == k2 && n1 == n2
  {
    IbanFormat(k1, n1);
    IbanFormat(k2, n2);
    assert KindCode(k1) == Iban(k1, n1)[2..5];
  }

  /** findByIban: the first account with the IBAN, or null. */
  function FindByIban(accounts: seq<Account>, iban: string): Option<Account>
    decreases |accounts|
  {
    if accounts == [] then None
    else if accounts[0].iban == iban then Some(accounts[0])
    else FindByIban(accounts[1..], iban)
  }

  /** findByIban returns the first account with the IBAN, and null exactly when there is none. */
  lemma {:induction false} FindByIbanContract(accounts: seq<Account>, iban: string)
    ensures FindByIban(accounts, iban).None? <==> forall i :: 0 <= i < |accounts| ==> accounts[i].iban != iban
    ensures FindByIban(accounts, iban).Some? ==>
      exists k :: 0 <= k < |accounts| && accounts[k] == FindByIban(accounts, iban).value &&
        accounts[k].iban == iban && forall j :: 0 <= j < k ==> accounts[j].iban != iban
    decreases |accounts|
  {
    if accounts != [] && accounts[0].iban != iban {
      FindByIbanContract(accounts[1..], iban);
      if FindByIban(accounts, iban).Some? {
        var k :| 0 <= k < |accounts[1..]| && accounts[1..][k] == FindByIban(accounts, iban).value &&
          accounts[1..][k].iban == iban && forall j :: 0 <= j < k ==> accounts[1..][j].iban != iban;
        assert forall j :: 1 <= j < k + 1 ==> accounts[j] == accounts[1..][j - 1];
        assert accounts[k + 1] == accounts[1..][k];
      } else {
        assert forall i :: 1 <= i < |accounts| ==> accounts[i] == accounts[1..][i - 1];
      }
    }
  }

  /** The accounts of one variant, in list order (getAllPersonalAccounts, getAllBusinessAccounts). */
  function OfKind(accounts: seq<Account>, kind: AccountKind): seq<Account>
    decreases |accounts|
  {
    if accounts == [] then []
    else
      var last := accounts[|accounts| - 1];
      OfKind(accounts[..|accounts| - 1], kind) + (if last.kind == kind then [last] else [])
  }

  /**
   * The accounts of one variant that u owns, in list order
   * (getAccountsForIndividualUser, getAccountsForBusinessUser).
   */
  function OwnedOfKind(accounts: seq<Account>, kind: AccountKind, u: User): seq<Account>
    reads set a | a in accounts
    decreases |accounts|
  {
    if accounts == [] then []
    else
      var last := accounts[|accounts| - 1];
      OwnedOfKind(accounts[..|accounts| - 1], kind, u) + (if last.kind == kind && last.HasOwner(u) then [last] else [])
  }

  /** getAccountsForCustomer: individuals get their personal accounts, businesses their business ones, anyone else none. */
  function OwnedBy(accounts: seq<Account>, customer: User): seq<Account>
    reads set a | a in accounts
  {
    match customer.role
    case Individual(_, _, _) => OwnedOfKind(accounts, AccountKind.Personal, customer)
    case Business(_, _) => OwnedOfKind(accounts, AccountKind.Business, customer)
    case Admin(_) => []
  }

  /** The variant filter keeps exactly the accounts of that variant, and never more than the list. */
  lemma {:induction false} OfKindContract(accounts: seq<Account>, kind: AccountKind)
    ensures forall a :: a in OfKind(accounts, kind) <==> a in accounts && a.kind == kind
    ensures forall a :: a in OfKind(accounts, kind) ==> a in accounts && a.kind == kind
    ensures |OfKind(accounts, kind)| <= |accounts|
    decreases |accounts|
  {
    if accounts != [] {
      var init := accounts[..|accounts| - 1];
      OfKindContract(init, kind);
      assert accounts == init + [accounts[|accounts| - 1]];
    }
  }

  /** The per-owner filter keeps exactly the accounts of that variant for which isOwner holds. */
  lemma {:induction false} OwnedOfKindContract(accounts: seq<Account>, kind: AccountKind, u: User)
    ensures forall a :: a in OwnedOfKind(accounts, kind, u) <==> a in accounts && a.kind == kind && a.HasOwner(u)
    ensures forall a :: a in OwnedOfKind(accounts, kind, u) ==> a in accounts && a.kind == kind && a.HasOwner(u)
    ensures |OwnedOfKind(accounts, kind, u)| <= |accounts|
    decreases |accounts|
  {
    if accounts != [] {
      var init := accounts[..|accounts| - 1];
      OwnedOfKindContract(init, kind, u);
      assert accounts == init + [accounts[|accounts| - 1]];
    }
  }

  /** An admin owns no accounts; a customer's accounts are all of the customer's own variant. */
  lemma OwnedByContract(accounts: seq<Account>, customer: User)
    ensures customer.role.Admin? ==> OwnedBy(accounts, customer) == []
    ensures forall a :: a in OwnedBy(accounts, customer) <==>
      a in accounts && a.HasOwner(customer) &&
      ((customer.role.Individual? && a.kind == AccountKind.Personal) ||
       (customer.role.Business? && a.kind == AccountKind.Business))
  {
    OwnedOfKindContract(accounts, AccountKind.Personal, customer);
    OwnedOfKindContract(accounts, AccountKind.Business, customer);
  }

  /** No two listed accounts share an IBAN. */
  predicate DistinctIbans(accounts: seq<Account>) {
    forall i, j :: 0 <= i < j < |accounts| ==> accounts[i].iban != accounts[j].iban
  }

  /** No listed account carries an IBAN the counter has yet to hand out. */
  ghost predicate NoFutureIban(accounts: seq<Account>, counter: nat) {
    forall i, k, n :: 0 <= i < |accounts| && n >= counter ==> accounts[i].iban != Iban(k, n)
  }

  class AccountManager {
    var accounts: seq<Account>
    var accountCounter: nat

    /** The IBANs are distinct and none of them is still to come from the counter. */
    ghost predicate Valid()
      reads this
    {
      DistinctIbans(accounts) && NoFutureIban(accounts, accountCounter)
    }

    /** new AccountManager(): no accounts, the counter at 1. */
    constructor()
      ensures accounts == [] && accountCounter == 1 && Valid()
    {
      accounts := [];
      accountCounter := 1;
    }

    /** new AccountManager(list): the counter continues after the list's size. */
    constructor FromList(accounts: seq<Account>)
      ensures this.accounts == accounts && accountCounter == |accounts| + 1
    {
      this.accounts := accounts;
      accountCounter := |accounts| + 1;
    }

    /** generatePersonalIBAN / generateBusinessIBAN: the counter's value, then the counter moves on. */
    method NextIban(kind: AccountKind) returns (iban: string)
      modifies this
      ensures iban == Iban(kind, old(accountCounter))
      ensures accounts == old(accounts) && accountCounter == old(accountCounter) + 1
    {
      iban := Iban(kind, accountCounter);
      accountCounter := accountCounter + 1;
    }

    /** createPersonalAccount: one new ACTIVE personal account under the next IBAN, appended. */
    method CreatePersonalAccount(owner: User, initialBalance: real) returns (a: Account)
      requires owner.role.Individual?
      modifies this
      ensures fresh(a) && accounts == old(accounts) + [a] && accountCounter == old(accountCounter) + 1
      ensures a.iban == Iban(AccountKind.Personal, old(accountCounter)) && a.kind == AccountKind.Personal
      ensures a.owner == owner && a.State() == Opening(initialBalance, 0.0)
      ensures old(Valid()) ==> Valid()
    {
      ghost var wasValid, before, counter := Valid(), accounts, accountCounter;
      var iban := NextIban(AccountKind.Personal);
      a := new Account.Personal(iban, initialBalance, owner);
      accounts := accounts + [a];
      if wasValid {
        OpeningKeepsDistinct(before, counter, a, AccountKind.Personal);
      }
    }

    /** createBusinessAccount: one new ACTIVE business account with the given fee, appended. */
    method CreateBusinessAccount(owner: User, initialBalance: real, monthlyFee: real) returns (a: Account)
      requires owner.role.Business?
      modifies this
      ensures fresh(a) && accounts == old(accounts) + [a] && accountCounter == old(accountCounter) + 1
      ensures a.iban == Iban(AccountKind.Business, old(accountCounter)) && a.kind == AccountKind.Business
      ensures a.owner == owner && a.State() == Opening(initialBalance, monthlyFee)
      ensures old(Valid()) ==> Valid()
    {
      ghost var wasValid, before, counter := Valid(), accounts, accountCounter;
      var iban := NextIban(AccountKind.Business);
      a := new Account.Business(iban, initialBalance, owner, monthlyFee);
      accounts := accounts + [a];
      if wasValid {
        OpeningKeepsDistinct(before, counter, a, AccountKind.Business);
      }
    }

    /** The three-argument createBusinessAccount: the fee is 25.00. */
    method CreateBusinessAccountWithDefaultFee(owner: User, initialBalance: real) returns (a: Account)
      requires owner.role.Business?
      modifies this
      ensures fresh(a) && accounts == old(accounts) + [a] && accountCounter == old(accountCounter) + 1
      ensures a.iban == Iban(AccountKind.Business, old(accountCounter)) && a.kind == AccountKind.Business
      ensures a.owner == owner && a.State() == Opening(initialBalance, Money.DefaultMaintenanceFee)
      ensures old(Valid()) ==> Valid()
    {
      a := CreateBusinessAccount(owner, initialBalance, 25.00);
    }

    /** getAccountsForIndividualUser / getAccountsForBusinessUser: the loop over the list. */
    method AccountsOwnedOfKind(kind: AccountKind, u: User) returns (result: seq<Account>)
      ensures result == OwnedOfKind(accounts, kind, u)
    {
      result := [];
      var i := 0;
      while i < |accounts|
        invariant 0 <= i <= |accounts|
        invariant result == OwnedOfKind(accounts[..i], kind, u)
      {
        var a := accounts[i];
        assert accounts[..i + 1][..i] == accounts[..i];
        if a.kind == kind {
          var owns := a.IsOwner(u);
          if owns {
            result := result + [a];
          }
        }
        i := i + 1;
      }
      assert accounts[..i] == accounts;
    }

    /** getAccountsForCustomer: the dispatch on the customer's variant. */
    method AccountsForCustomer(customer: User) returns (result: seq<Account>)
      ensures result == OwnedBy(accounts, customer)
    {
      if customer.role.Individual? {
        result := AccountsOwnedOfKind(AccountKind.Personal, customer);
      } else if customer.role.Business? {
        result := AccountsOwnedOfKind(AccountKind.Business, customer);
      } else {
        result := [];
      }
    }

    /** getAllPersonalAccounts / getAllBusinessAccounts: the loop over the list. */
    method AccountsOfKind(kind: AccountKind) returns (result: seq<Account>)
      ensures result == OfKind(accounts, kind)
    {
      result := [];
      var i := 0;
      while i < |accounts|
        invariant 0 <= i <= |accounts|
        invariant result == OfKind(accounts[..i], kind)
      {
        assert accounts[..i + 1][..i] == accounts[..i];
        if accounts[i].kind == kind {
          result := result + [accounts[i]];
        }
        i := i + 1;
      }
      assert accounts[..i] == accounts;
    }

    /** userOwnsAccount: isOwner of whichever variant the account is. */
    method UserOwnsAccount(u: User, account: Account) returns (b: bool)
      ensures b == account.HasOwner(u)
    {
      b := account.IsOwner(u);
    }

    /** closeAccount. */
    method CloseAccount(account: Account)
      modifies account
      ensures account.State() == old(account.State()).(status := Closed)
    {
      account.SetStatus(Closed);
    }

    /** freezeAccount. */
    method FreezeAccount(account: Account)
      modifies account
      ensures account.State() == old(account.State()).(status := Frozen)
    {
      account.SetStatus(Frozen);
    }

    /** activateAccount. */
    method ActivateAccount(account: Account)
      modifies account
      ensures account.State() == old(account.State()).(status := Active)
    {
      account.SetStatus(Active);
    }
  }

  /**
   * Opening an account under the counter's current IBAN, then moving the
   * counter on, keeps the IBANs distinct: the shared counter never repeats a value.
   */
  lemma OpeningKeepsDistinct(accounts: seq<Account>, counter: nat, a: Account, kind: AccountKind)
    requires DistinctIbans(accounts) && NoFutureIban(accounts, counter)
    requires a.iban == Iban(kind, counter)
    ensures DistinctIbans(accounts + [a]) && NoFutureIban(accounts + [a], counter + 1)
  {
    forall i, k, n | 0 <= i < |accounts| + 1 && n >= counter + 1
      ensures (accounts + [a])[i].iban != Iban(k, n)
    {
      if i == |accounts| && a.iban == Iban(k, n) {
        IbanInjective(kind, counter, k, n);
      }
    }
  }
}
