/**
 * BillBuilder: a bill assembled field by field, checked, given an id and an RF
 * code when it has none, and turned into a Bill by build. The id and RF
 * counters are static in the source and shared by every builder; here they
 * are one BillNumbering object that build is given.
 */
module BillBuilding {
  import opened Wrappers
  import opened Dates
  import opened Users
  import opened Bills
  import BillManagement

  /** The fields of a builder; a null field is None (null for the users). */
  datatype BillDraft = BillDraft(
    id: Option<string>,
    providerName: Option<string>,
    amount: Option<real>,
    dueDate: Option<Date>,
    status: BillStatus,
    paidDate: Option<DateTime>,
    rfCode: Option<string>,
    owner: User?,
    issuer: User?)

  /** A new or reset builder: UNPAID and due thirty days after `today`, the clock's date. */
  function FreshDraft(today: Date): BillDraft {
    BillDraft(None, None, None, Some(PlusDays(today, 30)), Unpaid, None, None, null, null)
  }

  /** A string field that is null or empty. */
  predicate Missing(s: Option<string>) {
    s.None? || s.value == ""
  }

  /** validate: the first required field that is absent, if any. */
  function Refusal(d: BillDraft): Option<Exception> {
    if d.amount.None? || d.amount.value <= 0.0 then Some(IllegalState("Bill amount must be positive"))
    else if Missing(d.providerName) then Some(IllegalState("Provider name is required"))
    else if d.owner == null then Some(IllegalState("Bill owner (customer) is required"))
    else if d.dueDate.None? then Some(IllegalState("Due date is required"))
    else None
  }

  /** The values of the two shared counters. */
  datatype Counters = Counters(idCounter: nat, rfCounter: nat)

  /**
   * The id and RF steps of build: a missing id becomes BILL + the id counter
   * and a missing RF code RF + the RF counter, each bumping only its counter;
   * the builder keeps what it was given.
   */
  function Numbered(d: BillDraft, c: Counters): (BillDraft, Counters) {
    var (d1, c1) :=
      if Missing(d.id) then (d.(id := Some(BillManagement.BillId(c.idCounter))), c.(idCounter := c.idCounter + 1))
      else (d, c);
    if Missing(d1.rfCode) then (d1.(rfCode := Some(BillManagement.RfCode(c1.rfCounter))), c1.(rfCounter := c1.rfCounter + 1))
    else (d1, c1)
  }

  /** issuedBy: the issuer, and its business name as provider unless a provider is set. */
  function IssuedBy(d: BillDraft, issuer: User): BillDraft
    requires issuer.role.Business?
  {
    d.(issuer := issuer, providerName := if Missing(d.providerName) then Some(issuer.role.businessName) else d.providerName)
  }

  /** asUtilityBill. */
  function AsUtilityBill(d: BillDraft, utilityType: string, amount: Option<real>): BillDraft {
    d.(providerName := Some(utilityType + " Provider"), amount := amount)
  }

  /** asInvoice: the business is issuer and provider, whatever was set before. */
  function AsInvoice(d: BillDraft, business: User, amount: Option<real>): BillDraft
    requires business.role.Business?
  {
    d.(issuer := business, providerName := Some(business.role.businessName), amount := amount)
  }

  /** The static rfCounter and idCounter of the builder class. */
  class BillNumbering {
    var idCounter: nat
    var rfCounter: nat

    constructor()
      ensures idCounter == 1 && rfCounter == 1
    {
      idCounter := 1;
      rfCounter := 1;
    }

    function Values(): Counters
      reads this
    {
      Counters(idCounter, rfCounter)
    }

    /** setIdCounter. */
    method SetIdCounter(counter: nat)
      modifies this
      ensures Values() == old(Values()).(idCounter := counter)
    {
      idCounter := counter;
    }

    /** setRfCounter. */
    method SetRfCounter(counter: nat)
      modifies this
      ensures Values() == old(Values()).(rfCounter := counter)
    {
      rfCounter := counter;
    }
  }

  /** A bill holds what the draft holds, status and paid date included. */
  predicate Carries(bill: Bill, d: BillDraft)
    reads bill
  {
    Some(bill.id) == d.id && Some(bill.providerName) == d.providerName && Some(bill.amount) == d.amount &&
    Some(bill.dueDate) == d.dueDate && Some(bill.rfCode) == d.rfCode && bill.owner == d.owner &&
    bill.issuer == d.issuer && bill.State() == BillState(d.status, d.paidDate)
  }

  class BillBuilder {
    var id: Option<string>
    var providerName: Option<string>
    var amount: Option<real>
    var dueDate: Option<Date>
    var status: BillStatus
    var paidDate: Option<DateTime>
    var rfCode: Option<string>
    var owner: User?
    var issuer: User?

    function Draft(): BillDraft
      reads this
    {
      BillDraft(id, providerName, amount, dueDate, status, paidDate, rfCode, owner, issuer)
    }

    constructor(today: Date)
      ensures Draft() == FreshDraft(today)
    {
      id := None;
      providerName := None;
      amount := None;
      dueDate := Some(PlusDays(today, 30));
      status := Unpaid;
      paidDate := None;
      rfCode := None;
      owner := null;
      issuer := null;
    }

    method WithId(id: Option<string>)
      modifies this
      ensures Draft() == old(Draft()).(id := id)
    {
      this.id := id;
    }

    method WithProviderName(providerName: Option<string>)
      modifies this
      ensures Draft() == old(Draft()).(providerName := providerName)
    {
      this.providerName := providerName;
    }

    method WithAmount(amount: Option<real>)
      modifies this
      ensures Draft() == old(Draft()).(amount := amount)
    {
      this.amount := amount;
    }

    method WithDueDate(dueDate: Option<Date>)
      modifies this
      ensures Draft() == old(Draft()).(dueDate := dueDate)
    {
      this.dueDate := dueDate;
    }

    /** withDueDateInDays, counted from `today`; a negative count dates the bill in the past. */
    method WithDueDateInDays(today: Date, days: int)
      modifies this
      ensures Draft() == old(Draft()).(dueDate := Some(PlusDays(today, days)))
    {
      dueDate := Some(PlusDays(today, days));
    }

    method WithStatus(status: BillStatus)
      modifies this
      ensures Draft() == old(Draft()).(status := status)
    {
      this.status := status;
    }

    method WithPaidDate(paidDate: Option<DateTime>)
      modifies this
      ensures Draft() == old(Draft()).(paidDate := paidDate)
    {
      this.paidDate := paidDate;
    }

    method WithRfCode(rfCode: Option<string>)
      modifies this
      ensures Draft() == old(Draft()).(rfCode := rfCode)
    {
      this.rfCode := rfCode;
    }

    /** forCustomer: the parameter is an IndividualUser. */
    method ForCustomer(owner: User?)
      requires owner != null ==> owner.role.Individual?
      modifies this
      ensures Draft() == old(Draft()).(owner := owner)
    {
      this.owner := owner;
    }

    method SetIssuer(issuer: User)
      requires issuer.role.Business?
      modifies this
      ensures Draft() == IssuedBy(old(Draft()), issuer)
    {
      this.issuer := issuer;
      if providerName.None? || providerName.value == "" {
        providerName := Some(issuer.role.businessName);
      }
    }

    method SetUtilityBill(utilityType: string, amount: Option<real>)
      modifies this
      ensures Draft() == AsUtilityBill(old(Draft()), utilityType, amount)
    {
      providerName := Some(utilityType + " Provider");
      this.amount := amount;
    }

    method SetInvoice(business: User, amount: Option<real>)
      requires business.role.Business?
      modifies this
      ensures Draft() == AsInvoice(old(Draft()), business, amount)
    {
      issuer := business;
      providerName := Some(business.role.businessName);
      this.amount := amount;
    }

    /**
     * build: a draft validate refuses changes nothing and draws no number;
     * otherwise the missing codes are drawn and stored in the builder, and
     * the new bill carries the numbered draft.
     */
    method Build(numbering: BillNumbering) returns (r: Result<Bill, Exception>)
      modifies this, numbering
      ensures Refusal(old(Draft())).Some? ==>
        r == Err(Refusal(old(Draft())).value) &&
        Draft() == old(Draft()) && numbering.Values() == old(numbering.Values())
      ensures Refusal(old(Draft())).None? ==>
        (Draft(), numbering.Values()) == Numbered(old(Draft()), old(numbering.Values())) &&
        r.Ok? && fresh(r.value) && Carries(r.value, Draft())
    {
      if amount.None? || amount.value <= 0.0 {
        return Err(IllegalState("Bill amount must be positive"));
      }
      if providerName.None? || providerName.value == "" {
        return Err(IllegalState("Provider name is required"));
      }
      if owner == null {
        return Err(IllegalState("Bill owner (customer) is required"));
      }
      if dueDate.None? {
        return Err(IllegalState("Due date is required"));
      }
      DrawCodes(numbering);
      NumberedContract(old(Draft()), old(numbering.Values()));
      var bill := new Bill(id.value, providerName.value, amount.value, dueDate.value, rfCode.value, owner, issuer);
      bill.SetStatus(status);
      if paidDate.Some? {
        bill.SetPaidDate(paidDate);
      }
      r := Ok(bill);
    }

    /** The id and RF steps of build. */
    method DrawCodes(numbering: BillNumbering)
      modifies this, numbering
      ensures (Draft(), numbering.Values()) == Numbered(old(Draft()), old(numbering.Values()))
    {
      if id.None? || id.value == "" {
        id := Some(BillManagement.BillId(numbering.idCounter));
        numbering.idCounter := numbering.idCounter + 1;
      }
      if rfCode.None? || rfCode.value == "" {
        rfCode := Some(BillManagement.RfCode(numbering.rfCounter));
        numbering.rfCounter := numbering.rfCounter + 1;
      }
    }

    /** reset: every field back to its default, due thirty days after `today`. */
    method Reset(today: Date)
      modifies this
      ensures Draft() == FreshDraft(today)
    {
      id := None;
      providerName := None;
      amount := None;
      dueDate := Some(PlusDays(today, 30));
      status := Unpaid;
      paidDate := None;
      rfCode := None;
      owner := null;
      issuer := null;
    }
  }

  // -----------------------------------------------------------------------
  // Properties
  // -----------------------------------------------------------------------

  /**
   * validate accepts exactly a positive amount, a non-empty provider, an
   * owner and a due date, and reports the first missing one in that order.
   */
  lemma RefusalContract(d: BillDraft)
    ensures Refusal(d).None? <==>
      d.amount.Some? && d.amount.value > 0.0 && !Missing(d.providerName) && d.owner != null && d.dueDate.Some?
    ensures d.amount.None? || d.amount.value <= 0.0 ==>
      Refusal(d) == Some(IllegalState("Bill amount must be positive"))
    ensures d.amount.Some? && d.amount.value > 0.0 && Missing(d.providerName) ==>
      Refusal(d) == Some(IllegalState("Provider name is required"))
    ensures d.amount.Some? && d.amount.value > 0.0 && !Missing(d.providerName) && d.owner == null ==>
      Refusal(d) == Some(IllegalState("Bill owner (customer) is required"))
    ensures d.amount.Some? && d.amount.value > 0.0 && !Missing(d.providerName) && d.owner != null &&
            d.dueDate.None? ==>
      Refusal(d) == Some(IllegalState("Due date is required"))
  {
  }

  /**
   * Numbering fills exactly the missing codes: a given id or RF code is kept
   * and its counter stays, a missing one is drawn from its counter, which
   * moves by one; no other field changes, and afterwards neither is missing.
   */
  lemma NumberedContract(d: BillDraft, c: Counters)
    ensures var (d', c') := Numbered(d, c);
      !Missing(d'.id) && !Missing(d'.rfCode) && d'.(id := d.id, rfCode := d.rfCode) == d &&
      (Missing(d.id) ==> d'.id == Some(BillManagement.BillId(c.idCounter)) && c'.idCounter == c.idCounter + 1) &&
      (!Missing(d.id) ==> d'.id == d.id && c'.idCounter == c.idCounter) &&
      (Missing(d.rfCode) ==> d'.rfCode == Some(BillManagement.RfCode(c.rfCounter)) && c'.rfCounter == c.rfCounter + 1) &&
      (!Missing(d.rfCode) ==> d'.rfCode == d.rfCode && c'.rfCounter == c.rfCounter)
  {
  }

  /**
   * The drawn codes stay in the builder: building again without a reset
   * draws nothing and gives the next bill the same id and RF code.
   */
  lemma NumberedOnce(d: BillDraft, c: Counters, c2: Counters)
    ensures Numbered(Numbered(d, c).0, c2) == (Numbered(d, c).0, c2)
  {
    NumberedContract(d, c);
  }

  /**
   * issuedBy fills the provider from the business name only when none is
   * set; asInvoice always replaces it. Both record the issuer.
   */
  lemma IssuerContract(d: BillDraft, business: User, amount: Option<real>)
    requires business.role.Business?
    ensures IssuedBy(d, business).issuer == business && AsInvoice(d, business, amount).issuer == business
    ensures Missing(d.providerName) ==> IssuedBy(d, business).providerName == Some(business.role.businessName)
    ensures !Missing(d.providerName) ==> IssuedBy(d, business).providerName == d.providerName
    ensures AsInvoice(d, business, amount).providerName == Some(business.role.businessName)
    ensures AsInvoice(d, business, amount).amount == amount
  {
  }

  /**
   * A new builder is UNPAID, has no paid date and is due in thirty days,
   * and build refuses it for want of an amount.
   */
  lemma FreshDraftDefaults(today: Date)
    ensures var d := FreshDraft(today);
      d.status == Unpaid && d.paidDate.None? && d.dueDate == Some(PlusDays(today, 30)) &&
      d.id.None? && d.rfCode.None? && d.owner == null && d.issuer == null
    ensures Refusal(FreshDraft(today)) == Some(IllegalState("Bill amount must be positive"))
  {
  }

  /**
   * withDueDateInDays(n) puts the due date n days from today, before it for a
   * negative n; an UNPAID bill due that way is overdue today exactly when n
   * is negative.
   */
  lemma DueInDaysContract(today: Date, days: int, s: BillState)
    requires s.status == Unpaid
    ensures DayNumber(PlusDays(today, days)) == DayNumber(today) + days
    ensures OverdueOn(s, PlusDays(today, days), today) <==> days < 0
  {
    PlusDaysNumber(today, days);
    OverdueByDayNumber(s, PlusDays(today, days), today);
  }
}
