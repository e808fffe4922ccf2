/**
 * The bill registry (BillManager): it creates bills with generated ids and RF
 * codes, answers the lookups the payment screens and the standing orders use,
 * and ages every bill on a given day. The lookups are stream filters over the
 * list; here they are one filter, Select, over a criterion, evaluated against
 * the bills' current states.
 */
module BillManagement {
  import opened Wrappers
  import opened Dates
  import opened Users
  import opened Bills
  import Text

  /** "BILL" + String.format("%06d", n). */
  function BillId(n: nat): string {
    "BILL" + Text.ZeroPad(n, 6)
  }

  /** "RF" + String.format("%08d", n). */
  function RfCode(n: nat): string {
    "RF" + Text.ZeroPad(n, 8)
  }

  /** What a lookup keeps. */
  datatype Criterion =
    | OwnedBy(userId: string)                        // getBillsForUser
    | OutstandingOwnedBy(userId: string)             // getUnpaidBillsForUser
    | OutstandingWithRf(rfCode: Option<string>)      // findUnpaidByRfCode
    | OutstandingFromProvider(name: Option<string>)  // findUnpaidByProvider

  /** Every bill of the list has a known state. */
  predicate Covers(st: map<Bill, BillState>, bills: seq<Bill>) {
    forall i :: 0 <= i < |bills| ==> bills[i] in st
  }

  /**
   * Whether a bill passes the criterion. A null RF code or provider name
   * (None) matches nothing, as equals(null) and equalsIgnoreCase(null) are
   * false.
   */
  predicate Matches(c: Criterion, b: Bill, st: map<Bill, BillState>)
    requires b in st
  {
    match c
    case OwnedBy(id) => b.owner.id == id
    case OutstandingOwnedBy(id) => b.owner.id == id && Outstanding(st[b].status)
    case OutstandingWithRf(rf) => rf == Some(b.rfCode) && Outstanding(st[b].status)
    case OutstandingFromProvider(name) =>
      name.Some? && Text.EqualsIgnoreCase(b.providerName, name.value) && Outstanding(st[b].status)
  }

  /** The bills that pass, in list order. */
  function Select(bills: seq<Bill>, st: map<Bill, BillState>, c: Criterion): seq<Bill>
    requires Covers(st, bills)
    decreases |bills|
  {
    if bills == [] then []
    else (if Matches(c, bills[0], st) then [bills[0]] else []) + Select(bills[1..], st, c)
  }

  /**
   * getBillsIssuedByBusiness: the source dereferences every bill's issuer, so
   * a single bill without one makes the whole query throw.
   */
  function IssuedBy(bills: seq<Bill>, businessId: string): Result<seq<Bill>, Exception>
    decreases |bills|
  {
    if bills == [] then Ok([])
    else if bills[0].issuer == null then Err(NullReference)
    else match IssuedBy(bills[1..], businessId)
      case Err(e) => Err(e)
      case Ok(rest) => Ok((if bills[0].issuer.id == businessId then [bills[0]] else []) + rest)
  }

  /** findById: the first bill with the id, or null. */
  function FindById(bills: seq<Bill>, id: string): Option<Bill>
    decreases |bills|
  {
    if bills == [] then None
    else if bills[0].id == id then Some(bills[0])
    else FindById(bills[1..], id)
  }

  /** updateOverdueBills on states: checkAndUpdateOverdue on each bill of the list in turn. */
  function AgedAll(st: map<Bill, BillState>, bills: seq<Bill>, today: Date): (r: map<Bill, BillState>)
    requires Covers(st, bills)
    ensures r.Keys == st.Keys
    decreases |bills|
  {
    if bills == [] then st
    else
      var b := bills[|bills| - 1];
      var m := AgedAll(st, bills[..|bills| - 1], today);
      m[b := Aged(m[b], b.dueDate, today)]
  }

  // -----------------------------------------------------------------------
  // Properties of the lookups and of aging
  // -----------------------------------------------------------------------

  /** A generated bill id is "BILL" and six digits while the counter fits, and reads back as the counter. */
  lemma BillIdFormat(n: nat)
    ensures |BillId(n)| >= 10 && BillId(n)[..4] == "BILL"
    ensures n < 1000000 ==> |BillId(n)| == 10
    ensures Text.DigitsValue(BillId(n)[4..]) == n
  {
    Text.ZeroPadRoundTrip(n, 6);
    assert Text.Pow10(6) == 1000000;
    assert BillId(n)[4..] == Text.ZeroPad(n, 6);
  }

  /** A generated RF code is "RF" and eight digits while the counter fits, and reads back as the counter. */
  lemma RfCodeFormat(n: nat)
    ensures |RfCode(n)| >= 10 && RfCode(n)[..2] == "RF"
    ensures n < 100000000 ==> |RfCode(n)| == 10
    ensures Text.DigitsValue(RfCode(n)[2..]) == n
  {
    Text.ZeroPadRoundTrip(n, 8);
    assert Text.Pow10(8) == 100000000;
    assert RfCode(n)[2..] == Text.ZeroPad(n, 8);
  }

  /** Distinct counter values give distinct ids and distinct RF codes. */
  lemma GeneratedCodesDistinct(a: nat, b: nat)
    requires a != b
    ensures BillId(a) != BillId(b) && RfCode(a) != RfCode(b)
  {
    BillIdFormat(a);
    BillIdFormat(b);
    RfCodeFormat(a);
    RfCodeFormat(b);
  }

  /** A bill is selected exactly when it is in the list and passes. */
  lemma {:induction false} SelectMembers(bills: seq<Bill>, st: map<Bill, BillState>, c: Criterion)
    requires Covers(st, bills)
    ensures forall b :: b in Select(bills, st, c) <==> b in bills && b in st && Matches(c, b, st)
    ensures |Select(bills, st, c)| <= |bills|
    decreases |bills|
  {
    if bills != [] {
      SelectMembers(bills[1..], st, c);
      assert forall b :: b in bills <==> b == bills[0] || b in bills[1..];
    }
  }

  /** The selection read by position: each selected bill is a passing bill of the list, and every passing bill is selected. */
  lemma SelectIndexed(bills: seq<Bill>, st: map<Bill, BillState>, c: Criterion)
    requires Covers(st, bills)
    ensures forall i :: 0 <= i < |Select(bills, st, c)| ==>
      Select(bills, st, c)[i] in bills && Select(bills, st, c)[i] in st && Matches(c, Select(bills, st, c)[i], st)
    ensures forall i :: 0 <= i < |bills| && Matches(c, bills[i], st) ==> bills[i] in Select(bills, st, c)
    ensures |Select(bills, st, c)| <= |bills|
  {
    SelectMembers(bills, st, c);
  }

  /**
   * Selection keeps list order: selecting from a concatenation is the
   * concatenation of the selections.
   */
  lemma {:induction false} SelectConcat(a: seq<Bill>, b: seq<Bill>, st: map<Bill, BillState>, c: Criterion)
    requires Covers(st, a) && Covers(st, b)
    ensures Covers(st, a + b)
    ensures Select(a + b, st, c) == Select(a, st, c) + Select(b, st, c)
    decreases |a|
  {
    assert Covers(st, a + b) by {
      forall i | 0 <= i < |a + b|
        ensures (a + b)[i] in st
      {
        if i >= |a| {
          assert (a + b)[i] == b[i - |a|];
        }
      }
    }
    if a == [] {
      assert a + b == b;
    } else {
      assert (a + b)[0] == a[0];
      assert (a + b)[1..] == a[1..] + b;
      SelectConcat(a[1..], b, st, c);
    }
  }

  /**
   * The RF lookup finds bills by exact code; the provider lookup ignores
   * case and owner; both only ever return UNPAID or OVERDUE bills.
   */
  lemma LookupContract(bills: seq<Bill>, st: map<Bill, BillState>, rf: string, name: string)
    requires Covers(st, bills)
    ensures forall b :: b in Select(bills, st, OutstandingWithRf(Some(rf))) <==>
      b in bills && b.rfCode == rf && Outstanding(st[b].status)
    ensures forall b :: b in Select(bills, st, OutstandingFromProvider(Some(name))) <==>
      b in bills && Text.EqualsIgnoreCase(b.providerName, name) && Outstanding(st[b].status)
    ensures Select(bills, st, OutstandingWithRf(None)) == []
    ensures Select(bills, st, OutstandingFromProvider(None)) == []
  {
    SelectMembers(bills, st, OutstandingWithRf(Some(rf)));
    SelectMembers(bills, st, OutstandingFromProvider(Some(name)));
    SelectNothing(bills, st, OutstandingWithRf(None));
    SelectNothing(bills, st, OutstandingFromProvider(None));
  }

  lemma {:induction false} SelectNothing(bills: seq<Bill>, st: map<Bill, BillState>, c: Criterion)
    requires Covers(st, bills)
    requires forall i :: 0 <= i < |bills| ==> !Matches(c, bills[i], st)
    ensures Select(bills, st, c) == []
    decreases |bills|
  {
    if bills != [] {
      assert forall i :: 1 <= i < |bills| ==> bills[1..][i - 1] == bills[i];
      SelectNothing(bills[1..], st, c);
    }
  }

  /** The issuer query throws exactly when some bill has no issuer, and otherwise keeps that business's bills. */
  lemma {:induction false} IssuedByContract(bills: seq<Bill>, businessId: string)
    ensures IssuedBy(bills, businessId).Err? <==> exists i :: 0 <= i < |bills| && bills[i].issuer == null
    ensures IssuedBy(bills, businessId).Ok? ==>
      forall b :: b in IssuedBy(bills, businessId).value <==> b in bills && b.issuer != null && b.issuer.id == businessId
    decreases |bills|
  {
    if bills != [] {
      IssuedByContract(bills[1..], businessId);
      if bills[0].issuer != null && IssuedBy(bills[1..], businessId).Err? {
        var i :| 0 <= i < |bills[1..]| && bills[1..][i].issuer == null;
        assert bills[i + 1].issuer == null;
      }
      if IssuedBy(bills[1..], businessId).Ok? {
        assert forall i :: 1 <= i < |bills| ==> bills[i] == bills[1..][i - 1];
      }
      assert forall b :: b in bills <==> b == bills[0] || b in bills[1..];
    }
  }

  /** The issuer query read by position. */
  lemma IssuedByIndexed(bills: seq<Bill>, businessId: string)
    ensures IssuedBy(bills, businessId).Err? <==> exists i :: 0 <= i < |bills| && bills[i].issuer == null
    ensures var r := IssuedBy(bills, businessId);
      r.Ok? ==> forall i :: 0 <= i < |r.value| ==>
        r.value[i] in bills && r.value[i].issuer != null && r.value[i].issuer.id == businessId
    ensures var r := IssuedBy(bills, businessId);
      r.Ok? ==> forall i :: 0 <= i < |bills| && bills[i].issuer != null && bills[i].issuer.id == businessId ==>
        bills[i] in r.value
  {
    IssuedByContract(bills, businessId);
    var r := IssuedBy(bills, businessId);
    if r.Ok? {
      assert forall i :: 0 <= i < |r.value| ==> r.value[i] in r.value;
    }
  }

  /** findById returns the first bill with the id, and null exactly when there is none. */
  lemma {:induction false} FindByIdContract(bills: seq<Bill>, id: string)
    ensures FindById(bills, id).None? <==> forall i :: 0 <= i < |bills| ==> bills[i].id != id
    ensures FindById(bills, id).Some? ==>
      exists k :: 0 <= k < |bills| && bills[k] == FindById(bills, id).value && bills[k].id == id &&
        forall j :: 0 <= j < k ==> bills[j].id != id
    decreases |bills|
  {
    if bills != [] && bills[0].id != id {
      FindByIdContract(bills[1..], id);
      if FindById(bills, id).Some? {
        var k :| 0 <= k < |bills[1..]| && bills[1..][k] == FindById(bills, id).value && bills[1..][k].id == id &&
          forall j :: 0 <= j < k ==> bills[1..][j].id != id;
        assert forall j :: 1 <= j < k + 1 ==> bills[j] == bills[1..][j - 1];
        assert bills[k + 1] == bills[1..][k];
      } else {
        assert forall i :: 1 <= i < |bills| ==> bills[i] == bills[1..][i - 1];
      }
    }
  }

  /**
   * updateOverdueBills ages each listed bill once, whatever repeats the list
   * has, and leaves every other bill alone.
   */
  lemma {:induction false} AgedAllPointwise(st: map<Bill, BillState>, bills: seq<Bill>, today: Date)
    requires Covers(st, bills)
    ensures AgedAll(st, bills, today).Keys == st.Keys
    ensures forall b :: b in st ==>
      AgedAll(st, bills, today)[b] == if b in bills then Aged(st[b], b.dueDate, today) else st[b]
    decreases |bills|
  {
    if bills != [] {
      var init := bills[..|bills| - 1];
      var last := bills[|bills| - 1];
      AgedAllPointwise(st, init, today);
      assert forall b :: b in bills <==> b in init || b == last;
      forall b | b in st
        ensures AgedAll(st, bills, today)[b] == if b in bills then Aged(st[b], b.dueDate, today) else st[b]
      {
        if b == last {
          AgingContract(st[b], b.dueDate, today);
        }
      }
    }
  }

  /**
   * After aging on d, no listed bill is still UNPAID with its due date before
   * d, and every bill that was not UNPAID keeps its state.
   */
  lemma AgedAllContract(st: map<Bill, BillState>, bills: seq<Bill>, today: Date)
    requires Covers(st, bills)
    ensures forall i :: 0 <= i < |bills| ==>
      !(AgedAll(st, bills, today)[bills[i]].status == Unpaid && IsAfter(today, bills[i].dueDate))
    ensures forall b :: b in st && st[b].status != Unpaid ==> AgedAll(st, bills, today)[b] == st[b]
  {
    AgedAllPointwise(st, bills, today);
    forall i | 0 <= i < |bills|
      ensures !(AgedAll(st, bills, today)[bills[i]].status == Unpaid && IsAfter(today, bills[i].dueDate))
    {
      AgingContract(st[bills[i]], bills[i].dueDate, today);
    }
  }

  // -----------------------------------------------------------------------
  // The manager on the heap
  // -----------------------------------------------------------------------

  class BillManager {
    var bills: seq<Bill>
    var billIdCounter: nat
    var rfCodeCounter: nat

    /** The current state of every listed bill. */
    ghost function States(): map<Bill, BillState>
      reads this, set b | b in bills
    {
      BillMap(set b | b in bills)
    }

    /** new BillManager(): ids from 1, RF codes from 1000. */
    constructor()
      ensures bills == [] && billIdCounter == 1 && rfCodeCounter == 1000
    {
      bills := [];
      billIdCounter := 1;
      rfCodeCounter := 1000;
    }

    /** new BillManager(list): both counters continue after the list's size. */
    constructor FromList(bills: seq<Bill>)
      ensures this.bills == bills && billIdCounter == |bills| + 1 && rfCodeCounter == 1000 + |bills|
    {
      this.bills := bills;
      billIdCounter := |bills| + 1;
      rfCodeCounter := 1000 + |bills|;
    }

    /**
     * createBill: the id takes the id counter; the RF code is the given one,
     * and only a missing one takes (and bumps) the RF counter.
     */
    method CreateBill(owner: User, issuer: User?, providerName: string, amount: real,
                      dueDate: Date, rfCode: Option<string>) returns (bill: Bill)
      modifies this
      ensures fresh(bill) && bills == old(bills) + [bill]
      ensures bill.id == BillId(old(billIdCounter)) && billIdCounter == old(billIdCounter) + 1
      ensures rfCode.Some? ==> bill.rfCode == rfCode.value && rfCodeCounter == old(rfCodeCounter)
      ensures rfCode.None? ==> bill.rfCode == RfCode(old(rfCodeCounter)) && rfCodeCounter == old(rfCodeCounter) + 1
      ensures bill.owner == owner && bill.issuer == issuer && bill.providerName == providerName
      ensures bill.amount == amount && bill.dueDate == dueDate
      ensures bill.State() == BillState(Unpaid, None)
    {
      var id := BillId(billIdCounter);
      billIdCounter := billIdCounter + 1;
      var rf;
      if rfCode.Some? {
        rf := rfCode.value;
      } else {
        rf := RfCode(rfCodeCounter);
        rfCodeCounter := rfCodeCounter + 1;
      }
      bill := new Bill(id, providerName, amount, dueDate, rf, owner, issuer);
      bills := bills + [bill];
    }

    /** The five-argument createBill: the RF code is always generated. */
    method CreateBillWithGeneratedRf(owner: User, issuer: User?, providerName: string, amount: real,
                                     dueDate: Date) returns (bill: Bill)
      modifies this
      ensures fresh(bill) && bills == old(bills) + [bill]
      ensures bill.id == BillId(old(billIdCounter)) && billIdCounter == old(billIdCounter) + 1
      ensures bill.rfCode == RfCode(old(rfCodeCounter)) && rfCodeCounter == old(rfCodeCounter) + 1
      ensures bill.owner == owner && bill.issuer == issuer && bill.providerName == providerName
      ensures bill.amount == amount && bill.dueDate == dueDate
      ensures bill.State() == BillState(Unpaid, None)
    {
      bill := CreateBill(owner, issuer, providerName, amount, dueDate, None);
    }

    /** getUnpaidBillsForUser: the user's UNPAID and OVERDUE bills, in list order. */
    function UnpaidBillsForUser(user: User): (r: seq<Bill>)
      reads this, set b | b in bills
      ensures forall i :: 0 <= i < |r| ==> r[i] in bills && r[i].owner.id == user.id && Outstanding(r[i].status)
      ensures forall i :: 0 <= i < |bills| && bills[i].owner.id == user.id && Outstanding(bills[i].status) ==> bills[i] in r
      ensures |r| <= |bills|
    {
      var st := BillMap(set b | b in bills);
      var sel := Select(bills, st, OutstandingOwnedBy(user.id));
      SelectIndexed(bills, st, OutstandingOwnedBy(user.id));
      assert forall i :: 0 <= i < |bills| ==> st[bills[i]].status == bills[i].status;
      assert forall i :: 0 <= i < |sel| ==> st[sel[i]].status == sel[i].status;
      sel
    }

    /** getBillsForUser: every bill the user owns, in list order. */
    function BillsForUser(user: User): (r: seq<Bill>)
      reads this, set b | b in bills
      ensures forall i :: 0 <= i < |r| ==> r[i] in bills && r[i].owner.id == user.id
      ensures forall i :: 0 <= i < |bills| && bills[i].owner.id == user.id ==> bills[i] in r
      ensures |r| <= |bills|
    {
      var st := BillMap(set b | b in bills);
      var sel := Select(bills, st, OwnedBy(user.id));
      SelectIndexed(bills, st, OwnedBy(user.id));
      assert forall i :: 0 <= i < |bills| ==> st[bills[i]].status == bills[i].status;
      assert forall i :: 0 <= i < |sel| ==> st[sel[i]].status == sel[i].status;
      sel
    }

    /** getBillsIssuedByBusiness: that business's bills, or a throw when some bill has no issuer. */
    function BillsIssuedByBusiness(business: User): (r: Result<seq<Bill>, Exception>)
      reads this
      ensures r.Err? <==> exists i :: 0 <= i < |bills| && bills[i].issuer == null
      ensures r.Ok? ==> forall i :: 0 <= i < |r.value| ==>
        r.value[i] in bills && r.value[i].issuer != null && r.value[i].issuer.id == business.id
      ensures r.Ok? ==> forall i :: 0 <= i < |bills| && bills[i].issuer != null && bills[i].issuer.id == business.id ==>
        bills[i] in r.value
    {
      IssuedByIndexed(bills, business.id);
      IssuedBy(bills, business.id)
    }

    /** findById: the first bill with the id, or null when no bill has it. */
    function FindBill(id: string): (r: Option<Bill>)
      reads this
      ensures r.None? <==> forall i :: 0 <= i < |bills| ==> bills[i].id != id
      ensures r.Some? ==> r.value in bills && r.value.id == id
    {
      FindByIdContract(bills, id);
      FindById(bills, id)
    }

    /** findUnpaidByRfCode: the outstanding bills with exactly that code; a null code finds none. */
    function UnpaidByRfCode(rfCode: Option<string>): (r: seq<Bill>)
      reads this, set b | b in bills
      ensures rfCode.None? ==> r == []
      ensures forall i :: 0 <= i < |r| ==> r[i] in bills && Some(r[i].rfCode) == rfCode && Outstanding(r[i].status)
      ensures forall i :: 0 <= i < |bills| && Some(bills[i].rfCode) == rfCode && Outstanding(bills[i].status) ==> bills[i] in r
    {
      var st := BillMap(set b | b in bills);
      var sel := Select(bills, st, OutstandingWithRf(rfCode));
      SelectIndexed(bills, st, OutstandingWithRf(rfCode));
      assert rfCode.None? ==> sel == [] by {
        if rfCode.None? {
          SelectNothing(bills, st, OutstandingWithRf(rfCode));
        }
      }
      assert forall i :: 0 <= i < |bills| ==> st[bills[i]].status == bills[i].status;
      assert forall i :: 0 <= i < |sel| ==> st[sel[i]].status == sel[i].status;
      sel
    }

    /** findUnpaidByProvider: the outstanding bills whose provider matches ignoring case; null finds none. */
    function UnpaidByProvider(providerName: Option<string>): (r: seq<Bill>)
      reads this, set b | b in bills
      ensures providerName.None? ==> r == []
      ensures forall i :: 0 <= i < |r| ==>
        (providerName.Some? && r[i] in bills &&
         Text.EqualsIgnoreCase(r[i].providerName, providerName.value) && Outstanding(r[i].status))
      ensures forall i ::
        (0 <= i < |bills| && providerName.Some? &&
         Text.EqualsIgnoreCase(bills[i].providerName, providerName.value) && Outstanding(bills[i].status)) ==>
        bills[i] in r
    {
      var st := BillMap(set b | b in bills);
      var sel := Select(bills, st, OutstandingFromProvider(providerName));
      SelectIndexed(bills, st, OutstandingFromProvider(providerName));
      assert providerName.None? ==> sel == [] by {
        if providerName.None? {
          SelectNothing(bills, st, OutstandingFromProvider(providerName));
        }
      }
      assert forall i :: 0 <= i < |bills| ==> st[bills[i]].status == bills[i].status;
      assert forall i :: 0 <= i < |sel| ==> st[sel[i]].status == sel[i].status;
      sel
    }

    /** markBillAsPaid. */
    method MarkBillAsPaid(bill: Bill, at: DateTime)
      modifies bill
      ensures bill.State() == MarkedPaid(old(bill.State()), at)
    {
      bill.MarkAsPaid(at);
    }

    /** updateOverdueBills: checkAndUpdateOverdue on every bill, in list order. */
    method UpdateOverdueBills(today: Date)
      modifies set b | b in bills
      ensures States() == AgedAll(old(States()), bills, today)
    {
      ghost var E := set b | b in bills;
      ghost var m0 := BillMap(E);
      var i := 0;
      while i < |bills|
        invariant 0 <= i <= |bills|
        invariant Covers(m0, bills)
        invariant BillMap(E) == AgedAll(m0, bills[..i], today)
      {
        var b := bills[i];
        assert bills[..i + 1][..i] == bills[..i];
        ghost var m := BillMap(E);
        b.CheckAndUpdateOverdue(today);
        assert BillMap(E) == m[b := b.State()];
        i := i + 1;
      }
      assert bills[..i] == bills;
    }
  }
}
