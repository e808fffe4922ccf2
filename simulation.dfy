/**
 * The day-stepping simulation of BankSystem.simulateTimePassing, on values:
 * each day accrues interest on the ACTIVE accounts, on a month boundary or
 * on the target day realises interest and charges business fees, then runs
 * the due standing orders and ages the bills.
 */
module Simulation {
  import opened Wrappers
  import opened Dates
  import opened Accounts
  import opened Transactions
  import opened Ledger
  import opened Bills
  import opened BillManagement
  import opened StandingOrders
  import opened StandingOrderManagement
  import AccountManagement

  /** Every account of the list has a known state. */
  predicate Listed(m: map<Account, AccountState>, accounts: seq<Account>) {
    forall i :: 0 <= i < |accounts| ==> accounts[i] in m
  }

  predicate Distinct(accounts: seq<Account>) {
    forall i, j :: 0 <= i < j < |accounts| ==> accounts[i] != accounts[j]
  }

  /** The accrual loop: accrueInterest on each ACTIVE account, in list order. */
  function AccrueAll(m: map<Account, AccountState>, accounts: seq<Account>): (r: map<Account, AccountState>)
    requires Listed(m, accounts)
    ensures r.Keys == m.Keys
    decreases |accounts|
  {
    if accounts == [] then m
    else
      var a := accounts[|accounts| - 1];
      var r := AccrueAll(m, accounts[..|accounts| - 1]);
      if r[a].status == AccountStatus.Active then r[a := Accrued(r[a])] else r
  }

  /** The interest loop: applyMonthlyInterest on each ACTIVE account, recorded when positive. */
  function InterestPhase(b: Books, accounts: seq<Account>): (r: Books)
    requires Listed(b.acc, accounts)
    ensures r.acc.Keys == b.acc.Keys
    decreases |accounts|
  {
    if accounts == [] then b
    else
      var a := accounts[|accounts| - 1];
      var r := InterestPhase(b, accounts[..|accounts| - 1]);
      if r.acc[a].status != AccountStatus.Active then r
      else
        var (s, interest) := InterestApplied(r.acc[a]);
        var r' := r.(acc := r.acc[a := s]);
        if interest > 0.0 then RecordInterestOp(r', a, interest, Some("Monthly interest")).0 else r'
  }

  /** The fee loop: applyMaintenanceFee on each ACTIVE business account, recorded when positive. */
  function FeePhase(b: Books, business: seq<Account>): (r: Books)
    requires Listed(b.acc, business)
    ensures r.acc.Keys == b.acc.Keys
    decreases |business|
  {
    if business == [] then b
    else
      var a := business[|business| - 1];
      var r := FeePhase(b, business[..|business| - 1]);
      if r.acc[a].status != AccountStatus.Active then r
      else
        var (s, fee) := FeeApplied(r.acc[a]);
        var r' := r.(acc := r.acc[a := s]);
        if fee > 0.0 then RecordMaintenanceFeeOp(r', a, fee).0 else r'
  }

  /** The month-end block runs when tomorrow is in another month, or today is the target. */
  predicate MonthEnds(today: Date, target: Date) {
    NextDay(today).month != today.month || today == target
  }

  /** The month-end block: interest on every listed account, then fees on the business ones. */
  function MonthEnd(b: Books, accounts: seq<Account>): (r: Books)
    requires Listed(b.acc, accounts)
    ensures r.acc.Keys == b.acc.Keys
  {
    var b1 := InterestPhase(b, accounts);
    AccountManagement.OfKindContract(accounts, AccountKind.Business);
    var business := AccountManagement.OfKind(accounts, AccountKind.Business);
    assert forall i :: 0 <= i < |business| ==> business[i] in accounts;
    FeePhase(b1, business)
  }

  /** The first half of a day: accrual, then the month-end block when it is due. */
  function BooksDay(w: World, accounts: seq<Account>, today: Date, target: Date): (r: World)
    requires Listed(w.books.acc, accounts)
    ensures SameKeys(w, r) && r.bills == w.bills && r.orders == w.orders
  {
    var b1 := w.books.(acc := AccrueAll(w.books.acc, accounts));
    w.(books := if MonthEnds(today, target) then MonthEnd(b1, accounts) else b1)
  }

  /** The second half of a day: the due standing orders, then the aging of the bills. */
  function ScheduleDay(w: World, orders: seq<StandingOrder>, bills: seq<Bill>, today: Date): (r: World)
    requires Fits(w, orders, bills)
    ensures SameKeys(w, r)
  {
    var w3 := ExecuteDue(w, orders, bills, today).0;
    CoversKept(w.bills, w3.bills, bills);
    w3.(bills := AgedAll(w3.bills, bills, today))
  }

  /** One day of the loop, with the shared lists and the target date. */
  function DayStep(w: World, accounts: seq<Account>, orders: seq<StandingOrder>, bills: seq<Bill>,
                   today: Date, target: Date): (r: World)
    requires Listed(w.books.acc, accounts) && Fits(w, orders, bills)
    ensures SameKeys(w, r)
  {
    var w2 := BooksDay(w, accounts, today, target);
    FitsKept(w, w2, orders);
    ScheduleDay(w2, orders, bills, today)
  }

  /** The world keeps its keys, so the lists stay known for the next day. */
  lemma KnownKept(w: World, w': World, accounts: seq<Account>, orders: seq<StandingOrder>, bills: seq<Bill>)
    requires SameKeys(w, w') && Listed(w.books.acc, accounts) && Fits(w, orders, bills)
    ensures Listed(w'.books.acc, accounts) && Fits(w', orders, bills)
  {
    FitsKept(w, w', orders);
    CoversKept(w.bills, w'.bills, bills);
    forall i | 0 <= i < |accounts|
      ensures accounts[i] in w'.books.acc
    {
      assert accounts[i] in w.books.acc.Keys;
    }
  }

  /** The while loop: every day from d while d is not after the target. */
  function ProcessDays(w: World, accounts: seq<Account>, orders: seq<StandingOrder>, bills: seq<Bill>,
                       d: Date, target: Date): (r: World)
    requires Listed(w.books.acc, accounts) && Fits(w, orders, bills)
    ensures SameKeys(w, r)
    decreases DayNumber(target) - DayNumber(d) + 1
  {
    if IsAfter(d, target) then w
    else
      DayNumberOrder(target, d);
      NextDayNumber(d);
      var w1 := DayStep(w, accounts, orders, bills, d, target);
      KnownKept(w, w1, accounts, orders, bills);
      ProcessDays(w1, accounts, orders, bills, NextDay(d), target)
  }

  /**
   * The loop invariant of simulateTimePassing: both worlds fit the lists, and
   * running on from w at d ends where running from w0 at d0 ends.
   */
  predicate OnTrack(w0: World, d0: Date, w: World, d: Date, accounts: seq<Account>, orders: seq<StandingOrder>,
                    bills: seq<Bill>, target: Date) {
    Listed(w0.books.acc, accounts) && Fits(w0, orders, bills) && Listed(w.books.acc, accounts) && Fits(w, orders, bills) &&
    ProcessDays(w, accounts, orders, bills, d, target) == ProcessDays(w0, accounts, orders, bills, d0, target)
  }

  /** One turn of the while loop keeps the run on track and brings the date closer to the target. */
  lemma OnTrackStep(w0: World, d0: Date, w: World, d: Date, accounts: seq<Account>, orders: seq<StandingOrder>,
                    bills: seq<Bill>, target: Date)
    requires OnTrack(w0, d0, w, d, accounts, orders, bills, target) && !IsAfter(d, target)
    ensures OnTrack(w0, d0, DayStep(w, accounts, orders, bills, d, target), NextDay(d), accounts, orders, bills, target)
    ensures 0 <= DayNumber(target) - DayNumber(NextDay(d)) + 1 < DayNumber(target) - DayNumber(d) + 1
  {
    DayNumberOrder(target, d);
    NextDayNumber(d);
    KnownKept(w, DayStep(w, accounts, orders, bills, d, target), accounts, orders, bills);
  }

  /** Once the date has passed the target, the world on track is the end of the run. */
  lemma OnTrackDone(w0: World, d0: Date, w: World, d: Date, accounts: seq<Account>, orders: seq<StandingOrder>,
                    bills: seq<Bill>, target: Date)
    requires OnTrack(w0, d0, w, d, accounts, orders, bills, target) && IsAfter(d, target)
    ensures w == ProcessDays(w0, accounts, orders, bills, d0, target)
  {
  }

  /** simulateTimePassing: a target before the current date throws; otherwise the days run and the date becomes the target. */
  function Simulated(w: World, accounts: seq<Account>, orders: seq<StandingOrder>, bills: seq<Bill>,
                     current: Date, target: Date): Result<(World, Date), Exception>
    requires Listed(w.books.acc, accounts) && Fits(w, orders, bills)
  {
    if IsBefore(target, current) then Err(IllegalArgument("Cannot simulate backwards in time"))
    else Ok((ProcessDays(w, accounts, orders, bills, current, target), target))
  }

  /** The dates the loop processes, in order. */
  function Trace(d: Date, target: Date): seq<Date>
    decreases DayNumber(target) - DayNumber(d) + 1
  {
    if IsAfter(d, target) then []
    else
      DayNumberOrder(target, d);
      NextDayNumber(d);
      [d] + Trace(NextDay(d), target)
  }

  /** Day steps over a list of dates, all towards one target. */
  function StepAll(w: World, accounts: seq<Account>, orders: seq<StandingOrder>, bills: seq<Bill>,
                   days: seq<Date>, target: Date): (r: World)
    requires Listed(w.books.acc, accounts) && Fits(w, orders, bills)
    ensures SameKeys(w, r)
    decreases |days|
  {
    if days == [] then w
    else
      var w1 := DayStep(w, accounts, orders, bills, days[0], target);
      KnownKept(w, w1, accounts, orders, bills);
      StepAll(w1, accounts, orders, bills, days[1..], target)
  }

  // -----------------------------------------------------------------------
  // Properties of the calendar walk
  // -----------------------------------------------------------------------

  /**
   * The loop processes the days from d through the target inclusive, one
   * after another: (target − d) + 1 of them, the first d and the last the
   * target; none when d is after the target.
   */
  lemma {:induction false} TraceShape(d: Date, target: Date)
    ensures IsAfter(d, target) ==> Trace(d, target) == []
    ensures !IsAfter(d, target) ==> |Trace(d, target)| == DayNumber(target) - DayNumber(d) + 1
    ensures forall i :: 0 <= i < |Trace(d, target)| ==> DayNumber(Trace(d, target)[i]) == DayNumber(d) + i
    ensures !IsAfter(d, target) ==> Trace(d, target)[0] == d && Trace(d, target)[|Trace(d, target)| - 1] == target
    decreases DayNumber(target) - DayNumber(d) + 1
  {
    DayNumberOrder(target, d);
    if !IsAfter(d, target) {
      NextDayNumber(d);
      var rest := Trace(NextDay(d), target);
      TraceShape(NextDay(d), target);
      assert Trace(d, target) == [d] + rest;
      if rest == [] {
        DayNumberOrder(target, NextDay(d));
        DayNumberInjective(d, target);
      }
    }
  }

  /** The loop is exactly the day steps over the trace, in order. */
  lemma {:induction false} ProcessDaysFollowsTrace(w: World, accounts: seq<Account>, orders: seq<StandingOrder>,
                                                   bills: seq<Bill>, d: Date, target: Date)
    requires Listed(w.books.acc, accounts) && Fits(w, orders, bills)
    ensures ProcessDays(w, accounts, orders, bills, d, target) == StepAll(w, accounts, orders, bills, Trace(d, target), target)
    decreases DayNumber(target) - DayNumber(d) + 1
  {
    if !IsAfter(d, target) {
      DayNumberOrder(target, d);
      NextDayNumber(d);
      var w1 := DayStep(w, accounts, orders, bills, d, target);
      KnownKept(w, w1, accounts, orders, bills);
      ProcessDaysFollowsTrace(w1, accounts, orders, bills, NextDay(d), target);
      assert ([d] + Trace(NextDay(d), target))[1..] == Trace(NextDay(d), target);
    }
  }

  /** The walk from a to c passes through b: it is the walk to b, then the walk on from the day after b. */
  lemma {:induction false} TraceConcat(a: Date, b: Date, c: Date)
    requires !IsAfter(a, b) && !IsAfter(b, c)
    ensures Trace(a, c) == Trace(a, b) + Trace(NextDay(b), c)
    decreases DayNumber(b) - DayNumber(a)
  {
    DayNumberOrder(b, a);
    DayNumberOrder(c, b);
    DayNumberOrder(c, a);
    NextDayNumber(a);
    if DayNumber(a) == DayNumber(b) {
      DayNumberInjective(a, b);
      NextDayIsImmediatelyAfter(a, a);
      assert Trace(a, b) == [a] + Trace(NextDay(a), a);
    } else {
      DayNumberOrder(NextDay(a), b);
      DayNumberOrder(b, NextDay(a));
      TraceConcat(NextDay(a), b, c);
      assert Trace(a, b) == [a] + Trace(NextDay(a), b);
    }
  }

  /**
   * Simulating a→b and then b→c processes b twice: the walk a→c at once is
   * the walk to b followed by the days after b, while the two calls walk to b
   * and then start again at b; and the first call ends on its target b, so
   * b's month-end block runs there even when b is not a month's last day.
   */
  lemma SplitProcessesMiddleTwice(a: Date, b: Date, c: Date)
    requires !IsAfter(a, b) && !IsAfter(b, c)
    ensures Trace(a, c) == Trace(a, b) + Trace(NextDay(b), c)
    ensures Trace(a, b) + Trace(b, c) == Trace(a, b) + [b] + Trace(NextDay(b), c)
    ensures |Trace(a, b) + Trace(b, c)| == |Trace(a, c)| + 1
    ensures MonthEnds(b, b)
  {
    TraceConcat(a, b, c);
    DayNumberOrder(c, b);
    NextDayNumber(b);
    assert Trace(b, c) == [b] + Trace(NextDay(b), c);
  }

  /** advanceDay simulates to the next day, so it processes two days: today and tomorrow. */
  lemma AdvanceDayProcessesTwo(d: Date)
    ensures Trace(d, NextDay(d)) == [d, NextDay(d)]
  {
    var n := NextDay(d);
    NextDayIsImmediatelyAfter(d, d);
    NextDayIsImmediatelyAfter(n, n);
    DayNumberOrder(n, d);
    NextDayNumber(d);
    assert Trace(NextDay(n), n) == [];
    assert Trace(n, n) == [n] + Trace(NextDay(n), n);
    assert Trace(d, n) == [d] + Trace(n, n);
  }

  // -----------------------------------------------------------------------
  // Properties of the daily phases
  // -----------------------------------------------------------------------

  /**
   * Over a list without repeats, accrual adds one day of interest to each
   * listed ACTIVE account and leaves every other account as it was.
   */
  lemma {:induction false} AccrueAllContract(m: map<Account, AccountState>, accounts: seq<Account>)
    requires Listed(m, accounts) && Distinct(accounts)
    ensures forall a :: a in m ==>
      AccrueAll(m, accounts)[a] == (if a in accounts && m[a].status == AccountStatus.Active then Accrued(m[a]) else m[a])
    decreases |accounts|
  {
    if accounts != [] {
      var init, last := accounts[..|accounts| - 1], accounts[|accounts| - 1];
      AccrueAllContract(m, init);
      assert last !in init;
      forall a | a in m
        ensures AccrueAll(m, accounts)[a] == (if a in accounts && m[a].status == AccountStatus.Active then Accrued(m[a]) else m[a])
      {
        assert a in accounts <==> a in init || a == last;
      }
    }
  }

  /** The records a phase appends: all of one type, each with a positive amount. */
  predicate AppendsOnly(b: Books, b': Books, txType: TransactionType) {
    |b'.log| >= |b.log| && Appended(b, b', |b'.log| - |b.log|) &&
    forall i :: |b.log| <= i < |b'.log| ==> b'.log[i].txType == txType && b'.log[i].amount > 0.0
  }

  lemma AppendsOnlyStep(b: Books, b1: Books, b2: Books, txType: TransactionType)
    requires AppendsOnly(b, b1, txType) && AppendsOnly(b1, b2, txType)
    ensures AppendsOnly(b, b2, txType)
  {
    assert b2.log[..|b1.log|][..|b.log|] == b2.log[..|b.log|];
    forall i | |b.log| <= i < |b1.log|
      ensures b2.log[i] == b1.log[i]
    {
      assert b2.log[..|b1.log|][i] == b2.log[i];
    }
  }

  /**
   * Over a list without repeats, the interest phase credits each listed ACTIVE
   * account with its accrued interest and zeroes it, leaves every other
   * account as it was, and appends only INTEREST records with positive amounts.
   */
  lemma {:induction false} InterestPhaseContract(b: Books, accounts: seq<Account>)
    requires Listed(b.acc, accounts) && Distinct(accounts)
    ensures forall a :: a in b.acc ==>
      InterestPhase(b, accounts).acc[a] ==
        (if a in accounts && b.acc[a].status == AccountStatus.Active then InterestApplied(b.acc[a]).0 else b.acc[a])
    ensures AppendsOnly(b, InterestPhase(b, accounts), Interest)
    decreases |accounts|
  {
    if accounts != [] {
      var init, last := accounts[..|accounts| - 1], accounts[|accounts| - 1];
      InterestPhaseContract(b, init);
      assert last !in init;
      var r := InterestPhase(b, init);
      if r.acc[last].status == AccountStatus.Active {
        var (s, interest) := InterestApplied(r.acc[last]);
        var r' := r.(acc := r.acc[last := s]);
        if interest > 0.0 {
          LoggedAppends(r', null, last, interest, Interest, "Monthly interest", last);
          AppendsOnlyStep(b, r', RecordInterestOp(r', last, interest, Some("Monthly interest")).0, Interest);
        }
      }
      forall a | a in b.acc
        ensures InterestPhase(b, accounts).acc[a] ==
          (if a in accounts && b.acc[a].status == AccountStatus.Active then InterestApplied(b.acc[a]).0 else b.acc[a])
      {
        assert a in accounts <==> a in init || a == last;
      }
    }
  }

  /**
   * Over a list without repeats, the fee phase charges each listed ACTIVE
   * account its fee, or its whole balance when that is smaller, leaves every
   * other account as it was, and appends only MAINTENANCE_FEE records with
   * positive amounts.
   */
  lemma {:induction false} FeePhaseContract(b: Books, business: seq<Account>)
    requires Listed(b.acc, business) && Distinct(business)
    ensures forall a :: a in b.acc ==>
      FeePhase(b, business).acc[a] ==
        (if a in business && b.acc[a].status == AccountStatus.Active then FeeApplied(b.acc[a]).0 else b.acc[a])
    ensures AppendsOnly(b, FeePhase(b, business), MaintenanceFee)
    decreases |business|
  {
    if business != [] {
      var init, last := business[..|business| - 1], business[|business| - 1];
      FeePhaseContract(b, init);
      assert last !in init;
      var r := FeePhase(b, init);
      if r.acc[last].status == AccountStatus.Active {
        var (s, fee) := FeeApplied(r.acc[last]);
        var r' := r.(acc := r.acc[last := s]);
        if fee > 0.0 {
          LoggedAppends(r', last, null, fee, MaintenanceFee, "Monthly maintenance fee", last);
          AppendsOnlyStep(b, r', RecordMaintenanceFeeOp(r', last, fee).0, MaintenanceFee);
        }
      }
      forall a | a in b.acc
        ensures FeePhase(b, business).acc[a] ==
          (if a in business && b.acc[a].status == AccountStatus.Active then FeeApplied(b.acc[a]).0 else b.acc[a])
      {
        assert a in business <==> a in init || a == last;
      }
    }
  }
}
