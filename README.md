# Bank of TUC e-banking core, modelled in Dafny

This project models the core of the Bank of TUC e-banking system and proves properties of the model. The bank keeps personal and business accounts, bills that businesses issue to individual customers, standing orders and an append-only transaction log. A virtual calendar is stepped one day at a time. Each day:

- interest accrues on every ACTIVE account;
- at a month end, or on the target day, the accrued interest is credited and business accounts pay their maintenance fee;
- the due standing orders run, transfers before bill payments;
- unpaid bills that are past due become OVERDUE.

Around that loop the model covers the following.

**The registries.** These are the account, user, bill, standing-order and transaction managers. They generate ids and IBANs and answer lookups.

**Smaller state machines and algorithms:**
- login with its five-failure lock;
- the undo/redo command invoker and its four commands;
- the guard chain of external SEPA/SWIFT transfers;
- the factories and the two builders;
- three string codecs:
  - DataManager's CSV escaping and parsing, which follows section 2, rules 6 and 7 of RFC 4180;
  - the user DAO's own CSV line format and parser;
  - the JSON escaper and value extractor of the transfer gateway client.

**Form of the model.**
- Each Java class whose fields change in place is a Dafny `class`: Account, Bill, StandingOrder, User, the managers, the commands, the invoker, the factories and the builders.
- Each such class has a value view, a `State()`, `Draft()` or `Values()` function.
- Each method is proved against a specification function on those values: the new state is a function of the old one.
- The properties are lemmas about those functions.
- Records that never change (Transaction, the Command interface) are datatypes.

**The shared workspace.** All the managers work on the lists that BankSystem creates. A run of the standing orders is specified on a `World` value holding:
- the ledger's `Books`: the state of every account, the log and the id counter;
- the state of every bill;
- the state of every order.

Each of these maps is keyed by the object, so aliasing is exact. The simulation is the function `Simulation.ProcessDays` over the same values. `Banking.BankSystem.SimulateTimePassing` is proved to perform it.

**Values and numbers.**
- Money is BigDecimal in the source and exact `real` here. The one rounding, the yearly rate divided by 365 to 10 places HALF_UP, is written out in `Money`.
- Dates are the proleptic Gregorian calendar of java.time, including `plusMonths` clamping.
- Java `int` ranges appear only where the source parses text (`Integer.parseInt`).
- The counters are unbounded `nat`s.

**Parameters stand in for the world outside.**
- Clock readings (`LocalDate.now()`, `LocalDateTime.now()`) are parameters: `today`, `now` or `at`.
- The HTTP gateway's answer is a parameter.
- The static id counters of the factories and builders are the fields of one explicit object each.

**Where the code and the system's written description disagree, the model follows the code:**
- A bill-payment standing order has no fixed-amount fallback when no bill matches. Its provider matching is not restricted to the order's owner.
- A bill-payment standing order withdraws the amount and marks the bill PAID. It then calls `deposit` with the negated amount, which throws. So no transaction is recorded, the order is not listed as executed, and that order's remaining bills are skipped (StandingOrderManager.java:185-198).
- The frequency of an order is not checked to be at least one month. `recordExecution` moves the date strictly forward only when it is.
- `simulateTimePassing` processes its start day. It applies interest and fees on its target day as well as on month ends. So two consecutive simulations process the boundary day twice.
- `BankSystem.payBill` numbers its record by the log's size plus one and does not move the TransactionManager counter. The next record the manager writes may therefore repeat that id.
- An internal transfer debits the source before the destination's status is checked. If the destination is not ACTIVE, the deposit throws after the debit, and no record is written.

## Model

| member | source | states |
|---|---|---|
| Users.User.constructor | com/bankoftuc/model/User.java:22-29 | a new user stores the hash of its password, with no failed attempts and no lock |
| Users.User.ChangePassword | com/bankoftuc/model/User.java:54-60 | the new password's hash is stored exactly when the old password verifies; otherwise "Old password is incorrect" is thrown and nothing changes |
| Users.User.RecordFailedLogin | com/bankoftuc/model/User.java:65-70 | the new credentials are one more failure, locked from the fifth on |
| Users.User.ResetFailedAttempts | com/bankoftuc/model/User.java:75-77 | the counter goes back to zero and the lock stays as it was |
| Users.User.SetLocked | com/bankoftuc/model/User.java:97 | only the lock flag changes |
| Users.FailedLoginCounts | com/bankoftuc/model/User.java:65-77 | a failure adds one and locks exactly at five or more, never unlocking; a reset zeroes the count and keeps the lock and the hash |
| Users.FailedLoginsLock | com/bankoftuc/model/User.java:65-70 | n failures add n to the counter and lock exactly when the counter reaches five on the way |
| Users.FiveFailuresLock | com/bankoftuc/model/User.java:65-70 | five failures in a row lock any user |
| Accounts.Account.Personal | com/bankoftuc/model/PersonalAccount.java:17-21 | a personal account opens ACTIVE with its balance, the default rate, nothing accrued and no co-owners |
| Accounts.Account.Business | com/bankoftuc/model/BusinessAccount.java:15-20 | a business account opens ACTIVE with its balance and the given monthly fee |
| Accounts.Account.BusinessWithDefaultFee | com/bankoftuc/model/BusinessAccount.java:22-24 | without a fee argument the monthly fee is 25.00 |
| Accounts.Account.Deposit | com/bankoftuc/model/Account.java:34-42 | the result and the new state are those of `Deposited`: amount check, then status check, then the balance grows |
| Accounts.Account.Withdraw | com/bankoftuc/model/Account.java:47-58 | the result and the new state are those of `Withdrawn`: amount, status, then funds |
| Accounts.Account.AccrueInterest | com/bankoftuc/model/Account.java:63-67 | the accrual grows by the balance times the daily rate, rounded to ten places half-up |
| Accounts.Account.ApplyMonthlyInterest | com/bankoftuc/model/Account.java:72-77 | returns the accrued interest, adds it to the balance and zeroes the accrual |
| Accounts.Account.ApplyMaintenanceFee | com/bankoftuc/model/BusinessAccount.java:40-53 | an ACTIVE account is charged the fee, or its whole balance when that is smaller; others are charged nothing |
| Accounts.Account.SetStatus | com/bankoftuc/model/Account.java:96 | only the status changes |
| Accounts.Account.SetInterestRate | com/bankoftuc/model/Account.java:99 | only the rate changes |
| Accounts.Account.SetMonthlyFee | com/bankoftuc/model/BusinessAccount.java:66-68 | only the monthly fee changes |
| Accounts.Account.IsOwner | com/bankoftuc/model/PersonalAccount.java:52-62 | true exactly when the user's id is the owner's or, on a personal account, a co-owner's |
| Accounts.Account.IsPrimaryOwner | com/bankoftuc/model/PersonalAccount.java:67-69 | the primary owner is an owner, and for a business account, whose isOwner checks only the owner, being the primary owner is being an owner |
| Accounts.Account.AddSecondaryOwner | com/bankoftuc/model/PersonalAccount.java:36-40 | the user is appended unless already a co-owner or the primary owner |
| Accounts.Account.RemoveSecondaryOwner | com/bankoftuc/model/PersonalAccount.java:45-47 | the first occurrence of the user leaves the co-owner list |
| Accounts.Account.AllOwners | com/bankoftuc/model/PersonalAccount.java:79-84 | the primary owner followed by the co-owners in order |
| Accounts.DepositIn | com/bankoftuc/model/Account.java:34-42 | a deposit changes only the depositing account's state in any set of accounts |
| Accounts.WithdrawIn | com/bankoftuc/model/Account.java:47-58 | a withdrawal changes only the withdrawing account's state in any set of accounts |
| Accounts.DepositContract | com/bankoftuc/model/Account.java:34-42 | a deposit succeeds iff the amount is positive and the account ACTIVE, with the amount checked first and the messages of the source; it changes only the balance, by the amount |
| Accounts.WithdrawContract | com/bankoftuc/model/Account.java:47-58 | a withdrawal succeeds iff the amount is positive, the account ACTIVE and the funds enough; it subtracts exactly the amount and keeps a non-negative balance non-negative |
| Accounts.WithdrawThenDeposit | com/bankoftuc/model/Account.java:34-58 | on an ACTIVE account a withdrawal followed by a deposit of the same amount restores the state |
| Accounts.DepositThenWithdraw | com/bankoftuc/model/Account.java:34-58 | from a non-negative balance a deposit followed by a withdrawal of the same amount restores the state |
| Accounts.AccrualOverDays | com/bankoftuc/model/Account.java:63-67 | n days of accrual keep balance, rate and status and add n times one day's interest |
| Accounts.ThirtyDaysAtDefaultRate | com/bankoftuc/model/Account.java:63-77 | thirty days on 1000.00 at the default rate, then the monthly interest, pay 0.821919 |
| Accounts.InterestAppliedOnce | com/bankoftuc/model/Account.java:72-77 | the monthly interest moves the accrual into the balance; a second call pays 0 and changes nothing |
| Accounts.FeeConservation | com/bankoftuc/model/BusinessAccount.java:40-53 | charge plus new balance is the old balance on an ACTIVE account; the charge never exceeds the fee nor drives a non-negative balance negative; only the balance changes |
| Accounts.DailyRateNonNegative | com/bankoftuc/model/Account.java:63-67 | a non-negative yearly rate gives a non-negative daily rate |
| Accounts.OperationsKeepSound | com/bankoftuc/model/Account.java:34-77 | deposit, withdraw, accrual, monthly interest and the fee keep balance, rate and accrual non-negative |
| Accounts.SecondaryOwnersStayDistinct | com/bankoftuc/model/PersonalAccount.java:36-40 | adding a co-owner keeps the list free of duplicates and of the primary owner, and the user is in it unless it is the primary owner |
| Accounts.RemoveKeepsOthers | com/bankoftuc/model/PersonalAccount.java:45-47 | removing a co-owner from a duplicate-free list leaves exactly the others, in order |
| Money.RoundHalfUpIsNearest | com/bankoftuc/model/Account.java:64 | rounding to ten places HALF_UP gives a whole number of 10^-10 units within half a unit of the exact quotient, with its sign |
| Money.RoundHalfUpExact | com/bankoftuc/model/Account.java:64 | a value with at most ten decimal places is not changed by the rounding |
| Money.RoundHalfUpTie | com/bankoftuc/model/Account.java:64 | a tie is rounded away from zero, upwards and downwards |
| Money.DefaultDailyRate | com/bankoftuc/model/Account.java:64 | the daily rate of the default 1% yearly rate is 0.0000273973 |
| Dates.NextDayNumber | com/bankoftuc/manager/BankSystem.java:225 | plusDays(1) moves the day count forward by exactly one, across month and year ends |
| Dates.DayNumberOrder | com/bankoftuc/manager/BankSystem.java:179-185 | isBefore and isAfter are the order of the day counts |
| Dates.DayNumberInjective | com/bankoftuc/manager/BankSystem.java:185 | two dates with the same day count are the same date |
| Dates.NextDayIsImmediatelyAfter | com/bankoftuc/manager/BankSystem.java:185-225 | the day after d is after d and no date lies strictly between them |
| Dates.PlusDaysNumber | com/bankoftuc/manager/BankSystem.java:162 | plusDays(n) moves the day count by exactly n, forward or, for a negative n, back |
| Dates.PrevDayNumber | com/bankoftuc/builder/BillBuilder.java:60 | minusDays(1) moves the day count back by exactly one, and the next day of the day before is the date itself |
| Dates.PlusDaysInverse | com/bankoftuc/builder/BillBuilder.java:60 | plusDays(-n) undoes plusDays(n), for counts of either sign |
| Dates.MonthChangesOnLastDay | com/bankoftuc/manager/BankSystem.java:194-195 | the next day falls in another month exactly on a month's last day |
| Dates.PlusMonthsShape | com/bankoftuc/model/StandingOrder.java:114-116 | plusMonths shifts the month count by the number of months and clamps the day of month to the target month's length |
| Dates.PlusMonthsIsLater | com/bankoftuc/model/StandingOrder.java:88-90 | adding a positive number of months gives a later date |
| Text.DecimalLength | com/bankoftuc/manager/AccountManager.java:34 | a number below 10^width needs at most width digits |
| Text.DecimalLengthAbove | com/bankoftuc/factory/AccountFactory.java:95 | a number of at least 10^width needs more than width digits |
| Text.DecimalValue | com/bankoftuc/manager/UserManager.java:27 | the decimal digits of n read back as n |
| Text.ZeroPadRoundTrip | com/bankoftuc/manager/AccountManager.java:34 | a zero-padded number is exactly width digits when it fits and reads back as the number |
| Text.ZeroPadInjective | com/bankoftuc/manager/BillManager.java:38 | distinct numbers never get the same zero-padding |
| Text.DigitsOnlyAppend | com/bankoftuc/manager/UserManager.java:27 | dropping the non-digits of a concatenation drops them from each part |
| Text.DigitsOnlyOfNonDigits | com/bankoftuc/manager/UserManager.java:27 | a prefix without digits disappears entirely |
| Text.DigitsOnlyOfDigits | com/bankoftuc/manager/UserManager.java:27 | a string of digits is kept whole |
| Transactions.OpenedContract | com/bankoftuc/model/Transaction.java:40-57 | a new record is COMPLETED, keeps its id, accounts, amount, type and description, and snapshots the source's balance, else the destination's, else none |
| Transactions.OverrideSnapshot | com/bankoftuc/model/Transaction.java:76 | setBalanceAfter replaces the snapshot and nothing else |
| Transactions.SignRule | com/bankoftuc/model/Transaction.java:96-102 | exactly deposits, incoming transfers and interest are shown with '+', every other type with '-' |
| Text.IndexOf | com/bankoftuc/manager/BankTransferAPI.java:279-292 | String.indexOf from a position: the first occurrence at or after it, and -1 exactly when there is none |
| Text.Trim | com/bankoftuc/manager/BankTransferAPI.java:301 | String.trim: no longer than the text, and neither end of a non-empty result is a space or control character |
| Text.TrimStart | com/bankoftuc/manager/BankTransferAPI.java:301 | what is left after the leading spaces is a suffix of the text that starts with a visible character |
| Text.TrimEnd | com/bankoftuc/manager/BankTransferAPI.java:301 | what is left before the trailing spaces is a prefix of the text that ends with a visible character |
| Text.TrimStartDropsBlanks | com/bankoftuc/manager/BankTransferAPI.java:301 | every character dropped from the front is U+0020 or below |
| Text.TrimEndDropsBlanks | com/bankoftuc/manager/BankTransferAPI.java:301 | every character dropped from the back is U+0020 or below |
| Text.TrimIsPiece | com/bankoftuc/manager/BankTransferAPI.java:301 | trim returns a contiguous piece of the text with only characters up to U+0020 before and after it |
| Text.TrimContract | com/bankoftuc/manager/BankTransferAPI.java:301 | trimming twice is trimming once, a text with visible ends is kept whole, and a text of blanks becomes empty |
| Text.EqualsIgnoreCaseEquivalence | com/bankoftuc/manager/BillManager.java:115 | equalsIgnoreCase's per-character test (same character, same upper case, or same lower case of the upper cases) is equality of the folded characters, so it is reflexive, symmetric and transitive on strings |
| Text.AsciiLetterIgnoreCase | com/bankoftuc/manager/BankTransferAPI.java:269 | a lower-case ASCII letter matches, ignoring case, exactly itself, its capital, and the letters Java folds to it: the long s for s, the Kelvin sign for k, the dotless i and the dotted capital I for i |
| Text.AsciiWordIgnoreCase | com/bankoftuc/manager/BankTransferAPI.java:269 | a lower-case ASCII word equals, ignoring case, exactly the strings of its length that spell it with those variants |
| Text.IgnoreCaseExamples | com/bankoftuc/manager/BillManager.java:115 | Greek capitals match their small letters, the final sigma matches the capital sigma, the long s matches s, and "true" does not match "false" |
| Text.ZeroPad | com/bankoftuc/manager/AccountManager.java:34 | String.format with a zero-padded width gives only digits |
| Text.DigitsOnly | com/bankoftuc/manager/UserManager.java:27 | replaceAll of the non-digits leaves only digits and is no longer than the text |
| Bills.Bill.constructor | com/bankoftuc/model/Bill.java:29-39 | a new bill keeps its id, provider, amount, due date, RF code, owner and issuer, and is UNPAID with no paid date |
| Bills.Bill.MarkAsPaid | com/bankoftuc/model/Bill.java:44-47 | the bill becomes PAID with the given payment time, whatever its status was |
| Bills.Bill.CheckAndUpdateOverdue | com/bankoftuc/model/Bill.java:59-63 | the new state is the aged state: UNPAID turns OVERDUE when today is after the due date |
| Bills.Bill.IsOverdue | com/bankoftuc/model/Bill.java:52-54 | a bill is overdue exactly when it is UNPAID and today's day count is past its due date's |
| Bills.Bill.SetStatus | com/bankoftuc/model/Bill.java:79 | only the status changes |
| Bills.Bill.SetPaidDate | com/bankoftuc/model/Bill.java:82 | only the paid date changes |
| Bills.MarkPaidIn | com/bankoftuc/model/Bill.java:44-47 | paying one bill changes that bill's state in a set of bills and no other |
| Bills.PaymentFromAnyStatus | com/bankoftuc/model/Bill.java:44-54 | paying reaches PAID with the payment time from every status, and a paid bill is never overdue |
| Bills.OverdueByDayNumber | com/bankoftuc/model/Bill.java:52-54 | a bill is overdue exactly when it is UNPAID and its due date lies before today |
| Bills.AgingContract | com/bankoftuc/model/Bill.java:59-63 | aging sets OVERDUE exactly on an overdue UNPAID bill, leaves everything else and the paid date alone, never yields UNPAID after the due date, and is idempotent |
| Bills.AgingKeepsOutstanding | com/bankoftuc/model/Bill.java:59-63 | aging never turns an outstanding bill into a settled one or the reverse |
| Bills.OverdueIsFinal | com/bankoftuc/model/Bill.java:59-63 | an OVERDUE bill stays OVERDUE under aging on any later day |
| BillManagement.AgedAll | com/bankoftuc/manager/BillManager.java:130-134 | aging a list of bills keeps the set of known bills |
| BillManagement.BillIdFormat | com/bankoftuc/manager/BillManager.java:46 | a bill id is "BILL" followed by the counter in at least six digits, ten characters while the counter fits, and reads back as the counter |
| BillManagement.RfCodeFormat | com/bankoftuc/manager/BillManager.java:37-39 | an RF code is "RF" followed by the counter in at least eight digits, ten characters while the counter fits, and reads back as the counter |
| BillManagement.GeneratedCodesDistinct | com/bankoftuc/manager/BillManager.java:37-52 | distinct counter values give distinct bill ids and distinct RF codes |
| BillManagement.SelectMembers | com/bankoftuc/manager/BillManager.java:65-79 | a bill is returned by a lookup exactly when it is in the list and passes the lookup's test, and the result is never longer than the list |
| BillManagement.SelectConcat | com/bankoftuc/manager/BillManager.java:65-79 | a lookup over two lists joined is the two lookups joined, in list order |
| BillManagement.LookupContract | com/bankoftuc/manager/BillManager.java:103-118 | the RF lookup returns the outstanding bills with exactly that code, the provider lookup the outstanding bills whose provider matches ignoring case, and a null key matches nothing |
| BillManagement.SelectNothing | com/bankoftuc/manager/BillManager.java:65-118 | a lookup that no bill passes returns the empty list |
| BillManagement.IssuedByContract | com/bankoftuc/manager/BillManager.java:84-88 | the issuer query fails exactly when some bill has no issuer, and otherwise returns exactly the bills issued by that business, in order |
| BillManagement.FindByIdContract | com/bankoftuc/manager/BillManager.java:93-98 | findById returns the first bill with the id, and nothing exactly when no bill has it |
| BillManagement.AgedAllPointwise | com/bankoftuc/manager/BillManager.java:130-134 | updating overdue bills ages each listed bill once, whatever repeats the list has, and leaves unlisted bills alone |
| BillManagement.AgedAllContract | com/bankoftuc/manager/BillManager.java:130-134 | afterwards no listed bill is UNPAID with its due date before today, and a bill that was not UNPAID keeps its state |
| BillManagement.BillManager.constructor | com/bankoftuc/manager/BillManager.java:22-26 | a new registry is empty, with bill ids from 1 and RF codes from 1000 |
| BillManagement.BillManager.FromList | com/bankoftuc/manager/BillManager.java:28-32 | a registry over a loaded list continues both counters after the list's size |
| BillManagement.BillManager.CreateBill | com/bankoftuc/manager/BillManager.java:44-52 | the new UNPAID bill is appended with the next bill id; a given RF code is used as is, otherwise the next generated code is taken and only then does the RF counter move |
| BillManagement.BillManager.CreateBillWithGeneratedRf | com/bankoftuc/manager/BillManager.java:57-60 | the new UNPAID bill is appended with the next bill id and the next generated RF code |
| BillManagement.BillManager.UnpaidBillsForUser | com/bankoftuc/manager/BillManager.java:65-70 | every bill returned is one of the manager's, owned by the user and UNPAID or OVERDUE, and every such bill is returned |
| BillManagement.BillManager.BillsForUser | com/bankoftuc/manager/BillManager.java:75-79 | every bill returned is one of the manager's owned by the user, and every such bill is returned |
| BillManagement.BillManager.BillsIssuedByBusiness | com/bankoftuc/manager/BillManager.java:84-88 | the query throws exactly when some bill has no issuer; otherwise it returns exactly the bills whose issuer has the business's id |
| BillManagement.BillManager.FindBill | com/bankoftuc/manager/BillManager.java:93-98 | null exactly when no bill has the id; otherwise a bill of the list with that id |
| BillManagement.BillManager.UnpaidByRfCode | com/bankoftuc/manager/BillManager.java:103-108 | a null code finds nothing; otherwise exactly the UNPAID or OVERDUE bills with that RF code |
| BillManagement.BillManager.UnpaidByProvider | com/bankoftuc/manager/BillManager.java:113-118 | a null name finds nothing; otherwise exactly the UNPAID or OVERDUE bills whose provider equals the name ignoring case |
| BillManagement.BillManager.MarkBillAsPaid | com/bankoftuc/manager/BillManager.java:123-125 | the bill is marked PAID at the given time |
| BillManagement.BillManager.UpdateOverdueBills | com/bankoftuc/manager/BillManager.java:130-134 | the new bill states are the old ones aged in list order |
| StandingOrders.StandingOrder.Transfer | com/bankoftuc/model/StandingOrder.java:48-63 | a transfer order keeps what it was given, is ACTIVE, and its next date is the one calculated from the creation day |
| StandingOrders.StandingOrder.BillPayment | com/bankoftuc/model/StandingOrder.java:68-79 | a bill-payment order is ACTIVE with no amount, no destination and no date, and describes itself as auto-paying the provider's bills |
| StandingOrders.StandingOrder.CalculateNextExecutionDate | com/bankoftuc/model/StandingOrder.java:84-94 | the new state is the calculated one; an execution day below 1 throws and leaves the order as it was |
| StandingOrders.StandingOrder.RecordExecution | com/bankoftuc/model/StandingOrder.java:112-118 | the new state is the recorded one; an execution day below 1 throws and leaves the order as it was |
| StandingOrders.StandingOrder.SetStatus | com/bankoftuc/model/StandingOrder.java:139 | only the status changes |
| StandingOrders.ClampDayShape | com/bankoftuc/model/StandingOrder.java:86-87 | clamping succeeds exactly for an execution day of at least 1, stays in the same month, and lands on the execution day or on the month's last day, whichever is earlier |
| StandingOrders.LaterMonthIsAfter | com/bankoftuc/model/StandingOrder.java:88-90 | a date in a later month is after any date of an earlier month |
| StandingOrders.NextExecutionTotal | com/bankoftuc/model/StandingOrder.java:84-94 | with an execution day of at least 1 the next date always exists |
| StandingOrders.NextExecutionShape | com/bankoftuc/model/StandingOrder.java:84-94 | the next date is the execution day clamped to its month, in this month when that day is still ahead and frequencyMonths later otherwise, and strictly after today once frequencyMonths is at least 1 |
| StandingOrders.RecordedShape | com/bankoftuc/model/StandingOrder.java:112-118 | recording moves a transfer's date exactly frequencyMonths months on, back to the clamped execution day, strictly later when frequencyMonths is at least 1, and leaves the status alone |
| StandingOrders.ClampingRecovers | com/bankoftuc/model/StandingOrder.java:114-116 | a 31st cut to 28 February comes back to 31 March |
| StandingOrders.BillPaymentUnscheduled | com/bankoftuc/model/StandingOrder.java:84-118 | bill-payment orders are left alone by both schedule computations and are due exactly when ACTIVE |
| StandingOrders.DueContract | com/bankoftuc/model/StandingOrder.java:99-107 | only ACTIVE orders are due; a transfer is due exactly when its date is on or before today, and after recording it is no longer due on that day |
| StandingOrders.StatusTransitions | com/bankoftuc/manager/StandingOrderManager.java:123-145 | pausing and resuming move only between ACTIVE and PAUSED and undo each other there; cancelling reaches CANCELLED from every status and is idempotent |
| StandingOrderManagement.TransferStep | com/bankoftuc/manager/StandingOrderManager.java:160-175 | one transfer order never adds or removes an account, bill or order from the books |
| StandingOrderManagement.PayStep | com/bankoftuc/manager/StandingOrderManager.java:184-195 | one matched bill never adds or removes an account, bill or order from the books |
| StandingOrderManagement.ExecuteDue | com/bankoftuc/manager/StandingOrderManager.java:154-202 | a run of the due orders never adds or removes an account, bill or order from the books |
| StandingOrderManagement.SelectOrdersMembers | com/bankoftuc/manager/StandingOrderManager.java:60-108 | an order is returned by a query exactly when it is listed and passes the query's test |
| StandingOrderManagement.TransferStepContract | com/bankoftuc/manager/StandingOrderManager.java:165-170 | a transfer order whose source cannot cover its amount is skipped with nothing changed, and so stays due |
| StandingOrderManagement.TransferStepExecuted | com/bankoftuc/manager/StandingOrderManager.java:165-170 | an order reported as executed could be covered, went through the ledger's transfer with the "Standing Order: " description, and had its date moved on by recordExecution |
| StandingOrderManagement.PayStepContract | com/bankoftuc/manager/StandingOrderManager.java:184-195 | an unaffordable bill is skipped; an affordable one ends the order's loop with nothing changed when the withdrawal throws, or with the amount withdrawn and the bill PAID at the start of the day; the negated deposit always throws, so nothing is logged and the order is not reported |
| StandingOrderManagement.PayBillsUnfold | com/bankoftuc/manager/StandingOrderManager.java:184-195 | the bill loop handles the first matched bill and either stops there or goes on with the rest |
| StandingOrderManagement.BillPhaseUnfold | com/bankoftuc/manager/StandingOrderManager.java:177-200 | the bill-payment loop handles the first order's matched bills and then goes on with the other orders |
| StandingOrderManagement.PayLoopNext | com/bankoftuc/manager/StandingOrderManager.java:184-195 | one turn of the inner loop either ends the run or keeps the loop's invariant for the next bill |
| StandingOrderManagement.BillPhaseAdvance | com/bankoftuc/manager/StandingOrderManager.java:177-200 | one turn of the bill-payment loop keeps the loop's invariant |
| StandingOrderManagement.PayBillsContract | com/bankoftuc/manager/StandingOrderManager.java:184-195 | a bill-payment order records no transaction and is never reported as executed; it either changes nothing or pays exactly the first matched bill its source can afford |
| StandingOrderManagement.ExecutedAreDueTransfers | com/bankoftuc/manager/StandingOrderManager.java:154-202 | every order a run reports is a listed transfer order that was due when the run began |
| StandingOrderManagement.MatchingContract | com/bankoftuc/manager/StandingOrderManager.java:179-182 | a bill-payment order pays the RF matches when there are any, otherwise the provider's outstanding bills, and only outstanding bills of the list |
| StandingOrderManagement.DueTransferQuery | com/bankoftuc/manager/StandingOrderManager.java:92-108 | the due query keeps exactly the ACTIVE transfer orders whose date is on or before today, the bill query exactly the ACTIVE bill-payment orders |
| StandingOrderManagement.OrderIdsDistinct | com/bankoftuc/manager/StandingOrderManager.java:38 | order ids are "SO" and at least six digits, and distinct counter values give distinct ids |
| StandingOrderManagement.FindOrderContract | com/bankoftuc/manager/StandingOrderManager.java:113-118 | findById returns the first order with the id, and null exactly when there is none |
| StandingOrderManagement.OrdersForUserContract | com/bankoftuc/manager/StandingOrderManager.java:60-77 | an administrator has no standing orders; a customer has exactly the listed orders it owns |
| StandingOrderManagement.RecordInWorld | com/bankoftuc/model/StandingOrder.java:112-118 | recording one order changes only that order's state in the books |
| StandingOrderManagement.StandingOrderManager.constructor | com/bankoftuc/manager/StandingOrderManager.java:21-24 | a new manager has no orders and numbers from 1 |
| StandingOrderManagement.StandingOrderManager.FromList | com/bankoftuc/manager/StandingOrderManager.java:26-29 | a manager over a loaded list numbers on from the list's size |
| StandingOrderManagement.StandingOrderManager.CreateTransferOrder | com/bankoftuc/manager/StandingOrderManager.java:34-44 | the counter always moves; an execution day below 1 fails with nothing added, otherwise the new ACTIVE transfer order is appended with the next id and its calculated first date |
| StandingOrderManagement.StandingOrderManager.CreateBillPaymentOrder | com/bankoftuc/manager/StandingOrderManager.java:49-55 | the new ACTIVE bill-payment order is appended with the next id, its RF code and provider |
| StandingOrderManagement.StandingOrderManager.PauseOrder | com/bankoftuc/manager/StandingOrderManager.java:123-127 | an ACTIVE order becomes PAUSED and any other is left as it is |
| StandingOrderManagement.StandingOrderManager.ResumeOrder | com/bankoftuc/manager/StandingOrderManager.java:132-136 | a PAUSED order becomes ACTIVE and any other is left as it is |
| StandingOrderManagement.StandingOrderManager.CancelOrder | com/bankoftuc/manager/StandingOrderManager.java:141-145 | the order becomes CANCELLED |
| StandingOrderManagement.StandingOrderManager.OrdersForCustomer | com/bankoftuc/manager/StandingOrderManager.java:60-64 | exactly the manager's orders owned by the customer |
| StandingOrderManagement.StandingOrderManager.ActiveOrdersForCustomer | com/bankoftuc/manager/StandingOrderManager.java:82-87 | exactly the customer's orders whose status is ACTIVE |
| StandingOrderManagement.StandingOrderManager.DueTransferOrders | com/bankoftuc/manager/StandingOrderManager.java:92-98 | exactly the ACTIVE transfer orders whose next execution date is set and not after today |
| StandingOrderManagement.StandingOrderManager.ActiveBillPaymentOrders | com/bankoftuc/manager/StandingOrderManager.java:103-108 | exactly the ACTIVE bill-payment orders |
| StandingOrderManagement.StandingOrderManager.ExecuteTransferOrder | com/bankoftuc/manager/StandingOrderManager.java:161-174 | the heap afterwards is the one transfer step applied to the books before it |
| StandingOrderManagement.StandingOrderManager.RunTransferOrders | com/bankoftuc/manager/StandingOrderManager.java:160-175 | the heap afterwards and the executed list are the transfer phase applied to the books before it |
| StandingOrderManagement.StandingOrderManager.PayBill | com/bankoftuc/manager/StandingOrderManager.java:185-194 | the heap afterwards is the one bill step applied to the books before it |
| StandingOrderManagement.StandingOrderManager.TakeBill | com/bankoftuc/manager/StandingOrderManager.java:187-188 | the withdrawal and the payment mark happen exactly when the withdrawal succeeds |
| StandingOrderManagement.StandingOrderManager.PayMatchingBills | com/bankoftuc/manager/StandingOrderManager.java:184-195 | the heap afterwards is the order's bill loop applied to the books before it |
| StandingOrderManagement.StandingOrderManager.ExecuteBillOrder | com/bankoftuc/manager/StandingOrderManager.java:178-199 | the heap afterwards is the matching and the bill loop of one order applied to the books before it |
| StandingOrderManagement.StandingOrderManager.RunBillOrders | com/bankoftuc/manager/StandingOrderManager.java:177-200 | the heap afterwards is the bill-payment phase applied to the books before it |
| StandingOrderManagement.StandingOrderManager.ExecuteDueOrders | com/bankoftuc/manager/StandingOrderManager.java:154-202 | the heap afterwards and the executed list are one run of the due orders applied to the books before it |
| StandingOrderManagement.StandingOrderManager.RunDueTransferOrders | com/bankoftuc/manager/StandingOrderManager.java:159-175 | the heap afterwards is the due transfer orders executed in turn |
| StandingOrderManagement.StandingOrderManager.RunActiveBillOrders | com/bankoftuc/manager/StandingOrderManager.java:177-200 | the heap afterwards is the active bill-payment orders executed in turn |
| Ledger.DepositOpContract | com/bankoftuc/manager/TransactionManager.java:37-50 | a deposit is refused exactly for a non-positive amount or an account that is not ACTIVE, and then changes nothing; otherwise it raises that one balance by the amount and appends one DEPOSIT record with the new balance and the given or default description |
| Ledger.WithdrawOpContract | com/bankoftuc/manager/TransactionManager.java:55-68 | a withdrawal is refused exactly for a non-positive amount, an account that is not ACTIVE or too little money, and then changes nothing; otherwise it lowers that one balance by the amount and appends one WITHDRAWAL record with the new balance |
| Ledger.TransferChecksFundsFirst | com/bankoftuc/manager/TransactionManager.java:76-78 | a transfer the source cannot cover throws "Insufficient funds" before anything changes |
| Ledger.TransferOpMoves | com/bankoftuc/manager/TransactionManager.java:73-107 | between two distinct ACTIVE accounts with enough money, a transfer moves the amount, keeps the sum of the two balances, and appends a TRANSFER_OUT then a TRANSFER_IN record with each side's new balance |
| Ledger.TransferDebitsBeforeCredit | com/bankoftuc/manager/TransactionManager.java:81-82 | when the destination is missing or not ACTIVE the transfer throws after the source was debited; the debit stays and nothing is logged |
| Ledger.RecordingChangesNoBalance | com/bankoftuc/manager/TransactionManager.java:112-125 | recording a bill payment, interest or a maintenance fee appends one record of that type with its default description and changes no balance |
| Ledger.PayBillOpContract | com/bankoftuc/manager/TransactionManager.java:130-147 | a bill payment fails exactly when the source is short, the amount is not positive or the account is not ACTIVE, and then changes nothing; otherwise the amount is debited and one BILL_PAYMENT record appended |
| Ledger.ExternalOpContract | com/bankoftuc/manager/TransactionManager.java:154-329 | a SEPA or SWIFT transfer short of amount plus fee, or refused by the gateway, changes nothing; one that succeeds was approved, debits amount plus fee and appends one record of its rail; an approved, covered, positive transfer from an ACTIVE account succeeds |
| Ledger.RailFees | com/bankoftuc/manager/TransactionManager.java:20-21 | the SEPA fee is 1.50, the SWIFT fee 25.00 |
| Ledger.OperationsKeepAligned | com/bankoftuc/manager/TransactionManager.java:24-361 | every operation keeps each record's id equal to its position plus one, when that held before |
| Ledger.TransferAppends | com/bankoftuc/manager/TransactionManager.java:73-107 | a transfer either appends its two records and returns the first, or leaves the log and the counter alone |
| Ledger.TransferKeepsAligned | com/bankoftuc/manager/TransactionManager.java:73-107 | a transfer keeps record ids equal to their positions plus one |
| Ledger.ForAccountContract | com/bankoftuc/manager/TransactionManager.java:366-371 | an account's view holds exactly the records that name its IBAN as source or destination, and is never longer than the log |
| Ledger.ForAccountAppend | com/bankoftuc/manager/TransactionManager.java:366-371 | records appended to the log land at the end of each account's view |
| Ledger.RecentContract | com/bankoftuc/manager/TransactionManager.java:376-380 | with a non-negative limit the result is the last min(limit, n) records of the account's view; a negative limit throws |
| Ledger.TransactionManager.constructor | com/bankoftuc/manager/TransactionManager.java:24-27 | a new ledger is empty and numbers from 1 |
| Ledger.TransactionManager.FromList | com/bankoftuc/manager/TransactionManager.java:29-32 | a ledger over a loaded list numbers on from the list's size |
| Ledger.TransactionManager.Log | com/bankoftuc/manager/TransactionManager.java:86-93 | the record with the next id and the chosen account's balance is appended |
| Ledger.TransactionManager.Deposit | com/bankoftuc/manager/TransactionManager.java:37-50 | the accounts and the log afterwards are the deposit operation applied to those before |
| Ledger.TransactionManager.Withdraw | com/bankoftuc/manager/TransactionManager.java:55-68 | the accounts and the log afterwards are the withdrawal operation applied to those before |
| Ledger.TransactionManager.Transfer | com/bankoftuc/manager/TransactionManager.java:73-107 | the accounts and the log afterwards are the transfer operation applied to those before |
| Ledger.TransactionManager.RecordBillPayment | com/bankoftuc/manager/TransactionManager.java:112-125 | the log afterwards has the bill-payment record appended |
| Ledger.TransactionManager.PayBill | com/bankoftuc/manager/TransactionManager.java:130-147 | the accounts and the log afterwards are the bill-payment operation applied to those before |
| Ledger.TransactionManager.External | com/bankoftuc/manager/TransactionManager.java:154-329 | the accounts and the log afterwards are the SEPA or SWIFT operation applied to those before and the gateway's answer |
| Ledger.TransactionManager.RecordInterest | com/bankoftuc/manager/TransactionManager.java:334-345 | the log afterwards has the interest record appended |
| Ledger.TransactionManager.RecordMaintenanceFee | com/bankoftuc/manager/TransactionManager.java:350-361 | the log afterwards has the maintenance-fee record appended |
| Ledger.TransactionManager.TransactionsForAccount | com/bankoftuc/manager/TransactionManager.java:366-371 | the result is the account's view of the log |
| Ledger.TransactionManager.RecentTransactions | com/bankoftuc/manager/TransactionManager.java:376-380 | the result is the recent-records function of the log, the IBAN and the limit |
| AccountManagement.IbanFormat | com/bankoftuc/manager/AccountManager.java:33-45 | a generated IBAN is "GR", the kind's code and the counter in at least fifteen digits, twenty characters while the counter is below 10^15, and reads back as the counter |
| AccountManagement.IbanInjective | com/bankoftuc/manager/AccountManager.java:33-45 | two generated IBANs are equal only for the same kind and the same counter value |
| AccountManagement.FindByIbanContract | com/bankoftuc/manager/AccountManager.java:78-83 | findByIban returns the first account with the IBAN, and null exactly when there is none |
| AccountManagement.OfKindContract | com/bankoftuc/manager/AccountManager.java:161-182 | the variant filter keeps exactly the accounts of that variant and is never longer than the list |
| AccountManagement.OwnedOfKindContract | com/bankoftuc/manager/AccountManager.java:88-115 | the per-owner filter keeps exactly the accounts of that variant that the user owns |
| AccountManagement.OwnedByContract | com/bankoftuc/manager/AccountManager.java:120-128 | an administrator owns no accounts; a customer gets exactly the owned accounts of its own variant |
| AccountManagement.OpeningKeepsDistinct | com/bankoftuc/manager/AccountManager.java:33-66 | opening an account under the counter's IBAN and moving the counter on keeps all IBANs distinct and none ahead of the counter |
| AccountManagement.AccountManager.constructor | com/bankoftuc/manager/AccountManager.java:19-22 | a new manager has no accounts and its counter at 1 |
| AccountManagement.AccountManager.FromList | com/bankoftuc/manager/AccountManager.java:24-27 | a manager over a loaded list continues the counter after the list's size |
| AccountManagement.AccountManager.NextIban | com/bankoftuc/manager/AccountManager.java:33-45 | the IBAN of the counter's value, and the counter moves on by one |
| AccountManagement.AccountManager.CreatePersonalAccount | com/bankoftuc/manager/AccountManager.java:50-55 | one new ACTIVE personal account with the next IBAN, the owner and the opening balance is appended, and IBANs stay distinct |
| AccountManagement.AccountManager.CreateBusinessAccount | com/bankoftuc/manager/AccountManager.java:60-66 | one new ACTIVE business account with the next IBAN, the opening balance and the given fee is appended, and IBANs stay distinct |
| AccountManagement.AccountManager.CreateBusinessAccountWithDefaultFee | com/bankoftuc/manager/AccountManager.java:71-73 | as above with the default fee of 25.00 |
| AccountManagement.AccountManager.AccountsOwnedOfKind | com/bankoftuc/manager/AccountManager.java:88-115 | the loop returns the per-owner filter of the list |
| AccountManagement.AccountManager.AccountsForCustomer | com/bankoftuc/manager/AccountManager.java:120-128 | the result is the customer's accounts as the dispatch on its variant gives them |
| AccountManagement.AccountManager.AccountsOfKind | com/bankoftuc/manager/AccountManager.java:161-182 | the loop returns the variant filter of the list |
| AccountManagement.AccountManager.UserOwnsAccount | com/bankoftuc/manager/AccountManager.java:194-201 | the answer is isOwner of the account's variant |
| AccountManagement.AccountManager.CloseAccount | com/bankoftuc/manager/AccountManager.java:133-135 | only the account's status changes, to CLOSED |
| AccountManagement.AccountManager.FreezeAccount | com/bankoftuc/manager/AccountManager.java:140-142 | only the account's status changes, to FROZEN |
| AccountManagement.AccountManager.ActivateAccount | com/bankoftuc/manager/AccountManager.java:147-149 | only the account's status changes, to ACTIVE |
| UserManagement.FindByUsername | com/bankoftuc/manager/UserManager.java:89-94 | a user that is found is one of the list |
| UserManagement.UserIdFormat | com/bankoftuc/manager/UserManager.java:47 | a generated id is the variant's three-letter prefix and at least six digits, nine characters while the counter is below 10^6 |
| UserManagement.UserIdNumber | com/bankoftuc/manager/UserManager.java:27 | the digits of a generated id are the padded counter, which reads back as the counter while it fits an int |
| UserManagement.UserIdInjective | com/bankoftuc/manager/UserManager.java:47-80 | two generated ids are equal only for the same prefix and the same counter value |
| UserManagement.MaxIdNumberIsMax | com/bankoftuc/manager/UserManager.java:21-35 | the list constructor's maximum is the largest id number of the list, and 0 for an empty list |
| UserManagement.FromListIdsBelow | com/bankoftuc/manager/UserManager.java:21-35 | continuing after the largest id number leaves every loaded id number below the counter |
| UserManagement.FreshIdIsNew | com/bankoftuc/manager/UserManager.java:47-80 | while the counter fits an int and is above every id number, the id it generates is not in the list |
| UserManagement.FindByUsernameContract | com/bankoftuc/manager/UserManager.java:89-94 | findByUsername returns the first user with the username, and null exactly when there is none |
| UserManagement.FindByIdContract | com/bankoftuc/manager/UserManager.java:99-104 | findById returns the first user with the id, and null exactly when there is none |
| UserManagement.AppendKeepsUnique | com/bankoftuc/manager/UserManager.java:43-51 | appending a user whose username is not taken keeps usernames unique, and the new user is then found by its username |
| UserManagement.AppendKeepsIdsBelow | com/bankoftuc/manager/UserManager.java:47-51 | appending a user numbered by the counter keeps every id number below the moved-on counter |
| UserManagement.OfRoleContract | com/bankoftuc/manager/UserManager.java:131-165 | each listing keeps exactly the users of its variant |
| UserManagement.RolesPartition | com/bankoftuc/manager/UserManager.java:131-165 | every user is of exactly one variant, so the three listings together are as long as the list |
| UserManagement.UserManager.constructor | com/bankoftuc/manager/UserManager.java:16-19 | a new manager has no users and its counter at 1 |
| UserManagement.UserManager.FromList | com/bankoftuc/manager/UserManager.java:21-35 | a manager over a loaded list continues after the largest id number, above every loaded id |
| UserManagement.UserManager.Register | com/bankoftuc/manager/UserManager.java:40-84 | a taken username throws "Username already exists" and changes nothing; otherwise a new user with the next id, the password's hash and no lock is appended and the counter moves on |
| UserManagement.UserManager.RegisterIndividualUser | com/bankoftuc/manager/UserManager.java:40-52 | the registration rule with an individual's profile and the IND prefix |
| UserManagement.UserManager.RegisterBusinessUser | com/bankoftuc/manager/UserManager.java:57-69 | the registration rule with a business profile and the BUS prefix |
| UserManagement.UserManager.RegisterAdminUser | com/bankoftuc/manager/UserManager.java:74-84 | the registration rule with an admin level and the ADM prefix |
| UserManagement.UserManager.LockUser | com/bankoftuc/manager/UserManager.java:109-111 | only the lock flag changes, to locked |
| UserManagement.UserManager.UnlockUser | com/bankoftuc/manager/UserManager.java:116-119 | the lock is cleared and the failed attempts go back to zero |
| UserManagement.UserManager.UsersOfRole | com/bankoftuc/manager/UserManager.java:131-165 | the loop returns exactly the variant filter of the list |
| Authentication.AttemptSucceedsIff | com/bankoftuc/manager/AuthManager.java:23-44 | a login attempt succeeds exactly when the user is unlocked and the password's hash matches; success resets the failures, a locked user is left alone, a failure locks from the fifth on, and the hash never changes |
| Authentication.LockedStaysLocked | com/bankoftuc/manager/AuthManager.java:26-29 | however many attempts a locked user makes, with whatever passwords, nothing changes |
| Authentication.WrongPasswordsLock | com/bankoftuc/manager/AuthManager.java:36-40 | a run of wrong passwords locks the user exactly when it was locked already or its failures bring the counter to five |
| Authentication.FiveWrongLoginsLock | com/bankoftuc/model/User.java:65-70 | five wrong passwords in a row lock a user, and then even the right password is refused |
| Authentication.FindFirst | com/bankoftuc/manager/AuthManager.java:24-25 | the user at the first position with the username is the one findByUsername returns |
| Authentication.AuthManager.constructor | com/bankoftuc/manager/AuthManager.java:14-17 | a new manager searches the given list and nobody is logged in |
| Authentication.AuthManager.Login | com/bankoftuc/manager/AuthManager.java:23-44 | the first user with the username decides: the outcome and that user's new credentials are one attempt, the current user becomes that user on success, no other user changes, and an unknown username fails with nothing changed; after a success isLoggedIn holds with the current user having the username, and a failure leaves isLoggedIn as it was |
| Authentication.AuthManager.CurrentUser | com/bankoftuc/manager/AuthManager.java:56-65 | getCurrentUser returns a user exactly when isLoggedIn holds |
| Authentication.AuthManager.Logout | com/bankoftuc/manager/AuthManager.java:49-51 | nobody is logged in afterwards |
| Authentication.AuthManager.SetUsers | com/bankoftuc/manager/AuthManager.java:70-72 | the manager searches the given list from then on |
| Simulation.AccrueAll | com/bankoftuc/manager/BankSystem.java:187-191 | the accrual loop keeps the set of accounts |
| Simulation.InterestPhase | com/bankoftuc/manager/BankSystem.java:198-206 | the interest loop keeps the set of accounts |
| Simulation.FeePhase | com/bankoftuc/manager/BankSystem.java:208-216 | the fee loop keeps the set of accounts |
| Simulation.MonthEnd | com/bankoftuc/manager/BankSystem.java:195-217 | the month-end block keeps the set of accounts |
| Simulation.BooksDay | com/bankoftuc/manager/BankSystem.java:187-217 | the first half of a day keeps the accounts, bills and orders and changes no bill or order |
| Simulation.ScheduleDay | com/bankoftuc/manager/BankSystem.java:220-223 | the second half of a day keeps the accounts, bills and orders |
| Simulation.DayStep | com/bankoftuc/manager/BankSystem.java:186-225 | one day of the loop keeps the accounts, bills and orders |
| Simulation.KnownKept | com/bankoftuc/manager/BankSystem.java:185-225 | the lists stay known for the next day |
| Simulation.ProcessDays | com/bankoftuc/manager/BankSystem.java:185-226 | the whole loop keeps the accounts, bills and orders |
| Simulation.OnTrackStep | com/bankoftuc/manager/BankSystem.java:185-225 | one turn of the loop keeps the run on track and brings the date strictly closer to the target |
| Simulation.OnTrackDone | com/bankoftuc/manager/BankSystem.java:185 | once the date has passed the target, the state reached is the result of the whole loop |
| Simulation.StepAll | com/bankoftuc/manager/BankSystem.java:185-225 | stepping a list of days keeps the accounts, bills and orders |
| Simulation.TraceShape | com/bankoftuc/manager/BankSystem.java:185-225 | the loop processes every day from the current date through the target inclusive, one after another, (target - current) + 1 of them, and none when the current date is after the target |
| Simulation.ProcessDaysFollowsTrace | com/bankoftuc/manager/BankSystem.java:185-225 | the loop is exactly the day steps over those days, in order |
| Simulation.TraceConcat | com/bankoftuc/manager/BankSystem.java:185-225 | the days from a to c are the days to b followed by the days after b |
| Simulation.SplitProcessesMiddleTwice | com/bankoftuc/manager/BankSystem.java:178-228 | simulating a to b and then b to c processes b twice, one day more than simulating a to c at once, and b counts as a month end both times |
| Simulation.AdvanceDayProcessesTwo | com/bankoftuc/manager/BankSystem.java:151-153 | advanceDay processes two days, today and tomorrow |
| Simulation.AccrueAllContract | com/bankoftuc/manager/BankSystem.java:187-191 | over a list without repeats, each listed ACTIVE account accrues one day of interest and every other account is unchanged |
| Simulation.AppendsOnlyStep | com/bankoftuc/manager/BankSystem.java:198-216 | appending records of one type twice is appending records of that type |
| Simulation.InterestPhaseContract | com/bankoftuc/manager/BankSystem.java:198-206 | over a list without repeats, each listed ACTIVE account is credited its accrued interest, which goes back to zero, every other account is unchanged, and only INTEREST records are appended |
| Simulation.FeePhaseContract | com/bankoftuc/manager/BankSystem.java:208-216 | over a list without repeats, each listed ACTIVE business account is charged its fee, or its whole balance when smaller, every other account is unchanged, and only MAINTENANCE_FEE records are appended |
| Banking.Payee | com/bankoftuc/manager/BankSystem.java:253-258 | the account a direct bill payment credits is one of the issuer's business accounts in the list |
| Banking.Debited | com/bankoftuc/manager/BankSystem.java:247-248 | debiting and marking the bill keeps the accounts, bills and orders |
| Banking.Credited | com/bankoftuc/manager/BankSystem.java:253-258 | crediting the payee keeps the accounts, bills and orders |
| Banking.DirectBillPaymentContract | com/bankoftuc/manager/BankSystem.java:236-270 | a PAID bill throws "Bill is already paid" and a balance short of amount plus the 0.50 fee throws "Insufficient funds", each with nothing changed; on success the bill is PAID at the given time, the source lost amount plus fee, the issuer's first business account gained the amount, and one BILL_PAYMENT record numbered size + 1 is appended without moving the ledger's counter, so the next logged id repeats it |
| Banking.BankSystem.constructor | com/bankoftuc/manager/BankSystem.java:35-44 | the system works over the given managers, dated with the clock's reading |
| Banking.BankSystem.RunDay | com/bankoftuc/manager/BankSystem.java:186-223 | one pass of the while loop is the day step on the state before it |
| Banking.BankSystem.RunBooks | com/bankoftuc/manager/BankSystem.java:187-217 | the accrual loop and, when due, the month-end block, as the first half of the day step |
| Banking.BankSystem.RunAccrual | com/bankoftuc/manager/BankSystem.java:187-191 | the accrual loop on the shared account list |
| Banking.BankSystem.RunMonthEnd | com/bankoftuc/manager/BankSystem.java:195-217 | the month-end block on the shared account list |
| Banking.BankSystem.RunSchedule | com/bankoftuc/manager/BankSystem.java:220-223 | the due standing orders, then the aging of the bills |
| Banking.BankSystem.RunOrders | com/bankoftuc/manager/BankSystem.java:220 | the standing-order run of the day |
| Banking.BankSystem.RunAging | com/bankoftuc/manager/BankSystem.java:223 | the bills are aged on today's date |
| Banking.BankSystem.SimulateTimePassing | com/bankoftuc/manager/BankSystem.java:178-231 | a target before the current date throws "Cannot simulate backwards in time" with nothing changed; otherwise every day through the target is processed and the date becomes the target |
| Banking.BankSystem.RunTo | com/bankoftuc/manager/BankSystem.java:185-228 | the loop processes every day through the target and the date is set to the target |
| Banking.BankSystem.RunDays | com/bankoftuc/manager/BankSystem.java:185-226 | the while loop is the whole run of days from the current date through the target |
| Banking.BankSystem.RunTurn | com/bankoftuc/manager/BankSystem.java:186-225 | one turn processes the day and moves the date on by one |
| Banking.BankSystem.AdvanceDay | com/bankoftuc/manager/BankSystem.java:151-153 | the date moves on by one day and the run covers today and tomorrow |
| Banking.BankSystem.SimulateDays | com/bankoftuc/manager/BankSystem.java:160-164 | a positive count simulates that many days ahead; otherwise nothing happens |
| Banking.BankSystem.PayBill | com/bankoftuc/manager/BankSystem.java:236-270 | the state and the result are the direct bill payment to the issuer's first business account |
| Banking.SettleBill | com/bankoftuc/manager/BankSystem.java:240-268 | the heap afterwards and the result are the direct bill payment applied to the state before it |
| Banking.AppendRecord | com/bankoftuc/manager/BankSystem.java:267 | one record is appended to the shared list and the counter is left as it is |
| Banking.DebitIn | com/bankoftuc/manager/BankSystem.java:247-248 | the withdrawal and the mark, as the debit function says |
| Banking.CreditIn | com/bankoftuc/manager/BankSystem.java:253-258 | the payee's deposit, as the credit function says |
| Banking.MonthEndIn | com/bankoftuc/manager/BankSystem.java:197-216 | the month-end block is interest on every listed account, then fees on the business ones |
| Banking.AccrueActive | com/bankoftuc/manager/BankSystem.java:187-191 | the accrual loop over the shared list |
| Banking.ApplyInterest | com/bankoftuc/manager/BankSystem.java:198-206 | the interest loop over the shared list |
| Banking.ApplyFees | com/bankoftuc/manager/BankSystem.java:208-216 | the fee loop over the business accounts |
| TransferApi.ReplaceCharAppend | com/bankoftuc/manager/BankTransferAPI.java:310-315 | replacing a character in two joined strings is replacing it in each |
| TransferApi.EscapeStepsAppend | com/bankoftuc/manager/BankTransferAPI.java:310-315 | the chain of replacements on two joined strings is the chain on each |
| TransferApi.EscapeJsonPerChar | com/bankoftuc/manager/BankTransferAPI.java:308-316 | the chain of replacements escapes each character on its own: no later replacement rewrites what an earlier one wrote |
| TransferApi.EscapeJson | com/bankoftuc/manager/BankTransferAPI.java:308-316 | null becomes ""; any other value is escaped character by character, and no raw newline, carriage return or tab is left |
| TransferApi.ReplaceSingle | com/bankoftuc/manager/BankTransferAPI.java:310-315 | replacing a character in a one-character string gives the replacement or the character |
| TransferApi.ReplaceAbsent | com/bankoftuc/manager/BankTransferAPI.java:310-315 | replacing an absent character changes nothing |
| TransferApi.EscapeOne | com/bankoftuc/manager/BankTransferAPI.java:310-315 | the chain of replacements on one character gives that character's escape |
| TransferApi.EscapeCharShape | com/bankoftuc/manager/BankTransferAPI.java:310-315 | each character maps to itself or to a backslash and one character; newline, carriage return and tab never survive, other control characters pass through |
| TransferApi.EscapedHasNoBreaks | com/bankoftuc/manager/BankTransferAPI.java:308-316 | no raw newline, carriage return or tab is left in an escaped string |
| TransferApi.OtherControlsPassThrough | com/bankoftuc/manager/BankTransferAPI.java:308-316 | every other control character passes through unescaped |
| TransferApi.SkipSpacesAndQuotes | com/bankoftuc/manager/BankTransferAPI.java:286-288 | the index is the first from i on that holds neither a space nor a quote, or the end |
| TransferApi.ValueEnd | com/bankoftuc/manager/BankTransferAPI.java:296-299 | the index is the first from i on that holds ',' or '}', or the end |
| TransferApi.BareAfterColon | com/bankoftuc/manager/BankTransferAPI.java:285-291 | when the character before the value start is not a quote, the value is read as a bare value |
| TransferApi.ExtractJsonValue | com/bankoftuc/manager/BankTransferAPI.java:277-302 | the method returns the value the extraction rule defines |
| TransferApi.ReadValue | com/bankoftuc/manager/BankTransferAPI.java:285-301 | the two index loops return the value after the colon that the rule defines |
| TransferApi.SkipLoop | com/bankoftuc/manager/BankTransferAPI.java:286-288 | the skip loop stops at the first index holding neither a space nor a quote |
| TransferApi.ValueEndLoop | com/bankoftuc/manager/BankTransferAPI.java:296-299 | the end loop stops at the first ',' or '}' |
| TransferApi.MissingKeyGivesNull | com/bankoftuc/manager/BankTransferAPI.java:278-280 | without the quoted key there is no value |
| TransferApi.MissingColonGivesNull | com/bankoftuc/manager/BankTransferAPI.java:282-283 | when no ':' follows the first occurrence of the quoted key there is no value |
| TransferApi.QuotedValueContract | com/bankoftuc/manager/BankTransferAPI.java:291-294 | a quoted value is missing exactly when no closing quote follows, and it never holds a quote |
| TransferApi.BareValueContract | com/bankoftuc/manager/BankTransferAPI.java:295-300 | a bare value is always present, holds no ',' or '}', and is trimmed |
| TransferApi.ExtractedValueShape | com/bankoftuc/manager/BankTransferAPI.java:277-302 | every value found is quote-free or free of ',' and '}' |
| TransferApi.ValueAfterColonShape | com/bankoftuc/manager/BankTransferAPI.java:285-301 | the value after a colon is quote-free or free of ',' and '}' |
| TransferApi.TrimIsInside | com/bankoftuc/manager/BankTransferAPI.java:300 | trimming keeps only characters of the string |
| TransferApi.ParseResponseFailures | com/bankoftuc/manager/BankTransferAPI.java:263-272 | any HTTP code other than 200, or a response without a status, is a failure |
| TransferApi.ParseResponse | com/bankoftuc/manager/BankTransferAPI.java:263-272 | a response succeeds exactly when the code is 200 and the status spells "success" with each letter in either case or, for the s, as the long s |
| TransferApi.ParseResponseIgnoresCase | com/bankoftuc/manager/BankTransferAPI.java:269 | with code 200 the statuses "SUCCESS", "Success" and the long-s spelling succeed, and "successful" fails |
| TransferApi.SuccessIgnoringCase | com/bankoftuc/manager/BankTransferAPI.java:269 | the statuses equal to "success" ignoring case are exactly its spellings with letter variants, "SUCCESS" among them |
| TransferApi.ParseResponseKeeps | com/bankoftuc/manager/BankTransferAPI.java:265-271 | the raw response, the message and the gateway's transaction id are kept as found |
| Commands.DepositCommand.constructor | com/bankoftuc/command/DepositCommand.java:21-28 | a new command keeps its account, amount and description and has not run |
| Commands.DepositCommand.Execute | com/bankoftuc/command/DepositCommand.java:31-44 | the command's progress, the books and the outcome are the deposit execution rule applied to those before |
| Commands.DepositCommand.Undo | com/bankoftuc/command/DepositCommand.java:47-61 | the progress, the balances and the outcome are the deposit undo rule applied to those before |
| Commands.WithdrawCommand.constructor | com/bankoftuc/command/WithdrawCommand.java:21-28 | a new command keeps its account, amount and description and has not run |
| Commands.WithdrawCommand.Execute | com/bankoftuc/command/WithdrawCommand.java:31-50 | the progress, the books and the outcome are the withdrawal execution rule applied to those before |
| Commands.WithdrawCommand.Undo | com/bankoftuc/command/WithdrawCommand.java:53-67 | the progress, the balances and the outcome are the withdrawal undo rule applied to those before |
| Commands.TransferCommand.constructor | com/bankoftuc/command/TransferCommand.java:22-30 | a new command keeps its accounts, amount and description and has not run |
| Commands.TransferCommand.Execute | com/bankoftuc/command/TransferCommand.java:33-52 | the progress, the books and the outcome are the transfer execution rule applied to those before |
| Commands.TransferCommand.Undo | com/bankoftuc/command/TransferCommand.java:55-76 | the progress, the balances and the outcome are the transfer undo rule applied to those before |
| Commands.PayBillCommand.constructor | com/bankoftuc/command/PayBillCommand.java:22-28 | a new command keeps its bill, payer and manager and has not run |
| Commands.PayBillCommand.Execute | com/bankoftuc/command/PayBillCommand.java:31-66 | the progress, the payer's state, the bill's state and the outcome are the bill-payment execution rule applied to those before |
| Commands.PayBillCommand.Undo | com/bankoftuc/command/PayBillCommand.java:69-89 | the progress, the payer's state, the bill's state and the outcome are the bill-payment undo rule applied to those before |
| Commands.AppendedOne | com/bankoftuc/command/DepositCommand.java:36-40 | a log grown by one record is the old log followed by that record |
| Commands.DepositExecuteContract | com/bankoftuc/command/DepositCommand.java:31-44 | a deposit command succeeds exactly when it has not run, the amount is positive and the account ACTIVE; then it raises the balance by the amount, appends and keeps one record, and a second execute is refused; a refusal changes nothing |
| Commands.DepositUndoContract | com/bankoftuc/command/DepositCommand.java:47-61 | undoing a deposit succeeds exactly when it ran, the account is still ACTIVE and holds the amount; then the balance drops by the amount and the command may run again; a refusal changes nothing |
| Commands.DepositRoundTrip | com/bankoftuc/command/DepositCommand.java:31-61 | from a non-negative balance, execute then undo restores every account exactly, while the deposit record stays in the log |
| Commands.WithdrawExecuteContract | com/bankoftuc/command/WithdrawCommand.java:31-50 | a withdraw command succeeds exactly when it has not run, the amount is positive, the account ACTIVE and its balance covers the amount; then the balance drops by the amount and one record is kept; a refusal changes nothing |
| Commands.WithdrawUndoContract | com/bankoftuc/command/WithdrawCommand.java:53-67 | undoing a withdrawal succeeds exactly when it ran and the account is still ACTIVE; it deposits the amount back; a refusal changes nothing |
| Commands.WithdrawRoundTrip | com/bankoftuc/command/WithdrawCommand.java:31-67 | execute then undo restores every account exactly; the withdrawal record stays |
| Commands.TransferExecuteContract | com/bankoftuc/command/TransferCommand.java:33-52 | a transfer command is refused with nothing changed when it already ran or the source is short; it succeeds exactly when, besides, the amount is positive and both accounts ACTIVE, moving the amount and keeping the sum; a refused credit leaves the debit in place and logs nothing |
| Commands.TransferUndoContract | com/bankoftuc/command/TransferCommand.java:55-76 | undoing a transfer is refused with nothing changed unless it ran and the destination holds the amount; between distinct ACTIVE accounts it moves the amount back and keeps the sum |
| Commands.TransferRoundTrip | com/bankoftuc/command/TransferCommand.java:33-76 | between distinct accounts, a transfer that executed can be undone and the undo restores both accounts exactly; its two records stay in the log |
| Commands.PayBillExecuteContract | com/bankoftuc/command/PayBillCommand.java:31-66 | a bill-payment command succeeds exactly when it has not run, the bill is not PAID, the payer is ACTIVE and covers amount plus 0.50; it then debits that total, saves the bill's old status and marks the bill PAID at the given time; a refusal changes neither account nor bill |
| Commands.PayBillUndoContract | com/bankoftuc/command/PayBillCommand.java:69-89 | undoing a bill payment succeeds exactly when it ran and the payer is ACTIVE; it refunds amount plus 0.50 and restores the saved status with no paid date |
| Commands.PayBillRoundTrip | com/bankoftuc/command/PayBillCommand.java:31-89 | execute then undo restores the payer's account exactly and the bill's status, with no paid date |
| Invocation.ExecuteOf | com/bankoftuc/command/Command.java:10-14 | execute succeeds only on a command that had not run, and a success is exactly what sets its flag |
| Invocation.UndoOf | com/bankoftuc/command/Command.java:16-20 | undo succeeds only on an executed command, and a success is exactly what clears its flag |
| Invocation.CommandInvoker.constructor | com/bankoftuc/command/CommandInvoker.java:18-23 | a new invoker has empty stacks and history and keeps at most 100 history entries |
| Invocation.CommandInvoker.ExecuteCommand | com/bankoftuc/command/CommandInvoker.java:28-47 | on success the command is pushed, the redo stack is cleared and the history grows, dropping its oldest entry past the limit; on failure the three lists are unchanged |
| Invocation.CommandInvoker.Undo | com/bankoftuc/command/CommandInvoker.java:52-76 | refused with nothing changed on an empty stack or a top that is not undoable; otherwise the top's undo runs, and only a success moves it to the undone stack |
| Invocation.CommandInvoker.Redo | com/bankoftuc/command/CommandInvoker.java:81-98 | refused on an empty undone stack; otherwise the top is popped and executed again, and goes back onto the executed stack only on success; the history is not touched |
| Invocation.CommandInvoker.ClearHistory | com/bankoftuc/command/CommandInvoker.java:147-151 | all three lists are emptied |
| Invocation.CommandInvoker.SetMaxHistorySize | com/bankoftuc/command/CommandInvoker.java:163-165 | only the limit changes; the history is not trimmed until the next execute |
| Invocation.TrimmedStaysBounded | com/bankoftuc/command/CommandInvoker.java:36-39 | under a positive limit a history within the limit stays within it, ends with the new command and loses at most its oldest entry |
| Invocation.HistoryKeepsNewest | com/bankoftuc/command/CommandInvoker.java:36-39 | starting within the limit, the history after any series of successful executes is the newest min(n, limit) of all the commands seen |
| Invocation.UndoThenRedo | com/bankoftuc/command/CommandInvoker.java:52-98 | a successful undo then a successful redo puts the three lists back as they were; a failed redo drops the command from both stacks; neither touches the history |
| Invocation.PushedContract | com/bankoftuc/command/CommandInvoker.java:31-39 | a successful execute empties the redo stack and puts the command on top of the executed stack and at the end of the history |
| Bridge.ExternalTransfer.constructor | com/bankoftuc/bridge/ExternalTransfer.java:15-17 | the handler works through the given implementor |
| Bridge.ExternalTransfer.Sepa | com/bankoftuc/bridge/ExternalTransfer.java:85-87 | the SEPA handler works through the SEPA implementor |
| Bridge.ExternalTransfer.Swift | com/bankoftuc/bridge/ExternalTransfer.java:92-94 | the SWIFT handler works through the SWIFT implementor |
| Bridge.ExternalTransfer.SetImplementor | com/bankoftuc/bridge/TransferAbstraction.java:51-53 | the handler works through the new implementor from then on |
| Bridge.ExternalTransfer.Transfer | com/bankoftuc/bridge/ExternalTransfer.java:20-66 | the account's new state and the result are the transfer rule applied to the account, the request, the implementor and the gateway's answer |
| Bridge.ExternalTransfer.TransferTo | com/bankoftuc/bridge/ExternalTransfer.java:71-80 | the simplified overload is the transfer rule on the request it builds |
| Bridge.RefusalOrder | com/bankoftuc/bridge/ExternalTransfer.java:21-48 | the checks run in a fixed order and the first failure decides: amount, then recipient (VALIDATION_ERROR), then funds including the fee (INSUFFICIENT_FUNDS), then availability (SERVICE_UNAVAILABLE); a refusal is a failure without a transaction id |
| Bridge.RefusalTouchesNothing | com/bankoftuc/bridge/ExternalTransfer.java:21-48 | a refused transfer leaves the account as it was and does not depend on the gateway, so the gateway is never asked |
| Bridge.GatewayDecides | com/bankoftuc/bridge/ExternalTransfer.java:54-65 | past the checks a failed gateway answer is returned as it is with no debit; a successful one debits exactly amount plus fee from an ACTIVE account, which the balance covers, while a non-ACTIVE account makes the withdrawal throw |
| Bridge.Fees | com/bankoftuc/bridge/SepaImplementor.java:14 | SEPA charges 1.50 and SWIFT 25.00 |
| Bridge.SimpleRequestDefaults | com/bankoftuc/bridge/ExternalTransfer.java:73-77 | the simplified request carries the sender's IBAN, the recipient, the amount and the description, with the EUR and SHA defaults and nothing else |
| AccountCreation.AccountFactory.constructor | com/bankoftuc/factory/AccountFactory.java:12-13 | both counters start at 1 |
| AccountCreation.AccountFactory.GeneratePersonalIban | com/bankoftuc/factory/AccountFactory.java:94-97 | the personal IBAN of the current personal counter, which then moves on while the business counter stays |
| AccountCreation.AccountFactory.GenerateBusinessIban | com/bankoftuc/factory/AccountFactory.java:103-106 | the business IBAN of the current business counter, which then moves on while the personal counter stays |
| AccountCreation.AccountFactory.SetCounters | com/bankoftuc/factory/AccountFactory.java:111-114 | both counters take the given values |
| AccountCreation.AccountFactory.CreatePersonalAccount | com/bankoftuc/factory/AccountFactory.java:51-56 | a new personal account of the owner under the next personal IBAN, with the opening balance and the 0.01 rate; only the personal counter moves |
| AccountCreation.AccountFactory.CreateEmptyPersonalAccount | com/bankoftuc/factory/AccountFactory.java:61-66 | the same with a zero balance |
| AccountCreation.AccountFactory.CreateBusinessAccount | com/bankoftuc/factory/AccountFactory.java:71-77 | a new business account of the owner under the next business IBAN, with the opening balance, the 0.005 rate and the 25.00 fee; only the business counter moves |
| AccountCreation.AccountFactory.CreateEmptyBusinessAccount | com/bankoftuc/factory/AccountFactory.java:82-88 | the same with a zero balance |
| AccountCreation.AccountFactory.CreateAccount | com/bankoftuc/factory/AccountFactory.java:31-46 | an owner of the wrong variant is refused with nothing drawn; otherwise a zero-balance account of the kind is opened under that kind's next IBAN |
| AccountCreation.GeneratedIbanValid | com/bankoftuc/factory/AccountFactory.java:94-144 | while its counter is below 10^15 a generated IBAN is valid and its type reads back as the kind it was generated for |
| AccountCreation.LongCounterIbanInvalid | com/bankoftuc/factory/AccountFactory.java:135-144 | from 10^15 on the IBAN is longer than twenty characters and validation rejects it, though its type still reads back |
| AccountCreation.LongCounterIbanLength | com/bankoftuc/factory/AccountFactory.java:95 | from 10^15 on, the IBAN is longer than twenty characters |
| AccountCreation.BoundIsPow10 | com/bankoftuc/factory/AccountFactory.java:95 | the counter bound is 10^15, the first value that needs a sixteenth digit |
| AccountCreation.TypeFromIbanContract | com/bankoftuc/factory/AccountFactory.java:119-130 | the type lookup succeeds with a kind exactly on a non-null string of at least five characters carrying that kind's bank code; shorter or null input throws "Invalid IBAN format", any other code "Unknown account type code: " followed by the code |
| AccountCreation.ValidIbanHasType | com/bankoftuc/factory/AccountFactory.java:119-144 | every valid IBAN has a type, the one its bank code names |
| AccountCreation.TypeWithoutValidity | com/bankoftuc/factory/AccountFactory.java:119-144 | the type lookup ignores country and length: "XX100" has a type but is not valid |
| AccountCreation.FactoryIbansDistinct | com/bankoftuc/factory/AccountFactory.java:94-106 | different kinds or different counter values give different IBANs |
| AccountCreation.FactoryDefaults | com/bankoftuc/factory/AccountFactory.java:51-88 | personal accounts earn 0.01 and pay no fee; business accounts earn 0.005 and pay 25.00 a month; both open ACTIVE with no accrued interest and no co-owners |
| UserCreation.UserFactory.constructor | com/bankoftuc/factory/UserFactory.java:11-13 | the three counters start at 1 |
| UserCreation.UserFactory.CreateIndividualUser | com/bankoftuc/factory/UserFactory.java:43-48 | a new individual user under the id peekNextIndividualId announced, with the given profile, the password's hash and no lock; only the individual counter moves |
| UserCreation.UserFactory.CreateBusinessUser | com/bankoftuc/factory/UserFactory.java:53-58 | a new business user under the announced BUS id, with the given profile; only the business counter moves |
| UserCreation.UserFactory.CreateAdminUser | com/bankoftuc/factory/UserFactory.java:63-68 | a new admin under the announced ADM id with the given level; only the admin counter moves |
| UserCreation.UserFactory.CreateUser | com/bankoftuc/factory/UserFactory.java:27-38 | a new user of the kind under the announced id with that kind's empty profile (admin level 1); exactly that kind's counter moves by one |
| UserCreation.UserFactory.SetCounters | com/bankoftuc/factory/UserFactory.java:73-77 | the three counters take the given values |
| UserCreation.UserIdFormat | com/bankoftuc/factory/UserFactory.java:82-98 | an id is the kind's prefix and the counter in at least six digits, nine characters while the counter is below 10^6, and reads back as the counter |
| UserCreation.UserIdInjective | com/bankoftuc/factory/UserFactory.java:45-65 | two ids are equal only for the same kind and the same counter value |
| UserCreation.DefaultRoleKind | com/bankoftuc/factory/UserFactory.java:27-35 | the default profile of each kind is a role of that kind with the matching getRole name |
| TransactionBuilding.TransactionBuilder.constructor | com/bankoftuc/builder/TransactionBuilder.java:24-29 | a new builder is COMPLETED with an empty description, no amount or type, and the clock's time |
| TransactionBuilding.TransactionBuilder.WithId | com/bankoftuc/builder/TransactionBuilder.java:34-37 | only the id changes |
| TransactionBuilding.TransactionBuilder.WithDateTime | com/bankoftuc/builder/TransactionBuilder.java:42-45 | only the time changes |
| TransactionBuilding.TransactionBuilder.WithAmount | com/bankoftuc/builder/TransactionBuilder.java:50-61 | only the amount changes |
| TransactionBuilding.TransactionBuilder.WithType | com/bankoftuc/builder/TransactionBuilder.java:66-69 | only the type changes |
| TransactionBuilding.TransactionBuilder.WithDescription | com/bankoftuc/builder/TransactionBuilder.java:74-77 | only the description changes |
| TransactionBuilding.TransactionBuilder.WithBalanceAfter | com/bankoftuc/builder/TransactionBuilder.java:82-85 | only the balance snapshot changes |
| TransactionBuilding.TransactionBuilder.FromAccount | com/bankoftuc/builder/TransactionBuilder.java:90-93 | only the source changes |
| TransactionBuilding.TransactionBuilder.ToAccount | com/bankoftuc/builder/TransactionBuilder.java:98-101 | only the destination changes |
| TransactionBuilding.TransactionBuilder.WithStatus | com/bankoftuc/builder/TransactionBuilder.java:106-109 | only the status changes |
| TransactionBuilding.TransactionBuilder.SetDeposit | com/bankoftuc/builder/TransactionBuilder.java:114-121 | the builder holds the deposit preset of its fields |
| TransactionBuilding.TransactionBuilder.SetWithdrawal | com/bankoftuc/builder/TransactionBuilder.java:126-133 | the builder holds the withdrawal preset of its fields |
| TransactionBuilding.TransactionBuilder.SetTransfer | com/bankoftuc/builder/TransactionBuilder.java:138-145 | the builder holds the transfer preset, described by the destination's IBAN |
| TransactionBuilding.TransactionBuilder.SetSepaTransfer | com/bankoftuc/builder/TransactionBuilder.java:150-157 | the builder holds the SEPA preset, naming the recipient and the gateway's id |
| TransactionBuilding.TransactionBuilder.SetSwiftTransfer | com/bankoftuc/builder/TransactionBuilder.java:162-169 | the builder holds the SWIFT preset, naming the recipient and the gateway's id |
| TransactionBuilding.TransactionBuilder.SetBillPayment | com/bankoftuc/builder/TransactionBuilder.java:174-181 | the builder holds the bill-payment preset, naming the RF code |
| TransactionBuilding.TransactionBuilder.Build | com/bankoftuc/builder/TransactionBuilder.java:186-208 | the result is the build rule on the builder's fields, which stay as they were |
| TransactionBuilding.TransactionBuilder.Reset | com/bankoftuc/builder/TransactionBuilder.java:213-224 | every field is back to its default with a new clock reading |
| TransactionBuilding.BuiltContract | com/bankoftuc/builder/TransactionBuilder.java:186-208 | build succeeds exactly when the amount is positive and a type is set, checking the amount first with its own message, and the record carries every field of the builder |
| TransactionBuilding.BuiltOverridesSnapshot | com/bankoftuc/builder/TransactionBuilder.java:186-196 | the record is the constructor's with its balance snapshot and status replaced by the builder's, whatever the accounts' balances |
| TransactionBuilding.BuiltIgnoresDateTime | com/bankoftuc/builder/TransactionBuilder.java:186-196 | the builder's time has no influence on what build returns |
| TransactionBuilding.FreshDraftDefaults | com/bankoftuc/builder/TransactionBuilder.java:24-29 | a new builder is COMPLETED with an empty description, no accounts and no balance, and cannot build until an amount is given |
| TransactionBuilding.PresetsContract | com/bankoftuc/builder/TransactionBuilder.java:114-145 | the deposit preset names only the destination, the withdrawal only the source, the transfer both as TRANSFER_OUT; each keeps every other field, and with a positive amount the builder builds |
| BillBuilding.BillNumbering.constructor | com/bankoftuc/builder/BillBuilder.java:25-26 | both counters start at 1 |
| BillBuilding.BillNumbering.SetIdCounter | com/bankoftuc/builder/BillBuilder.java:177-179 | only the id counter changes |
| BillBuilding.BillNumbering.SetRfCounter | com/bankoftuc/builder/BillBuilder.java:173-175 | only the RF counter changes |
| BillBuilding.BillBuilder.constructor | com/bankoftuc/builder/BillBuilder.java:28-32 | a new builder is UNPAID and due thirty days after today |
| BillBuilding.BillBuilder.WithId | com/bankoftuc/builder/BillBuilder.java:34-37 | only the id changes |
| BillBuilding.BillBuilder.WithProviderName | com/bankoftuc/builder/BillBuilder.java:39-42 | only the provider name changes |
| BillBuilding.BillBuilder.WithAmount | com/bankoftuc/builder/BillBuilder.java:44-52 | only the amount changes |
| BillBuilding.BillBuilder.WithDueDate | com/bankoftuc/builder/BillBuilder.java:54-57 | only the due date changes |
| BillBuilding.BillBuilder.WithDueDateInDays | com/bankoftuc/builder/BillBuilder.java:59-62 | the due date becomes today plus the number of days, a negative count giving a date in the past |
| BillBuilding.BillBuilder.WithStatus | com/bankoftuc/builder/BillBuilder.java:64-67 | only the status changes |
| BillBuilding.BillBuilder.WithPaidDate | com/bankoftuc/builder/BillBuilder.java:69-72 | only the paid date changes |
| BillBuilding.BillBuilder.WithRfCode | com/bankoftuc/builder/BillBuilder.java:74-77 | only the RF code changes |
| BillBuilding.BillBuilder.ForCustomer | com/bankoftuc/builder/BillBuilder.java:79-82 | only the owner changes |
| BillBuilding.BillBuilder.SetIssuer | com/bankoftuc/builder/BillBuilder.java:84-90 | the builder holds the issuedBy preset of its fields |
| BillBuilding.BillBuilder.SetUtilityBill | com/bankoftuc/builder/BillBuilder.java:95-99 | the builder holds the utility-bill preset: the provider is the type followed by " Provider", with the amount |
| BillBuilding.BillBuilder.SetInvoice | com/bankoftuc/builder/BillBuilder.java:104-109 | the builder holds the invoice preset of its fields |
| BillBuilding.BillBuilder.Build | com/bankoftuc/builder/BillBuilder.java:114-134 | a draft that validation refuses throws with nothing changed and no number drawn; otherwise the missing codes are drawn and stored in the builder and the new bill carries the numbered draft |
| BillBuilding.BillBuilder.DrawCodes | com/bankoftuc/builder/BillBuilder.java:118-126 | the builder and the counters afterwards are the numbering of those before |
| BillBuilding.BillBuilder.Reset | com/bankoftuc/builder/BillBuilder.java:157-168 | every field is back to its default, due thirty days after today |
| BillBuilding.RefusalContract | com/bankoftuc/builder/BillBuilder.java:139-152 | validation accepts exactly a positive amount, a non-empty provider, an owner and a due date, and reports the first missing one in that order |
| BillBuilding.NumberedContract | com/bankoftuc/builder/BillBuilder.java:118-126 | numbering fills exactly the missing codes: a given id or RF code is kept and its counter stays, a missing one is drawn from its counter, which moves by one; nothing else changes and afterwards neither is missing |
| BillBuilding.NumberedOnce | com/bankoftuc/builder/BillBuilder.java:118-126 | the drawn codes stay in the builder, so building again without a reset draws nothing and repeats the id and RF code |
| BillBuilding.IssuerContract | com/bankoftuc/builder/BillBuilder.java:84-109 | issuedBy fills the provider from the business name only when none is set; asInvoice always replaces it; both record the issuer |
| BillBuilding.DueInDaysContract | com/bankoftuc/builder/BillBuilder.java:59-62 | the due date lies exactly that many days from today, and an unpaid bill so dated is overdue today exactly when the count is negative |
| BillBuilding.FreshDraftDefaults | com/bankoftuc/builder/BillBuilder.java:28-32 | a new builder is UNPAID, has no paid date and is due in thirty days, and build refuses it for want of an amount |
| Csv.Occurrences | com/bankoftuc/manager/DataManager.java:687-688 | a character cannot occur more often than the text is long |
| Csv.Doubled | com/bankoftuc/manager/DataManager.java:688 | doubling the quotes lengthens the text by exactly its number of quotes |
| Csv.ParseCsvLine | com/bankoftuc/manager/DataManager.java:696-729 | the character loop, with its one character of look-ahead inside quotes, returns what the scan of the line gives |
| Csv.SplitCommas | com/bankoftuc/manager/DataManager.java:696-729 | the comma split of a line has at least one piece |
| Csv.EscapedShape | com/bankoftuc/manager/DataManager.java:685-691 | a value without comma, quote or newline is written as it is; any other is quoted with its quotes doubled, two characters plus one per quote longer; null is the empty field |
| Csv.EscapeCsv | com/bankoftuc/manager/DataManager.java:685-691 | null is written as the empty field, and parseCSVLine reads the written text back as one field, the value (or "" for null) |
| Csv.ScanPlain | com/bankoftuc/manager/DataManager.java:715-723 | outside quotes, text with no quote and no comma goes into the current field unchanged |
| Csv.QuotedPair | com/bankoftuc/manager/DataManager.java:705-708 | inside quotes a doubled quote reads as one quote |
| Csv.QuotedChar | com/bankoftuc/manager/DataManager.java:712-713 | inside quotes any other character reads as itself |
| Csv.QuotedClose | com/bankoftuc/manager/DataManager.java:709-710 | inside quotes a quote not followed by another ends quote mode |
| Csv.ScanQuoted | com/bankoftuc/manager/DataManager.java:704-714 | inside quotes the doubled text of a value and a single closing quote read back as the value, leaving quote mode |
| Csv.PlainQuote | com/bankoftuc/manager/DataManager.java:716-717 | outside quotes a quote enters quote mode |
| Csv.ScanEscaped | com/bankoftuc/manager/DataManager.java:685-726 | an escaped value followed by a comma or the end of the line reads back as the value |
| Csv.ScanJoined | com/bankoftuc/manager/DataManager.java:685-729 | a comma-joined row of escaped values reads back as those values, after the fields already read |
| Csv.EscapeRoundTrip | com/bankoftuc/manager/DataManager.java:685-729 | parseCSVLine reads any escaped value back as exactly one field, that value |
| Csv.JoinRoundTrip | com/bankoftuc/manager/DataManager.java:685-729 | parseCSVLine reads a comma-joined row of escaped values back as the same values, in order |
| Csv.ScanGrows | com/bankoftuc/manager/DataManager.java:701-726 | the scan keeps the fields it has closed and adds at least one more |
| Csv.AtLeastOneField | com/bankoftuc/manager/DataManager.java:726 | parseCSVLine never returns an empty array, not even for the empty line |
| Csv.ScanUnquoted | com/bankoftuc/manager/DataManager.java:701-726 | without quotes the scan is the comma split of the rest attached to the text read so far |
| Csv.SplitCount | com/bankoftuc/manager/DataManager.java:718-720 | the comma split has one piece more than the text has commas |
| Csv.UnquotedLine | com/bankoftuc/manager/DataManager.java:696-729 | a line without quotes is split at every comma, into one more field than it has commas |
| Csv.UnquotedRowRead | com/bankoftuc/manager/DataManager.java:309 | on a line without quotes, a loader reads the row exactly when the line has at least the required number of fields less one commas (users 7, accounts 7, co-owners 2, transactions and bills 9, standing orders 13) |
| Csv.SavedRowRead | com/bankoftuc/manager/DataManager.java:385 | a row written with at least the required number of columns is never skipped by its loader |
| Csv.OpenAccount | com/bankoftuc/manager/DataManager.java:396-408 | the account built from a decoded row has its IBAN, kind and owner, the row's balance, status and rate, and the row's fee only if it is a business account |
| Csv.DecodedAccountContract | com/bankoftuc/manager/DataManager.java:384-416 | a decoded account comes from a row of at least seven fields with a known owner of the matching kind; it holds the row's IBAN, balance, status and rate, the fee of column 7 or 25.00 when that is empty or missing for a business account and none for a personal one, no co-owners and no accrued interest |
| Csv.DecodeAccountRow | com/bankoftuc/manager/DataManager.java:384-416 | a row of fewer than seven fields is skipped; a longer one throws exactly when the balance, status, rate or accrued interest does not parse, or when a business row's fee column is present and does not parse; it gives no account exactly when the owner is unknown or not of the row's kind |
| Csv.AccruedInterestDropped | com/bankoftuc/manager/DataManager.java:389-390 | two rows that differ only in a parseable accrued-interest column decode to the same account |
| Csv.ShortAccountRowSkipped | com/bankoftuc/manager/DataManager.java:385 | a row of fewer than seven fields is skipped without an error |
| UserStore.FirstIndexOfId | com/bankoftuc/dao/UserDAOCsv.java:53-55 | the position found holds the id and no earlier one does; none is found only when no user has the id |
| UserStore.UserDAOCsv.constructor | com/bankoftuc/dao/UserDAOCsv.java:19-22 | the DAO works on the list it is given |
| UserStore.UserDAOCsv.ExistsById | com/bankoftuc/dao/UserDAOCsv.java:75-77 | an id exists exactly when some user in the list has it |
| UserStore.UserDAOCsv.Update | com/bankoftuc/dao/UserDAOCsv.java:52-61 | the list afterwards is the stored list: the first user with the id replaced, or the user appended when none has it |
| UserStore.UserDAOCsv.Save | com/bankoftuc/dao/UserDAOCsv.java:29-37 | an existing id is updated in place, a new one appended, and the entity is returned |
| UserStore.UserDAOCsv.DeleteById | com/bankoftuc/dao/UserDAOCsv.java:69-72 | the list afterwards keeps exactly the users with another id, in order |
| UserStore.UserDAOCsv.Delete | com/bankoftuc/dao/UserDAOCsv.java:64-66 | deleting a user deletes its id |
| UserStore.UserDAOCsv.FindByType | com/bankoftuc/dao/UserDAOCsv.java:92-104 | the loop returns the users of the role named by the type string, in list order |
| UserStore.UserDAOCsv.FindAllWithLock | com/bankoftuc/dao/UserDAOCsv.java:112-131 | findAllActive and findAllLocked return the users with the lock flag off or on, in list order |
| UserStore.FirstIndexIsFirst | com/bankoftuc/dao/UserDAOCsv.java:53-55 | a position holding the id with no earlier match is the one update replaces |
| UserStore.FirstIndexFound | com/bankoftuc/dao/UserDAOCsv.java:40-44 | findById finds a user exactly when update has a position to replace, and it is the user there |
| UserStore.StoredContract | com/bankoftuc/dao/UserDAOCsv.java:29-61 | after save or update findById returns the saved user; the list grows by one exactly when the id was new, and otherwise only the first user with that id is replaced |
| UserStore.StoredIdempotent | com/bankoftuc/dao/UserDAOCsv.java:29-61 | saving the same user twice is saving it once |
| UserStore.StoredKeepsOthers | com/bankoftuc/dao/UserDAOCsv.java:29-61 | saving a user leaves findById of every other id as it was |
| UserStore.WithoutIdMembers | com/bankoftuc/dao/UserDAOCsv.java:69-72 | deleteById keeps exactly the users with another id and none with that id |
| UserStore.WithoutMissingId | com/bankoftuc/dao/UserDAOCsv.java:69-72 | deleting an id no user has leaves the list as it was |
| UserStore.WithoutIdContract | com/bankoftuc/dao/UserDAOCsv.java:69-72 | after deleteById the id is not found, and deleting an id that is not found changes nothing |
| UserStore.WithoutIdKeepsOthers | com/bankoftuc/dao/UserDAOCsv.java:69-72 | deleteById of one id leaves findById of every other id as it was |
| UserStore.FindByIdAppend | com/bankoftuc/dao/UserDAOCsv.java:40-44 | findById on two lists in a row looks in the second only when the first has no match |
| UserStore.TypeMatchesRoleName | com/bankoftuc/dao/UserDAOCsv.java:95-100 | findByType's three-way instanceof test holds exactly when the type string is the user's getRole() name |
| UserStore.LockPartition | com/bankoftuc/dao/UserDAOCsv.java:112-131 | findAllActive and findAllLocked split the list: each holds exactly the users with its flag, and together they hold every user once |
| UserStore.ParseCsvLine | com/bankoftuc/dao/UserDAOCsv.java:296-316 | the character loop returns the quote-toggling scan of the line |
| UserStore.StripQuotes | com/bankoftuc/dao/UserDAOCsv.java:304-305 | the text this parser keeps of a value has no quote in it |
| UserStore.ToggleQuote | com/bankoftuc/dao/UserDAOCsv.java:304-305 | every quote flips quote mode and is dropped |
| UserStore.ToggleComma | com/bankoftuc/dao/UserDAOCsv.java:306-308 | outside quotes a comma closes the field |
| UserStore.ToggleChar | com/bankoftuc/dao/UserDAOCsv.java:309-310 | inside quotes any other character is kept |
| UserStore.ToggleQuoted | com/bankoftuc/dao/UserDAOCsv.java:304-310 | inside quotes the doubled text of a value and the closing quote read as the value without its quotes, since each doubled quote flips the mode twice |
| UserStore.TogglePlain | com/bankoftuc/dao/UserDAOCsv.java:309-310 | outside quotes text without quotes and commas is read as it is |
| UserStore.StripQuotesUnquoted | com/bankoftuc/dao/UserDAOCsv.java:304-310 | a value without quotes is kept whole |
| UserStore.ToggleEscaped | com/bankoftuc/dao/UserDAOCsv.java:296-327 | an escaped value read outside quotes gives the value without its quotes |
| UserStore.ToggleJoined | com/bankoftuc/dao/UserDAOCsv.java:266-316 | escaped fields joined by commas read back as the fields without their quotes |
| UserStore.EscapeToggleRoundTrip | com/bankoftuc/dao/UserDAOCsv.java:296-327 | escapeCsv then parseCsvLine gives back one field, the value without its quotes, and that is the value itself exactly when it has no quote |
| UserStore.QuoteLost | com/bankoftuc/dao/UserDAOCsv.java:304-305 | a value with a quote in it, written by escapeCsv, is read back without the quote |
| UserStore.ToggleUnquoted | com/bankoftuc/dao/UserDAOCsv.java:296-316 | on text without quotes this scan is the comma split, as in DataManager's parser |
| UserStore.UnquotedLinesAgree | com/bankoftuc/dao/UserDAOCsv.java:296-316 | on a line without quotes this parser and DataManager's parseCSVLine read the same fields |
| UserStore.ParseInt | com/bankoftuc/dao/UserDAOCsv.java:186 | Integer.parseInt returns a number only within the int range |
| UserStore.SignedValue | com/bankoftuc/dao/UserDAOCsv.java:186 | the value of a signed digit string is returned only within the int range |
| UserStore.Columns | com/bankoftuc/dao/UserDAOCsv.java:266-288 | formatUser writes twelve columns for every kind of user |
| UserStore.FormatUser | com/bankoftuc/dao/UserDAOCsv.java:248-291 | DataManager's quote-aware line parser reads formatUser's row back as exactly the twelve columns |
| UserStore.ParseUser | com/bankoftuc/dao/UserDAOCsv.java:177-243 | a short row or an unknown type gives no user; a bad failed-attempt count throws; otherwise a new user of the row's type with its id, username, phone and profile, the stored hash, the saved count and the saved lock flag |
| UserStore.AfterFailedLoginsStep | com/bankoftuc/dao/UserDAOCsv.java:233-235 | one more failed login after n is n + 1 failed logins |
| UserStore.ParseIntRoundTrip | com/bankoftuc/dao/UserDAOCsv.java:186 | Integer.parseInt reads back every int that formatUser writes |
| UserStore.DigitsUnquoted | com/bankoftuc/dao/UserDAOCsv.java:323 | a string of digits is never quoted by escapeCsv |
| UserStore.IntTextUnquoted | com/bankoftuc/dao/UserDAOCsv.java:271 | a number as formatUser writes it is never quoted |
| UserStore.NamesUnquoted | com/bankoftuc/dao/UserDAOCsv.java:266-272 | the type names, the lock flag and the empty column are left as they are by escapeCsv |
| UserStore.RawLetters | com/bankoftuc/dao/UserDAOCsv.java:252-254 | the type names are upper-case letters and the flag lower-case letters |
| UserStore.ParseBooleanRoundTrip | com/bankoftuc/dao/UserDAOCsv.java:187 | Boolean.parseBoolean reads back the flag formatUser writes |
| UserStore.ParseBooleanContract | com/bankoftuc/dao/UserDAOCsv.java:187 | Boolean.parseBoolean is true exactly for the four letters of "true", each in either case or, for the i, as a dotless i or a dotted capital I |
| UserStore.FormatParseRoundTrip | com/bankoftuc/dao/UserDAOCsv.java:177-291 | parseUser reads formatUser's row back with every text column stripped of its quotes, the same failed-attempt count and lock flag, and an individual's VAT number lost |
| UserStore.TypeNamesDiffer | com/bankoftuc/dao/UserDAOCsv.java:191-207 | the three type names of the switch are distinct |
| UserStore.FormatParseQuoteFree | com/bankoftuc/dao/UserDAOCsv.java:177-291 | a user whose text has no quotes is read back as the same user, except that an individual's VAT number is lost |
| UserStore.ShortRowSkipped | com/bankoftuc/dao/UserDAOCsv.java:179 | a row of fewer than seven fields gives no user and no error |
| UserStore.BadCountThrows | com/bankoftuc/dao/UserDAOCsv.java:186-219 | an unreadable failed-attempt column throws even when the type is unknown; a well-formed row of an unknown type gives no user |

## Left out

- Console, GUI and command-line front ends (BankingGUI, GUILauncher, BankingCLI, ConsoleUI, Main): they only read input, print and call the managers.
- File persistence is not modelled: DataManager's save and load bodies, ensureDataDirectory, deleteAllData and loadSystemDate; UserDAOCsv's loadFromFile and saveToFile; BankSystem's saveToCSV, loadFromCSV and deleteSavedData. Only the line formats are: escaping, parsing, the loaders' row-length guards, the account row decoding and the user line format.
- UserStore.UserDAOCsv.Update: does not model the mutual call between update and save, because it is written as the one list function both reach; each mutation's saveToFile is file I/O.
- The reflection that reads and writes the password hash (DataManager getPasswordHash and setPasswordHashDirectly, UserDAOCsv.java:224-226 and 258-264) is a direct field write; its fallback to the password "temp" when reflection fails cannot happen in the model.
- Users.HashPassword: SHA-256 (FIPS 180-4) through MessageDigest is replaced by a deterministic stand-in digest; no property depends on which function it is.
- Clock reads are parameters, and the transaction timestamp is not part of the Transaction record.
- The HTTP exchange of BankTransferAPI (sendRequest, readStream, testConnection) is left out; the gateway's response text and availability are inputs. SepaImplementor and SwiftImplementor are represented by their rail and fee constants.
- BigDecimal is exact `real`: `new BigDecimal(text)` on a CSV field is a parameter of the account-row decoder, and the `doubleValue()` passed to the gateway and the `%.2f` display strings (toString, toDetailedString, the command descriptions and history strings) are left out.
- UserStore.ParseInt: Integer.parseInt is modelled on ASCII digits only.
- Text.EqualsIgnoreCase: Character.toUpperCase and toLowerCase are tabulated for Basic Latin, Latin-1, Latin Extended-A, the Greek alphabet with its accented letters and the symbols that fold into it, basic Cyrillic (U+0400 to U+045F), the capital sharp s and the Ohm, Kelvin and Angstrom signs; letters of other blocks (Latin Extended-B and beyond, the rest of Cyrillic, Armenian, Georgian, Cherokee and the other cased scripts) compare by their code point alone, and a character outside the Basic Multilingual Plane is one `char` rather than two UTF-16 units.
- BillManagement.LookupContract: the provider lookup's ignoring of case has the extent of Text.EqualsIgnoreCase, for the reason on its line.
- StandingOrderManagement.MatchingContract: the provider fallback's ignoring of case has the extent of Text.EqualsIgnoreCase, for the reason on its line.
- TransferApi.ParseResponseIgnoresCase: the spellings of "success" are those of Text.AsciiLetterIgnoreCase, which are complete within the tabulated blocks; no other block folds to an ASCII letter in Java.
- AtomicInteger and AtomicLong counters and the synchronized singleton (getInstance, resetInstance) are plain unbounded counters and one explicit BankSystem object; the model does not wrap a counter around at the Java `int` or `long` limit, and the setters (AccountCreation.AccountFactory.SetCounters, UserCreation.UserFactory.SetCounters, BillBuilding.BillNumbering.SetIdCounter and SetRfCounter) take natural numbers, so a negative counter value, which the Java `long` parameter admits, is not modelled.
- The fluent `return this` of the builders' setters is left out; each setter is a method that changes the builder.
- Java `null` strings and references are `Option` values or `?` class types; a null string where the source would throw on dereferencing it is not modelled.
- BankSystem.initDemoData is fixture data with no behaviour of its own and is left out.
- GenericDAO, UserDAO, AccountDAO and TransactionDAO are interfaces without bodies, TransferAbstraction only delegates, and TransferImplementor holds data classes; the user subclasses are the variants of `Users.Role`.
- UserStore: findById, findAll, count, findByUsername and usernameExists are read off the `users` field through the UserManagement lookups rather than as methods of their own.
- UserCreation.UserFactory.PeekNextId is a function without a contract of its own; the ids it announces are those the create methods use, and their format is UserCreation.UserIdFormat.
- The factory's IBAN counters are independent of AccountManager's, as in the source, so a factory-made IBAN can equal one the manager issues; no property is claimed across the two.
- The optional columns of a user row beyond the twelve that formatUser writes, and rows that do not come from formatUser, are decoded only as far as DecodeUserRow reads them.
- Commands.TransferCommand: both accounts are non-null, as every caller passes them; a null account, which would throw, is not modelled.
- Commands.PayBillCommand: the saved previous status, null in the source until the first execute, starts as UNPAID; undo reads it only after an execute has set it.
- StandingOrders.StandingOrder.Transfer: an execution day below 1, for which the source's constructor throws from withDayOfMonth, is excluded by a precondition; StandingOrderManagement.StandingOrderManager.CreateTransferOrder models that exception, after the id has been drawn.
