/**
 * ExternalTransfer, the refined abstraction of the transfer bridge: a chain
 * of checks on the request, the gateway call through the implementor, and
 * the debit of amount + fee on success. The implementor is its rail (SEPA or
 * SWIFT, which fixes the fee and the name) and whether the service is up;
 * the gateway's answer is an input.
 */
module Bridge {
  import opened Wrappers
  import opened Accounts
  import Ledger

  /** TransferImplementor.TransferRequest; a null field is None. */
  datatype TransferRequest = TransferRequest(
    senderAccount: Option<string>,
    recipientAccount: Option<string>,
    recipientName: Option<string>,
    recipientAddress: Option<string>,
    amount: Option<real>,
    currency: Option<string>,
    bankCode: Option<string>,
    bankName: Option<string>,
    bankCountry: Option<string>,
    chargeModel: Option<string>,
    description: Option<string>)

  /** new TransferRequest(): currency EUR and charge model SHA, everything else null. */
  function NewRequest(): TransferRequest {
    TransferRequest(None, None, None, None, None, Some("EUR"), None, None, None, Some("SHA"), None)
  }

  /** TransferImplementor.TransferResult. */
  datatype BridgeResult = BridgeResult(
    success: bool,
    message: Option<string>,
    transactionId: Option<string>,
    errorCode: Option<string>)

  /** TransferResult.failure(message, code). */
  function Failure(message: Option<string>, errorCode: string): BridgeResult {
    BridgeResult(false, message, None, Some(errorCode))
  }

  /** A SepaImplementor or SwiftImplementor, and whether its service answers. */
  datatype Implementor = Implementor(rail: Ledger.Rail, available: bool)

  function Fee(i: Implementor): real {
    Ledger.RailFee(i.rail)
  }

  function MechanismName(i: Implementor): string {
    Ledger.RailName(i.rail)
  }

  /** The request has a positive amount. */
  predicate AmountGiven(request: TransferRequest) {
    request.amount.Some? && request.amount.value > 0.0
  }

  /** The request names a non-empty recipient account. */
  predicate RecipientGiven(request: TransferRequest) {
    request.recipientAccount.Some? && request.recipientAccount.value != ""
  }

  /**
   * The checks of transfer, in order: the first that fails gives the result.
   * The insufficient-funds message renders two amounts with %.2f and is not
   * modelled (None).
   */
  function Refusal(request: TransferRequest, balance: real, i: Implementor): Option<BridgeResult> {
    if request.amount.None? || request.amount.value <= 0.0 then
      Some(Failure(Some("Invalid amount"), "VALIDATION_ERROR"))
    else if request.recipientAccount.None? || request.recipientAccount.value == "" then
      Some(Failure(Some("Recipient account is required"), "VALIDATION_ERROR"))
    else if balance < request.amount.value + Fee(i) then
      Some(Failure(None, "INSUFFICIENT_FUNDS"))
    else if !i.available then
      Some(Failure(Some(MechanismName(i) + " service is currently unavailable"), "SERVICE_UNAVAILABLE"))
    else None
  }

  /**
   * transfer(fromAccount, request): a refusal changes nothing; otherwise the
   * gateway's result is returned as it is, after a debit of amount + fee when
   * it reports success. A debit that throws (the account is not ACTIVE)
   * propagates the exception.
   */
  function Transferred(s: AccountState, request: TransferRequest, i: Implementor, gateway: BridgeResult)
    : (AccountState, Result<BridgeResult, Exception>)
  {
    match Refusal(request, s.balance, i)
    case Some(f) => (s, Ok(f))
    case None =>
      if !gateway.success then (s, Ok(gateway))
      else match Withdrawn(s, request.amount.value + Fee(i))
        case Err(e) => (s, Err(e))
        case Ok(s') => (s', Ok(gateway))
  }

  /** The request the simplified overload builds. */
  function SimpleRequest(senderIban: string, toAccount: Option<string>, amount: Option<real>,
                         description: Option<string>): TransferRequest {
    NewRequest().(senderAccount := Some(senderIban), recipientAccount := toAccount,
                  amount := amount, description := description)
  }

  class ExternalTransfer {
    var implementor: Implementor

    constructor(implementor: Implementor)
      ensures this.implementor == implementor
    {
      this.implementor := implementor;
    }

    /** createSepaTransfer. */
    constructor Sepa(available: bool)
      ensures implementor == Implementor(Ledger.Sepa, available)
    {
      implementor := Implementor(Ledger.Sepa, available);
    }

    /** createSwiftTransfer. */
    constructor Swift(available: bool)
      ensures implementor == Implementor(Ledger.Swift, available)
    {
      implementor := Implementor(Ledger.Swift, available);
    }

    /** setImplementor. */
    method SetImplementor(implementor: Implementor)
      modifies this
      ensures this.implementor == implementor
    {
      this.implementor := implementor;
    }

    /** transfer(fromAccount, request); `gateway` is what executeTransfer answers. */
    method Transfer(fromAccount: Account, request: TransferRequest, gateway: BridgeResult)
      returns (r: Result<BridgeResult, Exception>)
      modifies fromAccount
      ensures (fromAccount.State(), r) == Transferred(old(fromAccount.State()), request, implementor, gateway)
    {
      if request.amount.None? || request.amount.value <= 0.0 {
        return Ok(Failure(Some("Invalid amount"), "VALIDATION_ERROR"));
      }
      if request.recipientAccount.None? || request.recipientAccount.value == "" {
        return Ok(Failure(Some("Recipient account is required"), "VALIDATION_ERROR"));
      }
      var totalAmount := request.amount.value + Fee(implementor);
      if fromAccount.balance < totalAmount {
        return Ok(Failure(None, "INSUFFICIENT_FUNDS"));
      }
      if !implementor.available {
        return Ok(Failure(Some(MechanismName(implementor) + " service is currently unavailable"), "SERVICE_UNAVAILABLE"));
      }
      var result := gateway;
      if result.success {
        var o := fromAccount.Withdraw(totalAmount);
        if o.Fail? {
          return Err(o.error);
        }
      }
      r := Ok(result);
    }

    /** transfer(fromAccount, toAccount, amount, description). */
    method TransferTo(fromAccount: Account, toAccount: Option<string>, amount: Option<real>,
                      description: Option<string>, gateway: BridgeResult)
      returns (r: Result<BridgeResult, Exception>)
      modifies fromAccount
      ensures (fromAccount.State(), r) ==
        Transferred(old(fromAccount.State()), SimpleRequest(fromAccount.iban, toAccount, amount, description),
                    implementor, gateway)
    {
      var request := NewRequest();
      request := request.(senderAccount := Some(fromAccount.iban));
      request := request.(recipientAccount := toAccount);
      request := request.(amount := amount);
      request := request.(description := description);
      r := Transfer(fromAccount, request, gateway);
    }
  }

  // -----------------------------------------------------------------------
  // Properties
  // -----------------------------------------------------------------------

  /**
   * The checks run in a fixed order and the first failure decides: amount,
   * then recipient (both VALIDATION_ERROR), then funds including the fee
   * (INSUFFICIENT_FUNDS), then availability (SERVICE_UNAVAILABLE).
   */
  lemma RefusalOrder(request: TransferRequest, balance: real, i: Implementor)
    ensures var f := Refusal(request, balance, i);
      f.None? <==> AmountGiven(request) && RecipientGiven(request) &&
                   balance >= request.amount.value + Fee(i) && i.available
    ensures var f := Refusal(request, balance, i);
      f.Some? ==> !f.value.success && f.value.transactionId.None?
    ensures !AmountGiven(request) ==>
      Refusal(request, balance, i).value.errorCode == Some("VALIDATION_ERROR")
    ensures AmountGiven(request) && !RecipientGiven(request) ==>
      Refusal(request, balance, i).value.errorCode == Some("VALIDATION_ERROR")
    ensures AmountGiven(request) && RecipientGiven(request) && balance < request.amount.value + Fee(i) ==>
      Refusal(request, balance, i).value.errorCode == Some("INSUFFICIENT_FUNDS")
    ensures AmountGiven(request) && RecipientGiven(request) && balance >= request.amount.value + Fee(i) &&
            !i.available ==>
      Refusal(request, balance, i).value.errorCode == Some("SERVICE_UNAVAILABLE")
  {
  }

  /**
   * A refused transfer leaves the account as it was and does not depend on
   * the gateway at all, so the gateway is never asked.
   */
  lemma RefusalTouchesNothing(s: AccountState, request: TransferRequest, i: Implementor, g1: BridgeResult, g2: BridgeResult)
    requires Refusal(request, s.balance, i).Some?
    ensures Transferred(s, request, i, g1) == Transferred(s, request, i, g2)
    ensures Transferred(s, request, i, g1) == (s, Ok(Refusal(request, s.balance, i).value))
  {
  }

  /**
   * Past the checks, a failed gateway answer is returned as it is with no
   * debit; a successful one on an ACTIVE account debits exactly amount + fee,
   * which the balance covers, and is returned as it is.
   */
  lemma GatewayDecides(s: AccountState, request: TransferRequest, i: Implementor, gateway: BridgeResult)
    requires Refusal(request, s.balance, i).None?
    ensures !gateway.success ==> Transferred(s, request, i, gateway) == (s, Ok(gateway))
    ensures gateway.success && s.status == Active ==>
      var (s', r) := Transferred(s, request, i, gateway);
      r == Ok(gateway) && s' == s.(balance := s.balance - (request.amount.value + Fee(i))) && s'.balance >= 0.0
    ensures gateway.success && s.status != Active ==>
      Transferred(s, request, i, gateway) == (s, Err(IllegalState("Account is not active")))
  {
    Ledger.RailFees();
  }

  /** SEPA charges 1.50 and SWIFT 25.00. */
  lemma Fees(available: bool)
    ensures Fee(Implementor(Ledger.Sepa, available)) == 1.50
    ensures Fee(Implementor(Ledger.Swift, available)) == 25.00
  {
    Ledger.RailFees();
  }

  /**
   * The simplified overload carries the sender's IBAN, the recipient, the
   * amount and the description, with the EUR and SHA defaults and nothing else.
   */
  lemma SimpleRequestDefaults(senderIban: string, toAccount: Option<string>, amount: Option<real>,
                              description: Option<string>)
    ensures var q := SimpleRequest(senderIban, toAccount, amount, description);
      q.senderAccount == Some(senderIban) && q.recipientAccount == toAccount && q.amount == amount &&
      q.description == description && q.currency == Some("EUR") && q.chargeModel == Some("SHA") &&
      q.recipientName.None? && q.recipientAddress.None? && q.bankCode.None? &&
      q.bankName.None? && q.bankCountry.None?
  {
  }
}
