/** The payment hook: a guard chain, then a settlement through the client,
    recorded as a status, an error message and a result. The client and
    the SDK's amount parser are inputs. */
module UseX402Payment {
  import opened Wrappers
  import opened JsString
  import opened DonationConfig
  import opened X402

  datatype PaymentStatus = Idle | Preparing | Signing | Submitting | PaymentSuccess | PaymentError

  /** What was thrown: an `Error` with its message, or some other value. */
  datatype Thrown = ErrorObject(message: string) | OtherValue

  /** How the client calls went: creating the client failed, executing
      failed, or the transfer was submitted. */
  datatype ClientOutcome =
    | CreateFailed(createError: Thrown)
    | ExecuteFailed(executeError: Thrown)
    | Executed(txHash: string, receipt: string)

  datatype Settlement = Settlement(amount: int, payTo: string)

  datatype PaymentResult = PaymentResult(
    txHash: string, network: string, payer: string, receipt: string, settlement: Settlement)

  /** What `execute` reported through the callbacks. */
  datatype Notification = NoNotification | ErrorNotified(error: string) | SuccessNotified(result: PaymentResult)

  const DefaultNetwork := "base-sepolia"

  /** The message recorded for a thrown value. */
  function ThrownMessage(t: Thrown): (m: string)
    ensures t.ErrorObject? ==> m == t.message
    ensures t.OtherValue? ==> m == "Donation failed"
  {
    match t
    case ErrorObject(message) => message
    case OtherValue => "Donation failed"
  }

  /** The guard chain in order: the first failing check's message, if any. */
  function GuardError(isConnected: bool, address: Option<string>, hasClient: bool,
                      recipients: seq<Recipient>): (e: Option<string>)
    ensures (!isConnected || !Truthy(address)) ==> e == Some("Please connect your wallet first")
    ensures isConnected && Truthy(address) && !hasClient ==> e == Some("Wallet client not available")
    ensures isConnected && Truthy(address) && hasClient && !ValidateRecipientConfig(recipients) ==>
      e == Some("Invalid recipient configuration")
    ensures e.None? <==> isConnected && Truthy(address) && hasClient && ValidateRecipientConfig(recipients)
  {
    if !isConnected || !Truthy(address) then Some("Please connect your wallet first")
    else if !hasClient then Some("Wallet client not available")
    else if !ValidateRecipientConfig(recipients) then Some("Invalid recipient configuration")
    else None
  }

  class PaymentHook {
    var status: PaymentStatus
    var error: string
    var result: Option<PaymentResult>

    constructor ()
      ensures status == Idle && error == "" && result.None?
    {
      status := Idle;
      error := "";
      result := None;
    }

    /** `execute`. `statuses` lists the statuses set, in order; the
        notification is what the callbacks received. */
    method Execute(amount: string, recipients: seq<Recipient>, network: Option<string>,
                   isConnected: bool, address: Option<string>, hasClient: bool,
                   hooks: HookCatalog, parse: (string, string) -> int, client: ClientOutcome)
      returns (statuses: seq<PaymentStatus>, notified: Notification)
      modifies this
      ensures var guard := GuardError(isConnected, address, hasClient, recipients);
        guard.Some? ==>
          && status == PaymentError && error == guard.value && result == old(result)
          && statuses == [PaymentError] && notified == ErrorNotified(guard.value)
      ensures GuardError(isConnected, address, hasClient, recipients).None? ==>
        |statuses| >= 2 && statuses[0] == Preparing && statuses[|statuses| - 1] == status
      ensures var n := network.GetOr(DefaultNetwork);
        GuardError(isConnected, address, hasClient, recipients).None? && client.Executed? && n in hooks ==>
          && status == PaymentSuccess && error == ""
          && statuses == [Preparing, Signing, Submitting, PaymentSuccess]
          && result == Some(PaymentResult(client.txHash, n, address.value, client.receipt,
                                          Settlement(parse(amount, n), GetPrimaryRecipient(recipients))))
          && notified == SuccessNotified(result.value)
      ensures var n := network.GetOr(DefaultNetwork);
        GuardError(isConnected, address, hasClient, recipients).None? && !(client.Executed? && n in hooks) ==>
          && status == PaymentError && result.None?
          && error == (if client.CreateFailed? then ThrownMessage(client.createError)
                       else if n !in hooks then "Unsupported network: " + n
                       else ThrownMessage(client.executeError))
          && notified == ErrorNotified(error)
    {
      var guard := GuardError(isConnected, address, hasClient, recipients);
      if guard.Some? {
        error := guard.value;
        status := PaymentError;
        return [PaymentError], ErrorNotified(guard.value);
      }
      var n := network.GetOr(DefaultNetwork);
      status := Preparing;
      error := "";
      result := None;
      statuses := [Preparing];
      var atomicAmount := parse(amount, n);
      if client.CreateFailed? {
        error := ThrownMessage(client.createError);
        status := PaymentError;
        return statuses + [PaymentError], ErrorNotified(error);
      }
      var hookData := EncodeRecipientsForHook(recipients);
      var hookAddress := GetTransferHookAddress(hooks, n);
      if hookAddress.Err? {
        error := hookAddress.message;
        status := PaymentError;
        return statuses + [PaymentError], ErrorNotified(error);
      }
      var payTo := GetPrimaryRecipient(recipients);
      status := Signing;
      statuses := statuses + [Signing];
      if client.ExecuteFailed? {
        error := ThrownMessage(client.executeError);
        status := PaymentError;
        return statuses + [PaymentError], ErrorNotified(error);
      }
      status := Submitting;
      statuses := statuses + [Submitting];
      var finalResult := PaymentResult(client.txHash, n, address.value, client.receipt, Settlement(atomicAmount, payTo));
      result := Some(finalResult);
      status := PaymentSuccess;
      statuses := statuses + [PaymentSuccess];
      notified := SuccessNotified(finalResult);
    }

    /** `reset`. */
    method Reset()
      modifies this
      ensures status == Idle && error == "" && result.None?
    {
      status := Idle;
      error := "";
      result := None;
    }
  }

  /** The settlement pays the first recipient, whose address is never empty. */
  lemma PaysFirstRecipient(recipients: seq<Recipient>)
    requires ValidateRecipientConfig(recipients) && recipients[0].address != ""
    ensures GetPrimaryRecipient(recipients) == recipients[0].address
  {
  }

  /** A list passing the guard always has a first recipient to pay. */
  lemma GuardPassedHasRecipient(isConnected: bool, address: Option<string>, hasClient: bool,
                               recipients: seq<Recipient>)
    requires GuardError(isConnected, address, hasClient, recipients).None?
    ensures |recipients| > 0 && SumBips(recipients) <= MaxBips
  {
  }
}
