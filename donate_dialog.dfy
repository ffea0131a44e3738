/** The donation dialog's payment session: choose a network, connect and
    switch the wallet, load the facilitator fee, confirm and pay. Each
    handler, and each effect whose guard holds, is one method changing the
    session. The wallet, the chain switch and the settlement client are
    inputs: the outcome of a call is passed in, as it is when the client
    that `createX402Client` promises has been awaited. The dialog as written
    does not await it; `FeeNeverLoadsAsWritten` states what follows. */
module DonateDialog {
  import opened Wrappers
  import opened JsString
  import opened DonationConfig
  import opened NetworkCatalog
  import opened NetworkUtils
  import opened Amounts

  datatype Step = SelectNetwork | SwitchNetwork | LoadingFee | ConfirmPayment | Processing | Success

  /** The wallet as the dialog sees it. */
  datatype Wallet = Wallet(isConnected: bool, address: Option<string>, chainId: Option<int>, hasClient: bool)

  /** The whole session state, for stating what a method changes. */
  datatype SessionState = SessionState(
    step: Step, selectedNetwork: Option<string>, feeInfo: Option<int>, error: Option<string>,
    txHash: Option<string>, isPaying: bool, isManualNetworkSelection: bool)

  /** The networks offered: those the configuration allows among the
      available ones, or every catalog network when there is no configuration. */
  function SelectableNetworks(config: Option<Config>, available: seq<string>): (r: seq<string>)
    ensures config.None? ==> r == NetworkKeys
    ensures config.Some? ==> r == GetSelectableNetworks(config.value, available)
  {
    if config.Some? then GetSelectableNetworks(config.value, available) else NetworkKeys
  }

  /** Every offered network is a catalog key when the available ones are. */
  lemma SelectableAreCatalogKeys(config: Option<Config>, available: seq<string>)
    requires forall n :: n in available ==> n in NetworkKeys
    ensures forall n :: n in SelectableNetworks(config, available) ==> n in NetworkKeys
  {
  }

  predicate CanChangeNetwork(selectable: seq<string>) {
    |selectable| > 1
  }

  /** The fee error shown: the error's message, or the fixed text when it has none. */
  function FeeErrorMessage(message: string): (m: string)
    ensures message != "" ==> m == message
    ensures message == "" ==> m == "Failed to load facilitator fee"
  {
    if message != "" then message else "Failed to load facilitator fee"
  }

  function PaymentErrorMessage(message: string): (m: string)
    ensures message != "" ==> m == message
    ensures message == "" ==> m == "Payment failed"
  {
    if message != "" then message else "Payment failed"
  }

  function SwitchErrorMessage(network: string): string
    requires network in NetworkKeys
  {
    "Failed to switch to " + NetworkUiConfig[network].displayName
  }

  /** The amounts the dialog shows: the normalised amount, and with a fee
      and a network the formatted fee and the formatted sum of the parsed
      amount and the fee. `parse` and `format` stand for the SDK's
      `parseDefaultAssetAmount` and `formatDefaultAssetAmount`. */
  datatype Display = Display(amount: string, fee: string, total: string)

  function DisplayAmounts(amount: string, feeInfo: Option<int>, selected: Option<string>,
                          parse: (string, string) -> int, format: (int, string) -> string)
    : (d: Display)
    ensures d.amount == StripDollarPrefix(amount)
    ensures feeInfo.Some? && selected.Some? ==>
      d.total == format(parse(StripDollarPrefix(amount), selected.value) + feeInfo.value, selected.value)
      && d.fee == format(feeInfo.value, selected.value)
    ensures !(feeInfo.Some? && selected.Some?) ==> d.fee == "" && d.total == StripDollarPrefix(amount)
  {
    var normalized := StripDollarPrefix(amount);
    if feeInfo.Some? && selected.Some? then
      var atomic := parse(normalized, selected.value);
      Display(normalized, format(feeInfo.value, selected.value), format(atomic + feeInfo.value, selected.value))
    else Display(normalized, "", normalized)
  }

  /** `"$5"` and `"5"` show the same amounts. */
  lemma DollarSignSameTotals(feeInfo: Option<int>, selected: Option<string>,
                             parse: (string, string) -> int, format: (int, string) -> string)
    ensures DisplayAmounts("$5", feeInfo, selected, parse, format) == DisplayAmounts("5", feeInfo, selected, parse, format)
  {
    assert "$5" == "$" + "" + "5";
    assert "5"[..1][0] == '5';
    assert !StartsWith("5", "$") && !IsWhitespace("5"[0]);
    DollarPrefixIrrelevant("", "5");
  }

  /** The dialog applies a stored preference only when it is offered, and
      offered networks are catalog keys, so here the inherited names the
      as-written preference check lets through are never applied. */
  lemma PreferenceCheckHarmlessHere(store: Storage, selectable: seq<string>)
    requires forall n :: n in selectable ==> n in NetworkKeys
    ensures var asWritten := GetPreferredNetworkAsWritten(store);
      var corrected := GetPreferredNetwork(store);
      (asWritten.Some? && asWritten.value in selectable) <==> (corrected.Some? && corrected.value in selectable)
    ensures GetPreferredNetwork(store).Some? ==> GetPreferredNetworkAsWritten(store) == GetPreferredNetwork(store)
  {
  }

  /** The session after `loadFee`: unchanged without a client and an
      address, at confirmation with the fee, or back at network selection
      with the error. */
  function AfterLoadFee(s: SessionState, wallet: Wallet, outcome: Result<int>): (t: SessionState)
    ensures !wallet.hasClient || !Truthy(wallet.address) ==> t == s
    ensures wallet.hasClient && Truthy(wallet.address) && outcome.Ok? ==>
      t == s.(feeInfo := Some(outcome.value), step := ConfirmPayment)
    ensures wallet.hasClient && Truthy(wallet.address) && outcome.Err? ==>
      t == s.(error := Some(FeeErrorMessage(outcome.message)), step := SelectNetwork)
  {
    if !wallet.hasClient || !Truthy(wallet.address) then s
    else match outcome
      case Ok(fee) => s.(feeInfo := Some(fee), step := ConfirmPayment)
      case Err(message) => s.(error := Some(FeeErrorMessage(message)), step := SelectNetwork)
  }

  /** The guard of `handlePay`: a client, a selected network, a loaded fee
      and a truthy `payTo`. */
  predicate PayGuard(s: SessionState, wallet: Wallet, payTo: Option<string>) {
    wallet.hasClient && s.selectedNetwork.Some? && s.feeInfo.Some? && Truthy(payTo)
  }

  /** What the parent hears when a payment ends: `onSuccess` with the
      transaction, the network and the facilitator fee, or `onError` with
      the message. */
  datatype DialogNotification = PaidNotified(txHash: string, network: string, facilitatorFee: int)
                              | PayFailedNotified(message: string)

  /** `createX402Client` is `async`; the dialog calls it without `await`
      and so calls `calculateFee` on a promise, which throws this
      `TypeError`. (Its `execute` call would throw the same way, but with
      no fee loaded the payment guard stops it first.) */
  const CalculateFeeAsWritten: Result<int> := Err("client.calculateFee is not a function")

  /** No fee has been loaded: the session is before confirmation and holds
      no transaction. */
  predicate NoFeeLoaded(s: SessionState) {
    s.feeInfo.None? && s.step in {SelectNetwork, SwitchNetwork, LoadingFee} && s.txHash.None?
  }

  /** As written every fee load throws, so a session without a fee keeps
      none: the load returns to network selection with the `TypeError`'s
      message, confirmation is never reached and the payment guard never
      holds, whatever the wallet and network. */
  lemma FeeNeverLoadsAsWritten(s: SessionState, network: string, wallet: Wallet,
                               sdk: map<string, CoreNetwork>, payTo: Option<string>)
    requires network in sdk && NoFeeLoaded(s)
    ensures var t := AfterLoadFee(s.(step := LoadingFee), wallet, CalculateFeeAsWritten);
      && NoFeeLoaded(t) && !PayGuard(t, wallet, payTo)
      && (wallet.hasClient && Truthy(wallet.address) ==>
            t.step == SelectNetwork && t.error == Some("client.calculateFee is not a function"))
    ensures var t := AfterContinue(s, network, wallet, sdk, CalculateFeeAsWritten);
      NoFeeLoaded(t) && !PayGuard(t, wallet, payTo)
  {
  }

  /** With the client awaited, a loaded fee moves the session to
      confirmation holding that fee, where the payment guard holds for the
      selected network and a truthy `payTo`. */
  lemma AwaitedFeeEnablesPay(s: SessionState, wallet: Wallet, fee: int, payTo: Option<string>)
    requires wallet.hasClient && Truthy(wallet.address) && s.selectedNetwork.Some? && Truthy(payTo)
    ensures var t := AfterLoadFee(s.(step := LoadingFee), wallet, Ok(fee));
      && t.step == ConfirmPayment && t.feeInfo == Some(fee) && t.selectedNetwork == s.selectedNetwork
      && PayGuard(t, wallet, payTo)
  {
  }

  /** The session after continuing towards the fee for `network`: switching
      when the wallet is on another chain, else loading the fee. */
  function AfterContinue(s: SessionState, network: string, wallet: Wallet,
                         sdk: map<string, CoreNetwork>, feeOutcome: Result<int>): (t: SessionState)
    requires network in sdk
    ensures wallet.chainId != Some(sdk[network].chainId) ==> t == s.(step := SwitchNetwork)
    ensures wallet.chainId == Some(sdk[network].chainId) ==> t == AfterLoadFee(s.(step := LoadingFee), wallet, feeOutcome)
  {
    if wallet.chainId != Some(sdk[network].chainId) then s.(step := SwitchNetwork)
    else AfterLoadFee(s.(step := LoadingFee), wallet, feeOutcome)
  }

  /** Continuing never changes the selected network, the paying flag or
      the transaction, and a fee can only appear with confirmation. */
  lemma ContinueKeepsSelection(s: SessionState, network: string, wallet: Wallet,
                               sdk: map<string, CoreNetwork>, feeOutcome: Result<int>)
    requires network in sdk
    ensures var t := AfterContinue(s, network, wallet, sdk, feeOutcome);
      && t.selectedNetwork == s.selectedNetwork && t.isPaying == s.isPaying && t.txHash == s.txHash
      && (t.feeInfo != s.feeInfo ==> t.step == ConfirmPayment)
      && t.step in {SwitchNetwork, LoadingFee, ConfirmPayment, SelectNetwork}
  {
  }

  /** A failed fee load keeps the network selected on the selection step,
      so with a connected wallet and a client the auto-continue guard holds
      again and the attempt repeats. */
  lemma FailedFeeRetries(s: SessionState, network: string, wallet: Wallet,
                         sdk: map<string, CoreNetwork>, message: string)
    requires network in sdk && s.selectedNetwork == Some(network)
    requires wallet.isConnected && wallet.hasClient && Truthy(wallet.address)
    requires wallet.chainId == Some(sdk[network].chainId)
    ensures var t := AfterContinue(s, network, wallet, sdk, Err(message));
      && t.step == SelectNetwork && t.selectedNetwork == Some(network)
      && t.error == Some(FeeErrorMessage(message))
      && AfterContinue(t, network, wallet, sdk, Err(message)) == t
  {
  }

  class PaymentSession {
    var step: Step
    var selectedNetwork: Option<string>
    var feeInfo: Option<int>
    var error: Option<string>
    var txHash: Option<string>
    var isPaying: bool
    var isManualNetworkSelection: bool

    function State(): SessionState
      reads this
    {
      SessionState(step, selectedNetwork, feeInfo, error, txHash, isPaying, isManualNetworkSelection)
    }

    /** What every handler keeps: a selected network is a catalog key; the
        steps after the fee has loaded have a network and a fee; only the
        processing step is paying. */
    predicate Valid()
      reads this
    {
      && (selectedNetwork.Some? ==> selectedNetwork.value in NetworkKeys)
      && (step in {ConfirmPayment, Processing, Success} ==> selectedNetwork.Some? && feeInfo.Some?)
      && (isPaying ==> step == Processing)
    }

    constructor ()
      ensures State() == SessionState(SelectNetwork, None, None, None, None, false, false)
      ensures Valid()
    {
      step := SelectNetwork;
      selectedNetwork := None;
      feeInfo := None;
      error := None;
      txHash := None;
      isPaying := false;
      isManualNetworkSelection := false;
    }

    /** The effect run when the dialog opens: everything back to the start. */
    method Open()
      modifies this
      ensures State() == SessionState(SelectNetwork, None, None, None, None, false, false)
      ensures Valid()
    {
      selectedNetwork := None;
      feeInfo := None;
      error := None;
      isPaying := false;
      txHash := None;
      step := SelectNetwork;
      isManualNetworkSelection := false;
    }

    /** The auto-select effect: a single offered network is selected and
        stored as preferred; otherwise, unless the user asked to change
        network, a stored preference is applied when it is offered. */
    method AutoSelect(isOpen: bool, selectable: seq<string>, store: Storage)
      requires Valid()
      requires forall n :: n in selectable ==> n in NetworkKeys
      modifies this, store
      ensures Valid()
      ensures !isOpen ==> State() == old(State()) && store.items == old(store.items)
      ensures isOpen && |selectable| == 1 ==>
        && State() == old(State()).(selectedNetwork := Some(selectable[0]), isManualNetworkSelection := false)
        && store.items == old(store.items)[PreferredNetworkKey := selectable[0]]
      ensures isOpen && |selectable| != 1 ==> store.items == old(store.items)
      ensures isOpen && |selectable| != 1 ==>
        var preferred := old(GetPreferredNetwork(store));
        if !old(isManualNetworkSelection) && preferred.Some? && preferred.value in selectable
        then State() == old(State()).(selectedNetwork := preferred)
        else State() == old(State())
    {
      if !isOpen {
        return;
      }
      if |selectable| == 1 {
        selectedNetwork := Some(selectable[0]);
        SetPreferredNetwork(store, selectable[0]);
        isManualNetworkSelection := false;
        return;
      }
      if !isManualNetworkSelection {
        var preferred := GetPreferredNetwork(store);
        if preferred.Some? && preferred.value in selectable {
          selectedNetwork := preferred;
        }
      }
    }

    /** `loadFee`: nothing without a client and an address; otherwise the
        fee moves the session to confirmation, a failure back to network
        selection with the error. */
    method LoadFee(wallet: Wallet, outcome: Result<int>)
      requires Valid() && selectedNetwork.Some?
      requires step == LoadingFee
      modifies this
      ensures Valid()
      ensures State() == AfterLoadFee(old(State()), wallet, outcome)
    {
      if !wallet.hasClient || !Truthy(wallet.address) {
        return;
      }
      match outcome {
        case Ok(fee) =>
          feeInfo := Some(fee);
          step := ConfirmPayment;
        case Err(message) =>
          error := Some(FeeErrorMessage(message));
          step := SelectNetwork;
      }
    }

    /** Moves to switching when the wallet is on another chain, else to
        loading the fee, which then runs. */
    method ContinueTo(network: string, wallet: Wallet, sdk: map<string, CoreNetwork>, feeOutcome: Result<int>)
      requires Valid() && IsSdkCatalog(sdk) && selectedNetwork == Some(network)
      requires step !in {ConfirmPayment, Processing, Success} && !isPaying
      modifies this
      ensures Valid()
      ensures State() == AfterContinue(old(State()), network, wallet, sdk, feeOutcome)
    {
      assert network in NetworkKeys;
      var targetChainId := Networks(sdk)[network].core.chainId;
      assert targetChainId == sdk[network].chainId;
      if wallet.chainId != Some(targetChainId) {
        step := SwitchNetwork;
      } else {
        step := LoadingFee;
        LoadFee(wallet, feeOutcome);
      }
    }

    /** The auto-continue effect: once connected with a client and a
        selected network on the selection step, continue towards the fee. */
    method AutoContinue(wallet: Wallet, sdk: map<string, CoreNetwork>, feeOutcome: Result<int>)
      requires Valid() && IsSdkCatalog(sdk)
      modifies this
      ensures Valid()
      ensures !(wallet.isConnected && old(selectedNetwork).Some? && old(step) == SelectNetwork && wallet.hasClient) ==>
        State() == old(State())
      ensures wallet.isConnected && old(selectedNetwork).Some? && old(step) == SelectNetwork && wallet.hasClient ==>
        State() == AfterContinue(old(State()), old(selectedNetwork).value, wallet, sdk, feeOutcome)
    {
      if wallet.isConnected && selectedNetwork.Some? && step == SelectNetwork && wallet.hasClient {
        ContinueTo(selectedNetwork.value, wallet, sdk, feeOutcome);
      }
    }

    /** The switch effect: a successful switch goes on to load the fee; a
        failed one reports it and returns to network selection, keeping
        the network. */
    method SwitchEffect(wallet: Wallet, switched: bool, feeOutcome: Result<int>)
      requires Valid()
      modifies this
      ensures Valid()
      ensures !(old(step) == SwitchNetwork && old(selectedNetwork).Some? && wallet.isConnected) ==>
        State() == old(State())
      ensures old(step) == SwitchNetwork && old(selectedNetwork).Some? && wallet.isConnected && !switched ==>
        State() == old(State()).(error := Some(SwitchErrorMessage(old(selectedNetwork).value)), step := SelectNetwork)
      ensures old(step) == SwitchNetwork && old(selectedNetwork).Some? && wallet.isConnected && switched ==>
        State() == AfterLoadFee(old(State()).(step := LoadingFee), wallet, feeOutcome)
    {
      if step == SwitchNetwork && selectedNetwork.Some? && wallet.isConnected {
        if switched {
          step := LoadingFee;
          LoadFee(wallet, feeOutcome);
        } else {
          error := Some(SwitchErrorMessage(selectedNetwork.value));
          step := SelectNetwork;
        }
      }
    }

    /** `handleNetworkSelect`: records the choice and the preference and
        clears the error; disconnected, it asks for the wallet (the result)
        and keeps the step; connected, it continues towards the fee. */
    method HandleNetworkSelect(network: string, wallet: Wallet, store: Storage,
                               sdk: map<string, CoreNetwork>, feeOutcome: Result<int>)
      returns (opensWallet: bool)
      requires Valid() && IsSdkCatalog(sdk) && network in NetworkKeys
      requires step in {SelectNetwork, SwitchNetwork, LoadingFee} && !isPaying
      modifies this, store
      ensures Valid()
      ensures store.items == old(store.items)[PreferredNetworkKey := network]
      ensures opensWallet <==> !wallet.isConnected
      ensures selectedNetwork == Some(network) && !isManualNetworkSelection
      ensures !wallet.isConnected ==>
        State() == old(State()).(selectedNetwork := Some(network), error := None, isManualNetworkSelection := false)
      ensures wallet.isConnected ==>
        State() == AfterContinue(old(State()).(selectedNetwork := Some(network), error := None,
                                               isManualNetworkSelection := false), network, wallet, sdk, feeOutcome)
    {
      selectedNetwork := Some(network);
      SetPreferredNetwork(store, network);
      error := None;
      isManualNetworkSelection := false;
      if !wallet.isConnected {
        return true;
      }
      ContinueTo(network, wallet, sdk, feeOutcome);
      return false;
    }

    /** The first half of `handlePay`: nothing without a client, a network,
        a fee and a recipient; otherwise the session is paying. */
    method StartPay(wallet: Wallet, payTo: Option<string>) returns (started: bool)
      requires Valid()
      modifies this
      ensures Valid()
      ensures started <==> PayGuard(old(State()), wallet, payTo)
      ensures !started ==> State() == old(State())
      ensures started ==> State() == old(State()).(isPaying := true, error := None, step := Processing)
    {
      if !wallet.hasClient || selectedNetwork.None? || feeInfo.None? || !Truthy(payTo) {
        return false;
      }
      isPaying := true;
      error := None;
      step := Processing;
      return true;
    }

    /** The second half of `handlePay`: success records the transaction and
        notifies it with the network and the fee, failure returns to
        confirmation and notifies the error; paying ends either way. */
    method FinishPay(outcome: Result<string>) returns (note: DialogNotification)
      requires Valid() && step == Processing
      modifies this
      ensures Valid() && !isPaying
      ensures outcome.Ok? ==> note == PaidNotified(outcome.value, old(selectedNetwork).value, old(feeInfo).value)
      ensures outcome.Err? ==> note == PayFailedNotified(PaymentErrorMessage(outcome.message))
      ensures outcome.Ok? ==> State() == old(State()).(txHash := Some(outcome.value), step := Success, isPaying := false)
      ensures outcome.Err? ==>
        State() == old(State()).(error := Some(PaymentErrorMessage(outcome.message)), step := ConfirmPayment, isPaying := false)
    {
      match outcome {
        case Ok(hash) =>
          txHash := Some(hash);
          step := Success;
          note := PaidNotified(hash, selectedNetwork.value, feeInfo.value);
        case Err(message) =>
          error := Some(PaymentErrorMessage(message));
          step := ConfirmPayment;
          note := PayFailedNotified(PaymentErrorMessage(message));
      }
      isPaying := false;
    }

    /** `handlePay`, start to finish, with what the parent is told. */
    method HandlePay(wallet: Wallet, payTo: Option<string>, outcome: Result<string>)
      returns (note: Option<DialogNotification>)
      requires Valid()
      modifies this
      ensures Valid()
      ensures !PayGuard(old(State()), wallet, payTo) ==> State() == old(State()) && note.None?
      ensures PayGuard(old(State()), wallet, payTo) ==>
        && selectedNetwork == old(selectedNetwork) && feeInfo == old(feeInfo) && !isPaying
        && (outcome.Ok? ==> step == Success && txHash == Some(outcome.value) && error.None?
                            && note == Some(PaidNotified(outcome.value, old(selectedNetwork).value, old(feeInfo).value)))
        && (outcome.Err? ==> step == ConfirmPayment && error == Some(PaymentErrorMessage(outcome.message))
                             && note == Some(PayFailedNotified(PaymentErrorMessage(outcome.message))))
    {
      var started := StartPay(wallet, payTo);
      if started {
        var n := FinishPay(outcome);
        note := Some(n);
      } else {
        note := None;
      }
    }

    /** The change-network button: back to selection with nothing
        selected and the manual flag set, so no preference is re-applied. */
    method ChangeNetwork()
      requires Valid()
      modifies this
      ensures Valid()
      ensures old(isPaying) ==> State() == old(State())
      ensures !old(isPaying) ==> State() == old(State()).(selectedNetwork := None, feeInfo := None,
        error := None, isManualNetworkSelection := true, step := SelectNetwork)
    {
      if isPaying {
        return;
      }
      selectedNetwork := None;
      feeInfo := None;
      error := None;
      isManualNetworkSelection := true;
      step := SelectNetwork;
    }

    /** `handleClose`: the dialog closes only when no payment is running. */
    function HandleClose(): (closes: bool)
      reads this
      ensures closes <==> !isPaying
      ensures Valid() && step == Processing && isPaying ==> !closes
    {
      !isPaying
    }
  }

  /** After a failed switch the network is still selected on the selection
      step, so the auto-continue guard holds again and the attempt repeats. */
  lemma FailedSwitchRetries(s: SessionState, wallet: Wallet, sdk: map<string, CoreNetwork>, feeOutcome: Result<int>)
    requires s.step == SwitchNetwork && s.selectedNetwork.Some? && s.selectedNetwork.value in NetworkKeys
    requires IsSdkCatalog(sdk) && wallet.chainId != Some(sdk[s.selectedNetwork.value].chainId)
    ensures var t := s.(error := Some(SwitchErrorMessage(s.selectedNetwork.value)), step := SelectNetwork);
      && t.selectedNetwork == s.selectedNetwork && t.step == SelectNetwork
      && AfterContinue(t, s.selectedNetwork.value, wallet, sdk, feeOutcome).step == SwitchNetwork
  {
  }
}
