/** The quick-link wizard: a source step (a wallet address or an ENS
    name), a configuration step and a generate step whose result is a
    `/give` URL with query parameters. */
module QuickLinkWizard {
  import opened Wrappers
  import opened JsString
  import opened StepWizard
  import Percent

  datatype SourceType = WalletSource | EnsSource

  datatype QuickLinkBuilderState = QuickLinkBuilderState(
    sourceType: SourceType,
    walletAddress: Option<string>,
    ens: Option<string>,
    amount: Option<string>,
    network: string)

  const InitialState := QuickLinkBuilderState(WalletSource, None, None, None, "base-sepolia")

  datatype Step = SourceInfo | Configuration | Generate

  const Steps: seq<Step> := [SourceInfo, Configuration, Generate]

  function StepIndex(step: Step): (i: nat)
    ensures i < |Steps| && Steps[i] == step
  {
    match step
    case SourceInfo => 0
    case Configuration => 1
    case Generate => 2
  }

  /** The source parameter: `to=` for a wallet, `ens=` for a name, when set. */
  function SourceParam(s: QuickLinkBuilderState): string {
    if s.sourceType == WalletSource && Truthy(s.walletAddress) then "to=" + s.walletAddress.value
    else if s.sourceType == EnsSource && Truthy(s.ens) then "ens=" + s.ens.value
    else ""
  }

  /** The query string: the source parameter first, then the amount,
      joined with `&` only when both are there. */
  function Params(s: QuickLinkBuilderState): string {
    var source := SourceParam(s);
    if Truthy(s.amount) then
      source + (if source != "" then "&" else "") + "amount=" + Percent.EncodeUriComponent(s.amount.value)
    else source
  }

  /** `generateDonationUrl`. */
  function DonationUrl(origin: string, s: QuickLinkBuilderState): (u: string)
    ensures Params(s) == "" ==> u == ""
    ensures Params(s) != "" ==> u == origin + "/give?" + Params(s)
  {
    var params := Params(s);
    if params != "" then origin + "/give?" + params else ""
  }

  /** The URL for each combination of source and amount. */
  lemma DonationUrlCases(origin: string, s: QuickLinkBuilderState)
    ensures SourceParam(s) == "" && !Truthy(s.amount) ==> DonationUrl(origin, s) == ""
    ensures SourceParam(s) == "" && Truthy(s.amount) ==>
      DonationUrl(origin, s) == origin + "/give?amount=" + Percent.EncodeUriComponent(s.amount.value)
    ensures SourceParam(s) != "" && Truthy(s.amount) ==>
      DonationUrl(origin, s) == origin + "/give?" + SourceParam(s) + "&amount=" + Percent.EncodeUriComponent(s.amount.value)
    ensures SourceParam(s) != "" && !Truthy(s.amount) ==>
      DonationUrl(origin, s) == origin + "/give?" + SourceParam(s)
    ensures s.sourceType == WalletSource && Truthy(s.walletAddress) ==>
      SourceParam(s) == "to=" + s.walletAddress.value
    ensures s.sourceType == EnsSource && Truthy(s.ens) ==> SourceParam(s) == "ens=" + s.ens.value
  {
    var src := SourceParam(s);
    if Truthy(s.amount) {
      var e := Percent.EncodeUriComponent(s.amount.value);
      var give := origin + "/give?";
      if src == "" {
        assert Params(s) == "amount=" + e;
        assert "/give?" + "amount=" == "/give?amount=";
        ConcatAssoc(origin, "/give?", "amount=");
        ConcatAssoc(give, "amount=", e);
      } else {
        assert Params(s) == src + "&" + "amount=" + e;
        assert "&" + "amount=" == "&amount=";
        ConcatAssoc(src, "&", "amount=");
        assert give + (src + "&amount=" + e) == give + src + "&amount=" + e;
      }
    }
  }

  /** `getStepCompleted`. */
  predicate StepCompleted(origin: string, s: QuickLinkBuilderState, step: Step) {
    match step
    case SourceInfo => if s.sourceType == WalletSource then Truthy(s.walletAddress) else Truthy(s.ens)
    case Configuration => true
    case Generate => DonationUrl(origin, s) != ""
  }

  /** The source step's rule: a valid wallet address, or a `.eth` name. */
  predicate SourceValid(s: QuickLinkBuilderState, isAddress: string -> bool) {
    if s.sourceType == WalletSource then Truthy(s.walletAddress) && isAddress(s.walletAddress.value)
    else Truthy(s.ens) && EndsWith(s.ens.value, ".eth")
  }

  /** `getStepValid`: the generate step needs the source and configuration
      steps, and the configuration step is always valid. */
  predicate StepValid(s: QuickLinkBuilderState, step: Step, isAddress: string -> bool) {
    match step
    case SourceInfo => SourceValid(s, isAddress)
    case Configuration => true
    case Generate => SourceValid(s, isAddress)
  }

  /** The generate step is valid exactly when the source step is, and a
      valid source always gives a URL, which completes the generate step. */
  lemma GenerateStepIff(origin: string, s: QuickLinkBuilderState, isAddress: string -> bool)
    ensures StepValid(s, Generate, isAddress) <==> StepValid(s, SourceInfo, isAddress)
    ensures StepValid(s, SourceInfo, isAddress) ==> StepCompleted(origin, s, Generate)
  {
    if StepValid(s, SourceInfo, isAddress) {
      assert SourceParam(s) != "";
      assert Params(s) != "" by {
        if Truthy(s.amount) {
          assert |Params(s)| >= |SourceParam(s)|;
        }
      }
    }
  }

  /** Choosing the wallet source clears the ENS name; choosing ENS clears the wallet. */
  function ChooseSource(s: QuickLinkBuilderState, t: SourceType): (r: QuickLinkBuilderState)
    ensures r.sourceType == t
    ensures t == WalletSource ==> r.ens.None? && r.walletAddress == s.walletAddress
    ensures t == EnsSource ==> r.walletAddress.None? && r.ens == s.ens
    ensures r.amount == s.amount && r.network == s.network
  {
    match t
    case WalletSource => s.(sourceType := WalletSource, ens := None)
    case EnsSource => s.(sourceType := EnsSource, walletAddress := None)
  }

  /** After switching source, the URL never carries the other source. */
  lemma SwitchedSourceParam(s: QuickLinkBuilderState, t: SourceType)
    ensures t == WalletSource ==> !StartsWith(SourceParam(ChooseSource(s, t)), "ens=")
    ensures t == EnsSource ==> !StartsWith(SourceParam(ChooseSource(s, t)), "to=")
  {
    var r := ChooseSource(s, t);
    var p := SourceParam(r);
    assert p == "" || p[0] == 't' || p[0] == 'e';
    if t == WalletSource && p != "" {
      assert p[0] == 't';
      assert "ens="[0] == 'e';
    }
    if t == EnsSource && p != "" {
      assert p[0] == 'e';
      assert "to="[0] == 't';
    }
  }

  /** The wizard: the current step and the form state. */
  class Wizard {
    var current: nat
    var state: QuickLinkBuilderState

    predicate Valid()
      reads this
    {
      current < |Steps|
    }

    constructor ()
      ensures Valid() && current == 0 && state == InitialState
    {
      current := 0;
      state := InitialState;
    }

    /** One of the two source buttons. */
    method SelectSource(t: SourceType)
      modifies this
      ensures state == ChooseSource(old(state), t) && current == old(current)
    {
      state := ChooseSource(state, t);
    }

    /** A field of the form was edited. */
    method Edit(s: QuickLinkBuilderState)
      modifies this
      ensures state == s && current == old(current)
    {
      state := s;
    }

    method HandleStepClick(target: Step, isAddress: string -> bool)
      requires Valid()
      modifies this
      ensures Valid() && state == old(state)
      ensures current == IndicatorClickIndex(old(current), StepIndex(target),
        StepValid(state, target, isAddress), StepValid(state, Steps[old(current)], isAddress))
    {
      if StepValid(state, target, isAddress) {
        var currentValid := StepValid(state, Steps[current], isAddress);
        current := ClickIndex(current, StepIndex(target), currentValid);
      }
    }

    method PressNext(isAddress: string -> bool)
      requires Valid()
      modifies this
      ensures Valid() && state == old(state)
      ensures CanProceed(old(current), |Steps|, StepValid(state, Steps[old(current)], isAddress)) ==>
        current == old(current) + 1
      ensures !CanProceed(old(current), |Steps|, StepValid(state, Steps[old(current)], isAddress)) ==>
        current == old(current)
    {
      if CanProceed(current, |Steps|, StepValid(state, Steps[current], isAddress)) {
        current := NextIndex(current, |Steps|);
      }
    }
  }
}
