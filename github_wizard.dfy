/** The GitHub-verified link wizard: repository, recipient address,
    configuration and deploy steps over one form state, the starter
    configuration it offers, the GitHub new-file URL and the donation URL. */
module GitHubWizard {
  import opened Wrappers
  import opened JsString
  import opened DonationConfig
  import opened StepWizard
  import Json
  import Percent

  datatype GitHubBuilderState = GitHubBuilderState(
    amount: Option<string>,
    network: string,
    username: Option<string>,
    repo: Option<string>,
    branch: Option<string>,
    walletAddress: Option<string>)

  const InitialState := GitHubBuilderState(None, "base-sepolia", None, None, None, None)

  /** The steps, in order. */
  datatype Step = RepoInfo | RecipientAddress | Configuration | Deploy

  const Steps: seq<Step> := [RepoInfo, RecipientAddress, Configuration, Deploy]

  function StepIndex(step: Step): (i: nat)
    ensures i < |Steps| && Steps[i] == step
  {
    match step
    case RepoInfo => 0
    case RecipientAddress => 1
    case Configuration => 2
    case Deploy => 3
  }

  /** `getStepCompleted`. */
  predicate StepCompleted(s: GitHubBuilderState, step: Step) {
    match step
    case RepoInfo => Truthy(s.username) && Truthy(s.repo) && Truthy(s.branch)
    case RecipientAddress => Truthy(s.walletAddress)
    case Configuration => true
    case Deploy => false
  }

  /** `getStepValid`. */
  predicate StepValid(s: GitHubBuilderState, step: Step, isAddress: string -> bool) {
    match step
    case RepoInfo => Truthy(s.username) && Truthy(s.repo)
    case RecipientAddress => Truthy(s.walletAddress) && isAddress(s.walletAddress.value)
    case Configuration => true
    case Deploy => Truthy(s.username) && Truthy(s.repo) && Truthy(s.walletAddress) && isAddress(s.walletAddress.value)
  }

  /** The deploy step is valid exactly when the three before it are. */
  lemma DeployValidIff(s: GitHubBuilderState, isAddress: string -> bool)
    ensures StepValid(s, Deploy, isAddress) <==>
      StepValid(s, RepoInfo, isAddress) && StepValid(s, RecipientAddress, isAddress) && StepValid(s, Configuration, isAddress)
  {
  }

  /** A repository step that is complete is valid; the deploy step is
      never complete. */
  lemma CompletionImpliesValidity(s: GitHubBuilderState, isAddress: string -> bool)
    ensures StepCompleted(s, RepoInfo) ==> StepValid(s, RepoInfo, isAddress)
    ensures !StepCompleted(s, Deploy)
  {
  }

  /** A template literal's rendering of an optional string. */
  function Interpolate(o: Option<string>): string {
    if o.Some? then o.value else "undefined"
  }

  /** The configuration object `generateConfigJson` serialises: `None` for
      the empty string it returns without a repository or wallet. */
  function StarterConfig(s: GitHubBuilderState): (j: Option<Json.Json>)
    ensures j.None? <==> !Truthy(s.repo) || !Truthy(s.walletAddress)
    ensures j.Some? ==> j.value == Json.JObj([
      Json.Member("name", Json.JStr(s.repo.value)),
      Json.Member("description", Json.JStr("Donation configuration for " + Interpolate(s.username) + "/" + s.repo.value)),
      Json.Member("payTo", Json.JStr(s.walletAddress.value)),
      Json.Member("defaultAmount", Json.JStr(OrElse(s.amount, "$5")))])
  {
    if !Truthy(s.repo) || !Truthy(s.walletAddress) then None
    else Some(Json.JObj([
      Json.Member("name", Json.JStr(s.repo.value)),
      Json.Member("description", Json.JStr("Donation configuration for " + Interpolate(s.username) + "/" + s.repo.value)),
      Json.Member("payTo", Json.JStr(s.walletAddress.value)),
      Json.Member("defaultAmount", Json.JStr(OrElse(s.amount, "$5")))]))
  }

  /** `generateConfigJson`. */
  function GenerateConfigJson(s: GitHubBuilderState): (text: string)
    ensures text == "" <==> StarterConfig(s).None?
  {
    match StarterConfig(s)
    case None => ""
    case Some(j) =>
      Json.SerializeHead(j);
      Json.Serialize(j)
  }

  /** The starter file parses back to its object, with the `$5` default
      when no amount was chosen. */
  lemma StarterConfigParses(s: GitHubBuilderState)
    requires Truthy(s.repo) && Truthy(s.walletAddress)
    ensures Json.Parse(GenerateConfigJson(s)) == Ok(StarterConfig(s).value)
    ensures !Truthy(s.amount) ==>
      StarterConfig(s).value.members[3] == Json.Member("defaultAmount", Json.JStr("$5"))
  {
    Json.ParseSerialize(StarterConfig(s).value);
  }

  /** The branch of the new-file URL: the chosen one, else the detected
      one, else `main`. */
  function TargetBranch(s: GitHubBuilderState, detectedBranch: string): (b: string)
    ensures Truthy(s.branch) ==> b == s.branch.value
    ensures !Truthy(s.branch) && detectedBranch != "" ==> b == detectedBranch
    ensures !Truthy(s.branch) && detectedBranch == "" ==> b == "main"
  {
    if Truthy(s.branch) then s.branch.value else if detectedBranch != "" then detectedBranch else "main"
  }

  /** `generateGithubConfigUrl`. */
  function GitHubConfigUrl(s: GitHubBuilderState, detectedBranch: string): (u: string)
    ensures !Truthy(s.username) || !Truthy(s.repo) || !Truthy(s.walletAddress) ==> u == ""
    ensures Truthy(s.username) && Truthy(s.repo) && Truthy(s.walletAddress) ==>
      u == "https://github.com/" + s.username.value + "/" + s.repo.value + "/new/" + TargetBranch(s, detectedBranch)
           + "?filename=" + ConfigPath + "&value=" + Percent.EncodeUriComponent(GenerateConfigJson(s))
  {
    if !Truthy(s.username) || !Truthy(s.repo) || !Truthy(s.walletAddress) then ""
    else "https://github.com/" + s.username.value + "/" + s.repo.value + "/new/" + TargetBranch(s, detectedBranch)
         + "?filename=" + ConfigPath + "&value=" + Percent.EncodeUriComponent(GenerateConfigJson(s))
  }

  /** The `value` parameter of the new-file URL decodes to the starter file. */
  lemma ConfigUrlCarriesFile(s: GitHubBuilderState, detectedBranch: string)
    requires Truthy(s.username) && Truthy(s.repo) && Truthy(s.walletAddress)
    ensures var prefix := "https://github.com/" + s.username.value + "/" + s.repo.value + "/new/"
                          + TargetBranch(s, detectedBranch) + "?filename=" + ConfigPath + "&value=";
      var u := GitHubConfigUrl(s, detectedBranch);
      && |prefix| <= |u| && u[..|prefix|] == prefix
      && Percent.DecodeUriComponent(u[|prefix|..]) == Ok(GenerateConfigJson(s))
  {
    var prefix := "https://github.com/" + s.username.value + "/" + s.repo.value + "/new/"
                  + TargetBranch(s, detectedBranch) + "?filename=" + ConfigPath + "&value=";
    var e := Percent.EncodeUriComponent(GenerateConfigJson(s));
    assert (prefix + e)[..|prefix|] == prefix;
    assert (prefix + e)[|prefix|..] == e;
    Percent.DecodeEncode(GenerateConfigJson(s));
  }

  /** `generateDonationUrl`: the repository page, with the amount as a
      query parameter when one is set. */
  function DonationUrl(origin: string, s: GitHubBuilderState): (u: string)
    ensures !Truthy(s.username) || !Truthy(s.repo) ==> u == ""
    ensures Truthy(s.username) && Truthy(s.repo) && !Truthy(s.amount) ==>
      u == origin + "/github.com/" + s.username.value + "/" + s.repo.value
    ensures Truthy(s.username) && Truthy(s.repo) && Truthy(s.amount) ==>
      u == origin + "/github.com/" + s.username.value + "/" + s.repo.value + "?amount=" + Percent.EncodeUriComponent(s.amount.value)
  {
    if !Truthy(s.username) || !Truthy(s.repo) then ""
    else origin + "/github.com/" + s.username.value + "/" + s.repo.value
         + (if Truthy(s.amount) then "?amount=" + Percent.EncodeUriComponent(s.amount.value) else "")
  }

  /** What the debounced branch lookup produced. */
  datatype BranchLookup =
    | NotAsked
    | Found(defaultBranch: Option<string>)
    | HttpStatus(status: int)
    | LookupFailed

  /** The wizard: the current step, the form state and the detected branch. */
  class Wizard {
    var current: nat
    var state: GitHubBuilderState
    var detectedBranch: string

    predicate Valid()
      reads this
    {
      current < |Steps|
    }

    constructor ()
      ensures Valid() && current == 0 && state == InitialState && detectedBranch == "main"
    {
      current := 0;
      state := InitialState;
      detectedBranch := "main";
    }

    /** A field of the form was edited. */
    method Edit(s: GitHubBuilderState)
      modifies this
      ensures state == s && current == old(current) && detectedBranch == old(detectedBranch)
    {
      state := s;
    }

    /** A click on a step of the indicator. */
    method HandleStepClick(target: Step, isAddress: string -> bool)
      requires Valid()
      modifies this
      ensures Valid() && state == old(state) && detectedBranch == old(detectedBranch)
      ensures current == IndicatorClickIndex(old(current), StepIndex(target),
        StepValid(state, target, isAddress), StepValid(state, Steps[old(current)], isAddress))
    {
      if StepValid(state, target, isAddress) {
        var currentValid := StepValid(state, Steps[current], isAddress);
        current := ClickIndex(current, StepIndex(target), currentValid);
      }
    }

    /** The Next button: enabled only while `canProceed`. */
    method PressNext(isAddress: string -> bool)
      requires Valid()
      modifies this
      ensures Valid() && state == old(state) && detectedBranch == old(detectedBranch)
      ensures CanProceed(old(current), |Steps|, StepValid(state, Steps[old(current)], isAddress)) ==>
        current == old(current) + 1
      ensures !CanProceed(old(current), |Steps|, StepValid(state, Steps[old(current)], isAddress)) ==>
        current == old(current)
    {
      if CanProceed(current, |Steps|, StepValid(state, Steps[current], isAddress)) {
        current := NextIndex(current, |Steps|);
      }
    }

    /** The branch lookup's result: without a repository the branch is
      `main`; a found repository's default branch (or `main`) is also
      set as the chosen branch when none is chosen; a 404, 403 or a
      failed request fall back to `main`; other statuses change nothing. */
    method DetectBranch(lookup: BranchLookup)
      modifies this
      ensures current == old(current)
      ensures !Truthy(old(state).username) || !Truthy(old(state).repo) ==>
        detectedBranch == "main" && state == old(state)
      ensures Truthy(old(state).username) && Truthy(old(state).repo) && lookup.Found? ==>
        && detectedBranch == OrElse(lookup.defaultBranch, "main")
        && state == (if Truthy(old(state).branch) then old(state) else old(state).(branch := Some(detectedBranch)))
      ensures Truthy(old(state).username) && Truthy(old(state).repo) && !lookup.Found? ==>
        && state == old(state)
        && detectedBranch == (if lookup.LookupFailed? || (lookup.HttpStatus? && lookup.status in {403, 404}) then "main"
                              else old(detectedBranch))
    {
      if !Truthy(state.username) || !Truthy(state.repo) {
        detectedBranch := "main";
        return;
      }
      match lookup {
        case Found(defaultBranch) =>
          var branch := OrElse(defaultBranch, "main");
          detectedBranch := branch;
          if !Truthy(state.branch) {
            state := state.(branch := Some(branch));
          }
        case HttpStatus(status) =>
          if status == 404 || status == 403 {
            detectedBranch := "main";
          }
        case LookupFailed =>
          detectedBranch := "main";
        case NotAsked =>
      }
    }
  }

  /** With a valid repository but no valid wallet, Next leaves the
      repository step and is disabled on the recipient step. */
  lemma NextStopsAtInvalidWallet(s: GitHubBuilderState, isAddress: string -> bool)
    requires StepValid(s, RepoInfo, isAddress) && !StepValid(s, RecipientAddress, isAddress)
    ensures CanProceed(0, |Steps|, StepValid(s, Steps[0], isAddress))
    ensures !CanProceed(1, |Steps|, StepValid(s, Steps[1], isAddress))
  {
  }
}
