/** The donation page: which data it shows (the resolved recipient data,
    or the builder's preview), which view it renders, when the give
    button opens the payment dialog, and the links of the page shown for
    a GitHub repository without a configuration. */
module GivePage {
  import opened Wrappers
  import opened JsString
  import opened DonationConfig
  import opened Amounts
  import GitHubConfig
  import NetworkCatalog
  import DonateDialog
  import BuilderGitHub

  /** The metadata of a preview when nothing was resolved. */
  const PreviewMetadata := Metadata(Source(CustomSource, "preview", false), None, None)

  /** `effectivePageData`: in builder mode with a preview, the preview
      configuration, its recipients defaulting to the empty list, under the
      resolved metadata (or the preview metadata); otherwise the resolved data. */
  function EffectivePageData(preview: Option<Config>, isBuilderMode: bool, resolved: Option<PageData>): (e: Option<PageData>)
    ensures !(preview.Some? && isBuilderMode) ==> e == resolved
    ensures preview.Some? && isBuilderMode ==>
      && e.Some?
      && e.value.config == preview.value.(recipients := Some(if preview.value.recipients.Some? then preview.value.recipients.value else []))
      && e.value.metadata == (if resolved.Some? then resolved.value.metadata else PreviewMetadata)
  {
    if preview.Some? && isBuilderMode then
      var c := preview.value;
      Some(PageData(
        c.(recipients := Some(if c.recipients.Some? then c.recipients.value else [])),
        if resolved.Some? then resolved.value.metadata else PreviewMetadata))
    else resolved
  }

  /** The preview keeps every field of the builder's configuration but the
      recipients, and always has a recipient list. */
  lemma PreviewKeepsFields(preview: Config, resolved: Option<PageData>)
    ensures var e := EffectivePageData(Some(preview), true, resolved).value.config;
      && e.payTo == preview.payTo && e.title == preview.title && e.description == preview.description
      && e.creator == preview.creator && e.defaultAmount == preview.defaultAmount
      && e.network == preview.network && e.links == preview.links
      && e.recipients.Some?
      && (preview.recipients.Some? ==> e.recipients == preview.recipients)
  {
  }

  /** What the page renders. */
  datatype PageView = LoadingView | GitHubRepoView | WelcomeView | DonationView

  /** Loading while nothing is resolved; outside builder mode, without a
      `payTo`, the repository page when a GitHub user is known and the
      welcome page otherwise; else the donation page. */
  function ChooseView(resolved: Option<PageData>, isBuilderMode: bool): (v: PageView)
    ensures resolved.None? <==> v == LoadingView
    ensures resolved.Some? && !isBuilderMode && !Truthy(resolved.value.config.payTo) ==>
      v == (if resolved.value.metadata.githubUser.Some? then GitHubRepoView else WelcomeView)
    ensures resolved.Some? && (isBuilderMode || Truthy(resolved.value.config.payTo)) ==> v == DonationView
  {
    if resolved.None? then LoadingView
    else if !isBuilderMode && !Truthy(resolved.value.config.payTo) then
      if resolved.value.metadata.githubUser.Some? then GitHubRepoView else WelcomeView
    else DonationView
  }

  /** The builder always reaches the donation page once data is resolved,
      even with no `payTo`, where the preview can fill it in. */
  lemma BuilderModeShowsDonationPage(resolved: PageData)
    ensures ChooseView(Some(resolved), true) == DonationView
  {
  }

  /** A GitHub page without a config file never shows the donation page
      outside builder mode: it has no `payTo`. */
  lemma UnconfiguredRepoShowsRepoPage(user: GitHubUser, repo: Option<GitHubRepo>)
    ensures ChooseView(Some(BuildGitHubDataWithoutFile(user, repo)), false) == GitHubRepoView
  {
  }

  /** The payment dialog's props: no configuration is passed, so it offers
      every catalog network. */
  lemma DialogOffersEveryNetwork(available: seq<string>)
    ensures DonateDialog.SelectableNetworks(None, available) == NetworkCatalog.NetworkKeys
  {
  }

  /** The page's state. */
  class Page {
    var selectedAmount: string
    var showDonateDialog: bool
    var previewConfig: Option<Config>

    constructor ()
      ensures selectedAmount == "5" && !showDonateDialog && previewConfig.None?
    {
      selectedAmount := "5";
      showDonateDialog := false;
      previewConfig := None;
    }

    /** The effect on the resolved data's `defaultAmount`: a truthy one
        becomes the selected amount, without its `$` prefix. */
    method DefaultAmountEffect(resolved: Option<PageData>)
      modifies this
      ensures resolved.Some? && Truthy(resolved.value.config.defaultAmount) ==>
        selectedAmount == StripDollarPrefix(resolved.value.config.defaultAmount.value)
      ensures !(resolved.Some? && Truthy(resolved.value.config.defaultAmount)) ==>
        selectedAmount == old(selectedAmount)
      ensures showDonateDialog == old(showDonateDialog) && previewConfig == old(previewConfig)
    {
      if resolved.Some? && Truthy(resolved.value.config.defaultAmount) {
        selectedAmount := StripDollarPrefix(resolved.value.config.defaultAmount.value);
      }
    }

    /** `handlePreview`: the builder's configuration becomes the preview. */
    method HandlePreview(config: Config)
      modifies this
      ensures previewConfig == Some(config)
      ensures selectedAmount == old(selectedAmount) && showDonateDialog == old(showDonateDialog)
    {
      previewConfig := Some(config);
    }

    /** `handleGive`: the dialog opens only when the effective data has a `payTo`. */
    method HandleGive(isBuilderMode: bool, resolved: Option<PageData>)
      modifies this
      ensures var e := EffectivePageData(previewConfig, isBuilderMode, resolved);
        showDonateDialog == if e.Some? && Truthy(e.value.config.payTo) then true else old(showDonateDialog)
      ensures selectedAmount == old(selectedAmount) && previewConfig == old(previewConfig)
    {
      var e := EffectivePageData(previewConfig, isBuilderMode, resolved);
      if e.None? || !Truthy(e.value.config.payTo) {
        return;
      }
      showDonateDialog := true;
    }

    method CloseDialog()
      modifies this
      ensures !showDonateDialog
      ensures selectedAmount == old(selectedAmount) && previewConfig == old(previewConfig)
    {
      showDonateDialog := false;
    }
  }

  /** The repository page's "View Repository" link. */
  function RepoUrl(user: GitHubUser, repo: Option<GitHubRepo>): string {
    "https://github.com/" + (if repo.Some? then repo.value.fullName else user.login)
  }

  /** Where the configuration file would live: in the repository, or for
      a user in the repository named after the user. */
  function ConfigFileUrl(user: GitHubUser, repo: Option<GitHubRepo>): string {
    if repo.Some? then "https://github.com/" + repo.value.fullName + "/" + ConfigPath
    else "https://github.com/" + user.login + "/" + user.login + "/" + ConfigPath
  }

  /** The configuration file sits under the repository link: at the
      configuration path for a repository, and for a user in the
      repository named after the user, which is also the repository the
      configuration is fetched from. */
  lemma ConfigFileUnderRepoUrl(user: GitHubUser, repo: Option<GitHubRepo>)
    ensures repo.Some? ==> ConfigFileUrl(user, repo) == RepoUrl(user, repo) + "/" + ConfigPath
    ensures repo.None? ==> ConfigFileUrl(user, repo) == RepoUrl(user, repo) + "/" + user.login + "/" + ConfigPath
    ensures repo.None? ==>
      ConfigFileUrl(user, repo) == RepoUrl(user, repo) + "/" + GitHubConfig.TargetRepo(user.login, None) + "/" + ConfigPath
  {
  }

  /** "Create Donation Link Now": the builder route of the user or repository. */
  function BuilderLink(user: GitHubUser, repo: Option<GitHubRepo>): string {
    "/builder/github.com/" + user.login + (if repo.Some? then "/" + repo.value.name else "")
  }

  /** The builder link is the builder's own GitHub page URL under
      `/builder`, for any repository with a name. */
  lemma BuilderLinkIsBuilderUrl(user: GitHubUser, repo: Option<GitHubRepo>)
    requires repo.Some? ==> repo.value.name != ""
    ensures
      BuilderLink(user, repo) == "/builder" + BuilderGitHub.GenerateUrl("", user.login, if repo.Some? then Some(repo.value.name) else None)
  {
  }
}
