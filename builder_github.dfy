/** The GitHub link builder: fills the shared form from the repository's
    existing configuration (or, without one, from the repository's
    metadata), and builds the page URL, the display name and the GitHub
    editor URL for the generated file. */
module BuilderGitHub {
  import opened Wrappers
  import opened JsString
  import opened DonationConfig
  import opened GitHubConfig
  import opened NetworkUtils
  import opened BuilderForm
  import Percent

  /** The fields of the repositories API response that the builder reads. */
  datatype RepoOwner = RepoOwner(login: string, avatarUrl: Option<string>)
  datatype RepoApiData = RepoApiData(
    name: Option<string>, description: Option<string>, owner: Option<RepoOwner>,
    htmlUrl: Option<string>, homepage: Option<string>)

  /** The fields a found configuration writes into the form; a field the
      configuration leaves falsy keeps the form's value. */
  function FillFromConfig(f: FormState, c: Config): (g: FormState)
    ensures !Truthy(c.payTo) ==> g.payTo == f.payTo
    ensures !Truthy(c.title) ==> g.title == f.title
    ensures !Truthy(c.description) ==> g.description == f.description
    ensures c.creator.None? ==> g.creatorHandle == f.creatorHandle && g.creatorAvatar == f.creatorAvatar
    ensures c.links.None? ==> g.links == f.links
    ensures (c.recipients.None? || c.recipients.value == []) ==> g.recipients == f.recipients
    ensures !Truthy(c.defaultAmount) ==> g.defaultAmount == f.defaultAmount
    ensures !NetworkTruthy(c.network) ==> g.networks == f.networks
    ensures NetworkTruthy(c.network) ==> g.networks == NormalizeNetworkConfig(c.network)
  {
    f.(
      payTo := OrElse(c.payTo, f.payTo),
      title := OrElse(c.title, f.title),
      description := OrElse(c.description, f.description),
      creatorHandle := if c.creator.Some? then c.creator.value.handle else f.creatorHandle,
      creatorAvatar := if c.creator.Some? then OrElse(c.creator.value.avatar, f.creatorAvatar) else f.creatorAvatar,
      links := if c.links.Some? then LinkInputs(c.links.value) else f.links,
      recipients := if c.recipients.Some? && |c.recipients.value| > 0 then RecipientInputs(c.recipients.value) else f.recipients,
      defaultAmount := OrElse(c.defaultAmount, f.defaultAmount),
      networks := if NetworkTruthy(c.network) then NormalizeNetworkConfig(c.network) else f.networks)
  }

  /** The links pushed from the repository response: its page labelled
      Repository, then its homepage labelled Website, each when truthy. */
  function AutoLinks(repo: RepoApiData): (ls: seq<LinkInput>)
    ensures |ls| == 0 <==> !Truthy(repo.htmlUrl) && !Truthy(repo.homepage)
    ensures Truthy(repo.htmlUrl) && !Truthy(repo.homepage) ==> ls == [LinkInput(repo.htmlUrl.value, "Repository")]
    ensures !Truthy(repo.htmlUrl) && Truthy(repo.homepage) ==> ls == [LinkInput(repo.homepage.value, "Website")]
    ensures Truthy(repo.htmlUrl) && Truthy(repo.homepage) ==>
      ls == [LinkInput(repo.htmlUrl.value, "Repository"), LinkInput(repo.homepage.value, "Website")]
  {
    (if Truthy(repo.htmlUrl) then [LinkInput(repo.htmlUrl.value, "Repository")] else [])
    + (if Truthy(repo.homepage) then [LinkInput(repo.homepage.value, "Website")] else [])
  }

  /** `if (offered && !current) set(offered)`: a truthy offer fills an
      empty field; a field already filled is kept. */
  function FillEmpty(current: string, offered: Option<string>): (r: string)
    ensures current != "" || !Truthy(offered) ==> r == current
    ensures current == "" && Truthy(offered) ==> r == offered.value
  {
    if Truthy(offered) && current == "" then offered.value else current
  }

  /** Without a configuration: title, description and creator from the
      repository when the form has none, and links to the repository page
      and homepage when there are any. */
  function FillFromRepo(f: FormState, repo: RepoApiData): (g: FormState)
    ensures f.title != "" || !Truthy(repo.name) ==> g.title == f.title
    ensures f.title == "" && Truthy(repo.name) ==> g.title == repo.name.value
    ensures f.description != "" || !Truthy(repo.description) ==> g.description == f.description
    ensures f.description == "" && Truthy(repo.description) ==> g.description == repo.description.value
    ensures repo.owner.None? || f.creatorHandle != "" ==>
      g.creatorHandle == f.creatorHandle && g.creatorAvatar == f.creatorAvatar
    ensures repo.owner.Some? && f.creatorHandle == "" ==>
      && g.creatorHandle == repo.owner.value.login
      && g.creatorAvatar == OrElse(repo.owner.value.avatarUrl, f.creatorAvatar)
    ensures g.payTo == f.payTo && g.recipients == f.recipients && g.networks == f.networks
    ensures g.defaultAmount == f.defaultAmount
    ensures !Truthy(repo.htmlUrl) && !Truthy(repo.homepage) ==> g.links == f.links
    ensures Truthy(repo.htmlUrl) && !Truthy(repo.homepage) ==> g.links == [LinkInput(repo.htmlUrl.value, "Repository")]
    ensures !Truthy(repo.htmlUrl) && Truthy(repo.homepage) ==> g.links == [LinkInput(repo.homepage.value, "Website")]
    ensures Truthy(repo.htmlUrl) && Truthy(repo.homepage) ==>
      g.links == [LinkInput(repo.htmlUrl.value, "Repository"), LinkInput(repo.homepage.value, "Website")]
  {
    var autoLinks := AutoLinks(repo);
    var takeOwner := repo.owner.Some? && f.creatorHandle == "";
    f.(
      title := FillEmpty(f.title, repo.name),
      description := FillEmpty(f.description, repo.description),
      creatorHandle := if takeOwner then repo.owner.value.login else f.creatorHandle,
      creatorAvatar := if takeOwner && Truthy(repo.owner.value.avatarUrl) then repo.owner.value.avatarUrl.value else f.creatorAvatar,
      links := if |autoLinks| > 0 then autoLinks else f.links)
  }

  /** Filling from the same repository twice changes nothing more: every
      field the first fill sets is no longer empty, or is set to the same
      value again. */
  lemma FillFromRepoIdempotent(f: FormState, repo: RepoApiData)
    ensures FillFromRepo(FillFromRepo(f, repo), repo) == FillFromRepo(f, repo)
  {
  }

  /** What loading on mount does to the form, given the configuration
      request's result and the repository response (`None` when that
      request failed or was not ok). */
  function LoadedForm(f: FormState, found: Option<ResolvedGitHubConfig>, repo: Option<RepoApiData>): FormState {
    if found.Some? then FillFromConfig(f, found.value.config)
    else if repo.Some? then FillFromRepo(f, repo.value)
    else f
  }

  /** `loadExistingConfig`: returns `configExists`. */
  method LoadExistingConfig(form: Form, username: string, repo: Option<string>, now: int,
                            fetchConfig: string -> Fetched<Config>,
                            fetchUser: string -> Fetched<GitHubUserInfo>,
                            repoResponse: Option<RepoApiData>)
    returns (configExists: bool)
    modifies form
    ensures var found := GitHubConfigOutcome(username, repo, fetchConfig(ConfigUrl(username, repo, false, now)),
                                             fetchUser(UserInfoUrl(username)));
      && configExists == found.Some?
      && form.State() == LoadedForm(old(form.State()), found, repoResponse)
  {
    var found := FetchGitHubConfig(username, repo, false, now, fetchConfig, fetchUser);
    if found.Some? {
      form.SetState(FillFromConfig(form.State(), found.value.config));
      return true;
    }
    if repoResponse.Some? {
      form.SetState(FillFromRepo(form.State(), repoResponse.value));
    }
    return false;
  }

  /** `refreshConfig`: the configuration with the cache bypassed; without
      one the form is left as it is. */
  method RefreshConfig(form: Form, username: string, repo: Option<string>, now: int,
                       fetchConfig: string -> Fetched<Config>,
                       fetchUser: string -> Fetched<GitHubUserInfo>)
    returns (configExists: bool)
    modifies form
    ensures var found := GitHubConfigOutcome(username, repo, fetchConfig(ConfigUrl(username, repo, true, now)),
                                             fetchUser(UserInfoUrl(username)));
      && configExists == found.Some?
      && form.State() == LoadedForm(old(form.State()), found, None)
  {
    var found := FetchGitHubConfig(username, repo, true, now, fetchConfig, fetchUser);
    if found.Some? {
      form.SetState(FillFromConfig(form.State(), found.value.config));
      return true;
    }
    return false;
  }

  /** A configuration in canonical form survives loading into a blank form
      and generating again. */
  lemma FillThenGenerate(c: Config)
    requires CanonicalConfig(c)
    ensures GenerateConfig(FillFromConfig(BlankForm(""), c)) == c
  {
    FilledFields(c);
    WrittenFormGenerates(FillFromConfig(BlankForm(""), c), c);
  }

  /** The fields a blank form holds once a canonical configuration is loaded into it. */
  lemma FilledFields(c: Config)
    requires CanonicalConfig(c)
    ensures var g := FillFromConfig(BlankForm(""), c);
      && g.payTo == OrElse(c.payTo, "")
      && g.recipients == (if c.recipients.Some? then RecipientInputs(c.recipients.value) else [])
      && g.links == (if c.links.Some? then LinkInputs(c.links.value) else [])
      && g.title == OrElse(c.title, "") && g.description == OrElse(c.description, "")
      && g.creatorHandle == (if c.creator.Some? then c.creator.value.handle else "")
      && g.creatorAvatar == (if c.creator.Some? then OrElse(c.creator.value.avatar, "") else "")
      && g.networks == (if NetworkTruthy(c.network) then NormalizeNetworkConfig(c.network) else [])
      && g.defaultAmount == OrElse(c.defaultAmount, "")
  {
  }

  /** `generateUrl`: the page of the user, or of the repository when one is given. */
  function GenerateUrl(origin: string, username: string, repo: Option<string>): (u: string)
    ensures Truthy(repo) ==> u == origin + "/github.com/" + username + "/" + repo.value
    ensures !Truthy(repo) ==> u == origin + "/github.com/" + username
  {
    origin + "/github.com" + (if Truthy(repo) then "/" + username + "/" + repo.value else "/" + username)
  }

  /** `getDisplayName`: the title, else `user/repo`, else the user. */
  function GetDisplayName(title: string, username: string, repo: Option<string>): (n: string)
    ensures title != "" ==> n == title
    ensures title == "" && Truthy(repo) ==> n == username + "/" + repo.value
    ensures title == "" && !Truthy(repo) ==> n == username
  {
    if title != "" then title else if Truthy(repo) then username + "/" + repo.value else username
  }

  /** The repository page on GitHub. */
  function RepoPage(username: string, repo: Option<string>): string {
    "https://github.com/" + username + "/" + TargetRepo(username, repo)
  }

  /** The editor URL `openGitHubEditor` opens for the serialised
      configuration `json`: the edit page of the existing file, or a new
      file with the content in the query. */
  function EditorUrl(username: string, repo: Option<string>, configExists: bool, json: string): (u: string)
    ensures configExists ==> u == RepoPage(username, repo) + "/edit/main/" + ConfigPath
    ensures !configExists ==> u == RepoPage(username, repo) + "/new/main?filename=" + ConfigPath
                                  + "&value=" + Percent.EncodeUriComponent(json)
  {
    if configExists then RepoPage(username, repo) + "/edit/main/" + ConfigPath
    else RepoPage(username, repo) + "/new/main?filename=" + ConfigPath + "&value=" + Percent.EncodeUriComponent(json)
  }

  /** The new-file URL carries the content: decoding the `value` parameter
      gives back the serialised configuration. */
  lemma NewFileCarriesContent(username: string, repo: Option<string>, json: string)
    ensures var u := EditorUrl(username, repo, false, json);
      var prefix := RepoPage(username, repo) + "/new/main?filename=" + ConfigPath + "&value=";
      && StartsWith(u, prefix)
      && Percent.DecodeUriComponent(u[|prefix|..]) == Ok(json)
  {
    var prefix := RepoPage(username, repo) + "/new/main?filename=" + ConfigPath + "&value=";
    var e := Percent.EncodeUriComponent(json);
    DropPrefix(prefix, e, 0);
    Percent.DecodeEncode(json);
  }
}
