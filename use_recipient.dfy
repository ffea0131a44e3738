/** Resolving the recipient page data for the current route: a GitHub
    route reads the configuration from GitHub, an address route builds a
    quick link from the URL hash, anything else resolves to nothing. The
    hook shows nothing while a resolution is running. */
module UseRecipient {
  import opened Wrappers
  import opened JsString
  import opened DonationConfig
  import opened GitHubConfig
  import QuickLinkConfig

  /** The route: path, hash and the path parameters the router extracted. */
  datatype Route = Route(pathname: string, hash: string, username: Option<string>,
                         repo: Option<string>, address: Option<string>)

  /** The collaborators the resolver calls: the two GitHub requests, the
      repository lookup (an `Err` is a thrown error), the user conversion
      and `isAddress`. */
  datatype Env = Env(
    fetchConfig: string -> Fetched<Config>,
    fetchUser: string -> Fetched<GitHubUserInfo>,
    fetchRepo: (string, string) -> Result<Option<GitHubRepo>>,
    convertUser: GitHubUserInfo -> GitHubUser,
    isAddress: string -> bool)

  predicate IsGitHubRoute(route: Route) {
    StartsWith(route.pathname, "/github.com/") && Truthy(route.username)
  }

  predicate IsAddressRoute(route: Route, env: Env) {
    Truthy(route.address) && env.isAddress(route.address.value)
  }

  /** The repository metadata: requested only when the route names a repository. */
  function RepoInfo(route: Route, env: Env): Result<Option<GitHubRepo>>
    requires IsGitHubRoute(route)
  {
    if Truthy(route.repo) then env.fetchRepo(route.username.value, route.repo.value) else Ok(None)
  }

  /** The GitHub branch of the resolution. */
  function ResolveGitHub(route: Route, env: Env): Option<PageData>
    requires IsGitHubRoute(route)
  {
    var username := route.username.value;
    var result := GitHubConfigOutcome(username, route.repo,
      env.fetchConfig(ConfigUrl(username, route.repo, false, 0)), env.fetchUser(UserInfoUrl(username)));
    if result.Some? then
      match RepoInfo(route, env)
      case Err(_) => None
      case Ok(repo) => Some(BuildGitHubDataWithFile(result.value.config, env.convertUser(result.value.userInfo), repo))
    else
      var userInfo := UserInfoOutcome(env.fetchUser(UserInfoUrl(username)));
      if userInfo.None? then None
      else
        match RepoInfo(route, env)
        case Err(_) => None
        case Ok(repo) => Some(BuildGitHubDataWithoutFile(env.convertUser(userInfo.value), repo))
  }

  /** The address branch: the quick link of the hash when it validates,
      otherwise a configuration holding only the address. */
  function ResolveAddress(address: string, hash: string): (p: PageData)
    ensures p.config.payTo == Some(address)
    ensures p.metadata.source.kind == QuickLinkSource && !p.metadata.source.verified
  {
    var quickLink := QuickLinkConfig.QuickLinkConfigFor(address, hash);
    if QuickLinkConfig.IsValidConfig(quickLink) then
      BuildQuickLinkData(quickLink, address + (if hash != "" then "#" + hash else ""))
    else
      BuildQuickLinkData(EmptyConfig.(payTo := Some(address)), address)
  }

  /** The page data `resolveConfig` stores for a route. */
  function Resolve(route: Route, env: Env): Option<PageData> {
    if IsGitHubRoute(route) then ResolveGitHub(route, env)
    else if IsAddressRoute(route, env) then Some(ResolveAddress(route.address.value, QuickLinkConfig.HashBody(route.hash)))
    else None
  }

  /** The hook's state: the resolved data and the loading flag. */
  class RecipientResolver {
    var config: Option<PageData>
    var isLoading: bool

    constructor ()
      ensures config.None? && isLoading
    {
      config := None;
      isLoading := true;
    }

    /** What the hook returns: nothing while loading, else the resolved data. */
    function Current(): (r: Option<PageData>)
      reads this
      ensures isLoading ==> r.None?
      ensures !isLoading ==> r == config
    {
      if isLoading then None else config
    }

    /** `resolveConfig`: sets the loading flag, walks the decision tree and
        stores its result, then clears the flag. */
    method ResolveConfig(route: Route, env: Env)
      modifies this
      ensures !isLoading
      ensures config == Resolve(route, env)
    {
      isLoading := true;
      var hash := if StartsWith(route.hash, "#") then route.hash[1..] else route.hash;
      if StartsWith(route.pathname, "/github.com/") && Truthy(route.username) {
        var username := route.username.value;
        var result := FetchGitHubConfig(username, route.repo, false, 0, env.fetchConfig, env.fetchUser);
        if result.Some? {
          var repo: Option<GitHubRepo> := None;
          if Truthy(route.repo) {
            var fetched := env.fetchRepo(username, route.repo.value);
            if fetched.Err? {
              config := None;
              isLoading := false;
              return;
            }
            repo := fetched.value;
          }
          config := Some(BuildGitHubDataWithFile(result.value.config, env.convertUser(result.value.userInfo), repo));
        } else {
          var userInfo := FetchGitHubUserInfo(username, env.fetchUser);
          if userInfo.Some? {
            var repo: Option<GitHubRepo> := None;
            if Truthy(route.repo) {
              var fetched := env.fetchRepo(username, route.repo.value);
              if fetched.Err? {
                config := None;
                isLoading := false;
                return;
              }
              repo := fetched.value;
            }
            config := Some(BuildGitHubDataWithoutFile(env.convertUser(userInfo.value), repo));
          } else {
            config := None;
          }
        }
      } else if Truthy(route.address) && env.isAddress(route.address.value) {
        var address := route.address.value;
        var quickLink := QuickLinkConfig.CreateQuickLinkConfig(address, hash);
        var valid := QuickLinkConfig.ValidateConfig(quickLink);
        if valid {
          var reference := address + (if hash != "" then "#" + hash else "");
          config := Some(BuildQuickLinkData(quickLink, reference));
        } else {
          config := Some(BuildQuickLinkData(EmptyConfig.(payTo := Some(address)), address));
        }
      } else {
        config := None;
      }
      isLoading := false;
    }
  }

  /** A GitHub route whose configuration was found gives verified GitHub
      data built from that configuration. */
  lemma GitHubRouteWithConfig(route: Route, env: Env, found: ResolvedGitHubConfig)
    requires IsGitHubRoute(route)
    requires GitHubConfigOutcome(route.username.value, route.repo,
      env.fetchConfig(ConfigUrl(route.username.value, route.repo, false, 0)),
      env.fetchUser(UserInfoUrl(route.username.value))) == Some(found)
    requires RepoInfo(route, env).Ok?
    ensures var p := Resolve(route, env);
      && p.Some?
      && p.value.config == found.config
      && p.value.metadata.source.kind == GitHubSource && p.value.metadata.source.verified
      && p.value.metadata.githubUser == Some(env.convertUser(found.userInfo))
  {
  }

  /** Without a repository parameter the repository lookup is never made:
      the result does not depend on it. */
  lemma RepoLookupOnlyWithRepo(route: Route, env: Env, other: (string, string) -> Result<Option<GitHubRepo>>)
    requires !Truthy(route.repo)
    ensures Resolve(route, env) == Resolve(route, env.(fetchRepo := other))
  {
  }

  /** No configuration but an existing user gives unverified GitHub data
      without `payTo`; with neither the result is nothing. */
  lemma GitHubRouteWithoutConfig(route: Route, env: Env)
    requires IsGitHubRoute(route) && RepoInfo(route, env).Ok?
    requires GitHubConfigOutcome(route.username.value, route.repo,
      env.fetchConfig(ConfigUrl(route.username.value, route.repo, false, 0)),
      env.fetchUser(UserInfoUrl(route.username.value))).None?
    ensures UserInfoOutcome(env.fetchUser(UserInfoUrl(route.username.value))).None? ==> Resolve(route, env).None?
    ensures UserInfoOutcome(env.fetchUser(UserInfoUrl(route.username.value))).Some? ==>
      var p := Resolve(route, env);
      && p.Some? && p.value.config.payTo.None?
      && p.value.metadata.source.kind == GitHubSource && !p.value.metadata.source.verified
  {
  }

  /** An address route whose hash decodes to a valid configuration pays
      the URL address and refers to `address#hash`. */
  lemma AddressRouteValidHash(route: Route, env: Env)
    requires !IsGitHubRoute(route) && IsAddressRoute(route, env)
    requires QuickLinkConfig.IsValidConfig(QuickLinkConfig.QuickLinkConfigFor(route.address.value, QuickLinkConfig.HashBody(route.hash)))
    requires QuickLinkConfig.HashBody(route.hash) != ""
    ensures var p := Resolve(route, env);
      && p.Some?
      && p.value.config == QuickLinkConfig.QuickLinkConfigFor(route.address.value, QuickLinkConfig.HashBody(route.hash))
      && p.value.config.payTo == Some(route.address.value)
      && p.value.metadata.source.reference == route.address.value + "#" + QuickLinkConfig.HashBody(route.hash)
  {
    var address, hash := route.address.value, QuickLinkConfig.HashBody(route.hash);
    assert Resolve(route, env) == Some(ResolveAddress(address, hash));
    var quickLink := QuickLinkConfig.QuickLinkConfigFor(address, hash);
    assert ResolveAddress(address, hash) == BuildQuickLinkData(quickLink, address + "#" + hash);
  }

  /** A hash whose configuration fails validation (for example recipients
      above 10000 bips) falls back to the bare address: every other field
      is dropped and the reference is the address alone. */
  lemma AddressRouteInvalidHash(route: Route, env: Env)
    requires !IsGitHubRoute(route) && IsAddressRoute(route, env)
    requires !QuickLinkConfig.IsValidConfig(QuickLinkConfig.QuickLinkConfigFor(route.address.value, QuickLinkConfig.HashBody(route.hash)))
    ensures Resolve(route, env) == Some(BuildQuickLinkData(EmptyConfig.(payTo := Some(route.address.value)), route.address.value))
  {
  }

  /** A route that is neither a GitHub route nor a valid address resolves to nothing. */
  lemma UnsupportedRouteNothing(route: Route, env: Env)
    requires !IsGitHubRoute(route) && !IsAddressRoute(route, env)
    ensures Resolve(route, env).None?
  {
  }

  /** A thrown repository lookup makes the whole resolution nothing. */
  lemma RepoLookupFailureNothing(route: Route, env: Env)
    requires IsGitHubRoute(route) && RepoInfo(route, env).Err?
    ensures Resolve(route, env).None?
  {
  }
}
