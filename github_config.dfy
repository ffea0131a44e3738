/** Reading a donation configuration from GitHub. The two HTTP requests
    are parameters: each maps a URL to what the request produced. */
module GitHubConfig {
  import opened Wrappers
  import opened JsString
  import opened DonationConfig
  import QuickLinkConfig

  /** `GitHubUserInfo`: the fields of the users API the site reads. */
  datatype GitHubUserInfo = GitHubUserInfo(
    login: string, avatarUrl: string, name: Option<string>, bio: Option<string>, publicRepos: int)

  /** What one `fetch` produced: it rejected, or a response whose status
      may be ok and whose body parses as `T` (`None` when `json()` throws). */
  datatype Fetched<T> = Rejected | Response(ok: bool, body: Option<T>)

  /** The configuration with the user it belongs to and where it was read. */
  datatype ResolvedGitHubConfig = ResolvedGitHubConfig(
    config: Config, userInfo: GitHubUserInfo, source: string, verified: bool)

  const RawHost := "https://raw.githubusercontent.com/"
  const UsersApi := "https://api.github.com/users/"

  function UserInfoUrl(username: string): string {
    UsersApi + username
  }

  /** The outcome of one user request: the parsed user when the request
      succeeds with an ok status and a parseable body. */
  function UserInfoOutcome(response: Fetched<GitHubUserInfo>): (r: Option<GitHubUserInfo>)
    ensures r.Some? <==> response.Response? && response.ok && response.body.Some?
    ensures r.Some? ==> Some(r.value) == response.body
  {
    if response.Response? && response.ok then response.body else None
  }

  /** `fetchGitHubUserInfo`: the parsed user when the request succeeds,
      otherwise `None`. */
  method FetchGitHubUserInfo(username: string, fetchUser: string -> Fetched<GitHubUserInfo>)
    returns (r: Option<GitHubUserInfo>)
    ensures r == UserInfoOutcome(fetchUser(UserInfoUrl(username)))
  {
    var response := fetchUser(UsersApi + username);
    if response.Rejected? {
      return None;
    }
    if !response.ok {
      return None;
    }
    if response.body.None? {
      return None;
    }
    return Some(response.body.value);
  }

  /** `repo ?? username`: a user-level configuration lives in `<username>/<username>`. */
  function TargetRepo(username: string, repo: Option<string>): string {
    repo.GetOr(username)
  }

  /** The URL of the configuration file, with the cache-busting `?t=` suffix
      when asked for. */
  function ConfigUrl(username: string, repo: Option<string>, bypassCache: bool, now: int): string {
    RawHost + username + "/" + TargetRepo(username, repo) + "/main/" + ConfigPath
      + (if bypassCache then "?t=" + IntToString(now) else "")
  }

  /** The source reported for a configuration read from GitHub. */
  function ConfigSource(username: string, repo: Option<string>): string {
    "github.com/" + username + "/" + TargetRepo(username, repo) + "/" + ConfigPath
  }

  /** What `fetchGitHubConfig` returns for the two responses: a verified
      result when both succeed with ok status and parseable bodies and the
      configuration has a truthy `payTo`, `None` otherwise. */
  function GitHubConfigOutcome(username: string, repo: Option<string>,
                               configResp: Fetched<Config>, userResp: Fetched<GitHubUserInfo>)
    : (r: Option<ResolvedGitHubConfig>)
    ensures r.Some? <==>
      && configResp.Response? && configResp.ok && configResp.body.Some?
      && userResp.Response? && userResp.ok && userResp.body.Some?
      && Truthy(configResp.body.value.payTo)
    ensures r.Some? ==>
      && r.value.config == configResp.body.value
      && r.value.userInfo == userResp.body.value
      && r.value.source == ConfigSource(username, repo)
      && r.value.verified
  {
    if configResp.Rejected? || userResp.Rejected? || !configResp.ok || !userResp.ok then None
    else if configResp.body.None? || userResp.body.None? then None
    else if !Truthy(configResp.body.value.payTo) then None
    else Some(ResolvedGitHubConfig(configResp.body.value, userResp.body.value, ConfigSource(username, repo), true))
  }

  /** `fetchGitHubConfig`: requests the configuration file and the user
      together and combines the responses. `now` stands for `Date.now()`. */
  method FetchGitHubConfig(username: string, repo: Option<string>, bypassCache: bool, now: int,
                           fetchConfig: string -> Fetched<Config>,
                           fetchUser: string -> Fetched<GitHubUserInfo>)
    returns (r: Option<ResolvedGitHubConfig>)
    ensures r == GitHubConfigOutcome(username, repo, fetchConfig(ConfigUrl(username, repo, bypassCache, now)),
                                     fetchUser(UserInfoUrl(username)))
  {
    var targetRepo := if repo.Some? then repo.value else username;
    var baseUrl := RawHost + username + "/" + targetRepo + "/main";
    var configUrl := baseUrl + "/" + ConfigPath;
    if bypassCache {
      configUrl := configUrl + "?t=" + IntToString(now);
    }
    ConfigUrlJoin(baseUrl, username, repo, bypassCache, now);
    var configResponse := fetchConfig(configUrl);
    var userResponse := fetchUser(UsersApi + username);
    if configResponse.Rejected? || userResponse.Rejected? {
      return None;
    }
    if !configResponse.ok || !userResponse.ok {
      return None;
    }
    if configResponse.body.None? || userResponse.body.None? {
      return None;
    }
    var config := configResponse.body.value;
    var userInfo := userResponse.body.value;
    if !Truthy(config.payTo) {
      return None;
    }
    var source := "github.com/" + username + "/" + targetRepo + "/" + ConfigPath;
    return Some(ResolvedGitHubConfig(config, userInfo, source, true));
  }

  /** The configuration URL is the base URL of the branch, the path of the
      file and the optional cache-busting suffix. */
  lemma ConfigUrlJoin(baseUrl: string, username: string, repo: Option<string>, bypassCache: bool, now: int)
    requires baseUrl == RawHost + username + "/" + TargetRepo(username, repo) + "/main"
    ensures !bypassCache ==> ConfigUrl(username, repo, bypassCache, now) == baseUrl + "/" + ConfigPath
    ensures bypassCache ==> ConfigUrl(username, repo, bypassCache, now) == baseUrl + "/" + ConfigPath + "?t=" + IntToString(now)
  {
    var head := RawHost + username + "/" + TargetRepo(username, repo);
    var suffix := if bypassCache then "?t=" + IntToString(now) else "";
    assert "/main" + "/" == "/main/";
    assert head + "/main/" + ConfigPath + suffix == (head + "/main") + "/" + ConfigPath + suffix;
    if bypassCache {
      assert suffix == "?t=" + IntToString(now);
      assert baseUrl + "/" + ConfigPath + suffix == baseUrl + "/" + ConfigPath + "?t=" + IntToString(now);
    } else {
      assert baseUrl + "/" + ConfigPath + suffix == baseUrl + "/" + ConfigPath;
    }
  }

  /** Without cache busting the file is `.x402/donation.json` on branch
      `main` of repository `repo ?? username`. */
  lemma ConfigUrlParts(username: string, repo: Option<string>, now: int)
    requires '/' !in username && '/' !in TargetRepo(username, repo)
    ensures var u := ConfigUrl(username, repo, false, now);
      && StartsWith(u, RawHost)
      && Split(u[|RawHost|..], '/') == [username, TargetRepo(username, repo), "main", ".x402", "donation.json"]
  {
    var target := TargetRepo(username, repo);
    var tail := "main" + "/" + ConfigPath;
    MainPathParts();
    var path := username + "/" + (target + "/" + tail);
    OwnerRepoParts(username, target, tail, ["main", ".x402", "donation.json"]);
    PairThenThree(username, target, "main", ".x402", "donation.json");
    ConfigUrlShape(username, repo, now, path);
    DropPrefix(RawHost, path, 0);
  }

  lemma MainPathParts()
    ensures Split("main" + "/" + ConfigPath, '/') == ["main", ".x402", "donation.json"]
  {
    assert '/' !in "main";
    DonationConfig.OwnerPathParts("main");
  }

  lemma OwnerRepoParts(owner: string, target: string, tail: string, parts: seq<string>)
    requires '/' !in owner && '/' !in target && Split(tail, '/') == parts
    ensures Split(owner + "/" + (target + "/" + tail), '/') == [owner, target] + parts
  {
    SplitCons(target, tail, '/');
    SplitCons(owner, target + "/" + tail, '/');
  }

  lemma ConfigUrlShape(username: string, repo: Option<string>, now: int, path: string)
    requires path == username + "/" + (TargetRepo(username, repo) + "/" + ("main" + "/" + ConfigPath))
    ensures ConfigUrl(username, repo, false, now) == RawHost + path
  {
  }

  /** The reported source names the user and the target repository, unlike
      the reference of the page built from it for a user-level
      configuration (`github.com/<login>/.x402/donation.json`). */
  lemma ConfigSourceParts(username: string, repo: Option<string>)
    requires '/' !in username && '/' !in TargetRepo(username, repo)
    ensures Split(ConfigSource(username, repo), '/') ==
      ["github.com", username, TargetRepo(username, repo), ".x402", "donation.json"]
  {
    var target := TargetRepo(username, repo);
    var path := username + "/" + (target + "/" + ConfigPath);
    OwnerRepoConfigParts(username, target);
    ConfigSourceShape(username, repo, path);
    DonationConfig.HostPathParts(path, [username, target, ".x402", "donation.json"]);
    ConsFive("github.com", username, target, ".x402", "donation.json");
  }

  lemma PairThenThree(a: string, b: string, c: string, d: string, e: string)
    ensures [a, b] + [c, d, e] == [a, b, c, d, e]
  {
  }

  lemma ConsFive(a: string, b: string, c: string, d: string, e: string)
    ensures [a] + [b, c, d, e] == [a, b, c, d, e]
  {
  }

  lemma OwnerRepoConfigParts(username: string, target: string)
    requires '/' !in username && '/' !in target
    ensures Split(username + "/" + (target + "/" + ConfigPath), '/') == [username, target, ".x402", "donation.json"]
  {
    DonationConfig.ConfigPathParts();
    OwnerRepoParts(username, target, ConfigPath, [".x402", "donation.json"]);
    PairThenPair(username, target, ".x402", "donation.json");
  }

  lemma PairThenPair(a: string, b: string, c: string, d: string)
    ensures [a, b] + [c, d] == [a, b, c, d]
  {
  }

  lemma ConfigSourceShape(username: string, repo: Option<string>, path: string)
    requires path == username + "/" + (TargetRepo(username, repo) + "/" + ConfigPath)
    ensures ConfigSource(username, repo) == "github.com" + "/" + path
  {
  }

  /** `resolveRecipients`: copies the recipients into a fresh list when
      their total is at most 10000; the result is what a quick link keeps. */
  method ResolveRecipients(c: Config) returns (rs: seq<Recipient>)
    ensures rs == QuickLinkConfig.ResolveQuickLinkRecipients(c)
    ensures SumBips(rs) <= MaxBips
  {
    rs := [];
    if c.recipients.Some? && |c.recipients.value| > 0 {
      var given := c.recipients.value;
      if SumBips(given) <= MaxBips {
        var i := 0;
        while i < |given|
          invariant 0 <= i <= |given|
          invariant rs == given[..i]
        {
          rs := rs + [Recipient(given[i].address, given[i].bips)];
          i := i + 1;
        }
        assert given[..|given|] == given;
      }
    }
  }

  /** `resolveDefaultAmount`: the configured default amount, as given. */
  function ResolveDefaultAmount(c: Config): (a: Option<string>)
    ensures a.Some? <==> c.defaultAmount.Some?
    ensures a.Some? ==> a.value == c.defaultAmount.value
  {
    c.defaultAmount
  }

  /** `isDollarAmount`: the amount starts with `$`. */
  function IsDollarAmount(amount: string): (b: bool)
    ensures b <==> |amount| > 0 && amount[0] == '$'
  {
    StartsWith(amount, "$")
  }
}
