/** The badge page `/badge/github.com/<user>[/<repo>]`: it parses the
    target, reads the GitHub configuration and renders an SVG badge whose
    text names the title or the user. */
module Badge {
  import opened Wrappers
  import opened JsString
  import opened DonationConfig
  import opened GitHubConfig

  /** The user and the optional repository a target names. */
  datatype BadgeTarget = BadgeTarget(username: string, repo: Option<string>)

  /** A truthy target whose `/`-separated parts begin with `github.com`
      and a user; the third part, when there is one, is the repository. */
  function ParseTarget(target: Option<string>): (t: Option<BadgeTarget>)
    ensures t.Some? <==>
      Truthy(target) && |Split(target.value, '/')| >= 2 && Split(target.value, '/')[0] == "github.com"
    ensures t.Some? ==> var parts := Split(target.value, '/');
      && t.value.username == parts[1]
      && t.value.repo == (if |parts| > 2 then Some(parts[2]) else None)
  {
    if !Truthy(target) then None
    else
      var parts := Split(target.value, '/');
      if parts[0] != "github.com" || |parts| < 2 then None
      else Some(BadgeTarget(parts[1], if |parts| > 2 then Some(parts[2]) else None))
  }

  /** The badge URL's target for a user, or a user and repository, parses
      back to them. */
  lemma ParseTargetRoundTrip(username: string, repo: Option<string>)
    requires '/' !in username
    requires repo.Some? ==> '/' !in repo.value
    ensures ParseTarget(Some("github.com/" + username + (if repo.Some? then "/" + repo.value else "")))
            == Some(BadgeTarget(username, repo))
  {
    var tail := if repo.Some? then "/" + repo.value else "";
    var rest := username + tail;
    var parts := TargetParts(username, repo);
    var s := "github.com/" + username + tail;
    ConcatAssoc("github.com/", username, tail);
    assert s == "github.com" + "/" + rest;
    HostPathParts(rest, parts);
    TargetOfParts(s, username, repo, parts);
  }

  /** A target whose parts after `github.com` are known parses to them. */
  lemma TargetOfParts(s: string, username: string, repo: Option<string>, parts: seq<string>)
    requires s != "" && Split(s, '/') == ["github.com"] + parts
    requires parts != [] && parts[0] == username && (repo.Some? <==> |parts| > 1)
    requires |parts| > 1 ==> parts[1] == repo.value
    ensures ParseTarget(Some(s)) == Some(BadgeTarget(username, repo))
  {
    var p := Split(s, '/');
    assert p[0] == "github.com" && p[1] == username && |p| == |parts| + 1;
    assert |p| > 2 ==> p[2] == parts[1];
  }

  /** The parts of `<user>[/<repo>]`. */
  function TargetParts(username: string, repo: Option<string>): (parts: seq<string>)
    requires '/' !in username
    requires repo.Some? ==> '/' !in repo.value
    ensures Split(username + (if repo.Some? then "/" + repo.value else ""), '/') == parts
    ensures parts[0] == username && (repo.Some? <==> |parts| > 1)
    ensures |parts| > 1 ==> parts[1] == repo.value
  {
    if repo.Some? then
      assert Split(repo.value, '/') == [repo.value];
      SplitPath(username, repo.value, [repo.value]);
      ConcatAssoc(username, "/", repo.value);
      [username, repo.value]
    else
      assert username + "" == username;
      assert Split(username, '/') == [username];
      [username]
  }

  /** The name the badge shows: `name/repo` when the repository is truthy. */
  function DisplayName(name: string, repo: Option<string>): string {
    if Truthy(repo) then name + "/" + repo.value else name
  }

  const TextPrefix := "Support "
  const TextSuffix := " via x402.gives"

  function BadgeText(name: string, repo: Option<string>): string {
    TextPrefix + DisplayName(name, repo) + TextSuffix
  }

  /** The badge text frames the display name, which can be read back
      from it. */
  lemma BadgeTextFramesName(name: string, repo: Option<string>)
    ensures var t := BadgeText(name, repo);
      && StartsWith(t, TextPrefix) && EndsWith(t, TextSuffix)
      && t[|TextPrefix|..|t| - |TextSuffix|] == DisplayName(name, repo)
  {
    var t := BadgeText(name, repo);
    var d := DisplayName(name, repo);
    assert t[..|TextPrefix|] == TextPrefix;
    assert t[|t| - |TextSuffix|..] == TextSuffix;
    assert t[|TextPrefix|..|t| - |TextSuffix|] == d;
  }

  const SvgHead := "<svg xmlns=\"http://www.w3.org/2000/svg\" width=\"200\" height=\"30\">\n    <defs>\n      <linearGradient id=\"grad\" x1=\"0%\" y1=\"0%\" x2=\"100%\" y2=\"0%\">\n        <stop offset=\"0%\" style=\"stop-color:#3b82f6;stop-opacity:1\" />\n        <stop offset=\"100%\" style=\"stop-color:#1d4ed8;stop-opacity:1\" />\n      </linearGradient>\n    </defs>\n    <rect width=\"200\" height=\"30\" fill=\"url(#grad)\" rx=\"4\"/>\n    <text x=\"10\" y=\"20\" fill=\"white\" fontSize=\"12\" fontFamily=\"Arial, sans-serif\">"
  const SvgTail := "</text>\n  </svg>"

  /** `generateBadgeSvg`: the text inside the fixed template, as it is. */
  function BadgeSvg(name: string, repo: Option<string>): string {
    SvgHead + BadgeText(name, repo) + SvgTail
  }

  /** The name on a badge: the configuration's title when truthy, else the user. */
  function BadgeName(t: BadgeTarget, result: ResolvedGitHubConfig): string {
    OrElse(result.config.title, t.username)
  }

  /** What the badge page ends up showing. */
  datatype BadgeView = ErrorBadge | LoadingBadge | SvgBadge(svg: string)

  /** The badge page's state. */
  class BadgePage {
    var svg: Option<string>
    var error: bool

    constructor ()
      ensures svg.None? && !error
    {
      svg := None;
      error := false;
    }

    /** The error badge wins, then the loading badge until an SVG is set. */
    function View(): (v: BadgeView)
      reads this
      ensures error <==> v == ErrorBadge
      ensures !error && svg.None? <==> v == LoadingBadge
      ensures !error && svg.Some? ==> v == SvgBadge(svg.value)
    {
      if error then ErrorBadge else if svg.None? then LoadingBadge else SvgBadge(svg.value)
    }

    /** `generateBadge`: an unparseable target or a missing configuration
        sets the error; otherwise the badge for the title or the user. The
        configuration is read without cache busting. */
    method Generate(target: Option<string>,
                    fetchConfig: string -> Fetched<Config>,
                    fetchUser: string -> Fetched<GitHubUserInfo>)
      modifies this
      ensures ParseTarget(target).None? ==> error && svg == old(svg)
      ensures ParseTarget(target).Some? ==>
        var t := ParseTarget(target).value;
        var r := GitHubConfigOutcome(t.username, t.repo,
                                     fetchConfig(ConfigUrl(t.username, t.repo, false, 0)),
                                     fetchUser(UserInfoUrl(t.username)));
        && (r.None? ==> error && svg == old(svg))
        && (r.Some? ==> svg == Some(BadgeSvg(BadgeName(t, r.value), t.repo)) && error == old(error))
    {
      if !Truthy(target) {
        error := true;
        return;
      }
      var parts := Split(target.value, '/');
      if parts[0] != "github.com" || |parts| < 2 {
        error := true;
        return;
      }
      var username := parts[1];
      var repo := if |parts| > 2 then Some(parts[2]) else None;
      var result := FetchGitHubConfig(username, repo, false, 0, fetchConfig, fetchUser);
      if result.None? {
        error := true;
        return;
      }
      svg := Some(BadgeSvg(OrElse(result.value.config.title, username), repo));
    }
  }

  /** A configured repository whose configuration has no title shows
      `Support <user>/<repo> via x402.gives`. */
  lemma UntitledBadgeNamesRepo(t: BadgeTarget, result: ResolvedGitHubConfig)
    requires !Truthy(result.config.title) && Truthy(t.repo)
    ensures BadgeText(BadgeName(t, result), t.repo) == "Support " + t.username + "/" + t.repo.value + " via x402.gives"
  {
  }
}
