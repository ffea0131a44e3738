/** The builder routes `/builder/github.com/:username/:repo` (the
    repository segment required) and `/builder/:address`: each redirects to
    the donation page it builds, with `?builder=true`, replacing the history
    entry. A path under `/builder/` that neither route matches reaches the
    catch-all page instead. */
module BuilderRedirect {
  import opened Wrappers
  import opened JsString
  import opened DonationConfig
  import BuilderGitHub
  import GivePage

  /** A call of `navigate`: the path and whether it replaces the entry. */
  datatype Navigation = Navigation(path: string, replace: bool)

  const BuilderFlag := "?builder=true"

  /** The redirect for the route parameters, each absent when the route
      does not bind it: a truthy username goes to the GitHub page (with the
      repository when that is truthy), else a truthy address to its page,
      else the builder selector. */
  function RedirectTarget(username: Option<string>, repo: Option<string>, address: Option<string>): (n: Navigation)
    ensures n.replace
    ensures !Truthy(username) && Truthy(address) ==> n.path == "/" + address.value + BuilderFlag
    ensures !Truthy(username) && !Truthy(address) ==> n.path == "/builder"
  {
    if Truthy(username) then
      var r := OrElse(repo, "");
      var targetPath := if r != "" then "/github.com/" + username.value + "/" + r else "/github.com/" + username.value;
      Navigation(targetPath + BuilderFlag, true)
    else if Truthy(address) then Navigation("/" + address.value + BuilderFlag, true)
    else Navigation("/builder", true)
  }

  /** A GitHub builder route lands on the page the GitHub builder panel
      links to, in builder mode; an empty repository parameter counts as
      none. */
  lemma GitHubRedirectIsPanelUrl(username: string, repo: Option<string>, address: Option<string>)
    requires username != ""
    ensures RedirectTarget(Some(username), repo, address).path
            == BuilderGitHub.GenerateUrl("", username, repo) + BuilderFlag
    ensures RedirectTarget(Some(username), repo, address) == RedirectTarget(Some(username), if Truthy(repo) then repo else None, None)
  {
  }

  // ---------------------------------------------------------------------
  // Route matching
  // ---------------------------------------------------------------------

  /** The parameters a builder route binds, each absent when it does not bind it. */
  datatype RouteParams = RouteParams(username: Option<string>, repo: Option<string>, address: Option<string>)

  const BuilderPrefix := "/builder/"

  /** The `/`-separated segments of a path after `/builder/`. */
  function BuilderSegments(path: string): (segs: seq<string>)
    requires StartsWith(path, BuilderPrefix)
    ensures |segs| >= 1 && Join(segs, "/") == path[|BuilderPrefix|..]
  {
    Split(path[|BuilderPrefix|..], '/')
  }

  /** Joining with a separator a list with one more part appends the
      separator and that part. */
  lemma {:induction false} JoinSnoc(parts: seq<string>, last: string, sep: string)
    requires parts != []
    ensures Join(parts + [last], sep) == Join(parts, sep) + sep + last
    decreases |parts|
  {
    if |parts| > 1 {
      assert (parts + [last])[1..] == parts[1..] + [last];
      JoinSnoc(parts[1..], last, sep);
    }
  }

  /** The segments a route pattern is matched against: the segments after
      `/builder/`, less the one empty segment a trailing `/` leaves, since
      the router ignores a trailing slash. */
  function RouteSegments(path: string): (segs: seq<string>)
    requires StartsWith(path, BuilderPrefix)
    ensures |segs| >= 1 && forall i :: 0 <= i < |segs| ==> '/' !in segs[i]
    ensures var rest := path[|BuilderPrefix|..];
      Join(segs, "/") == rest || (Join(segs, "/") + "/" == rest && |segs| == |BuilderSegments(path)| - 1)
    ensures BuilderSegments(path)[|BuilderSegments(path)| - 1] != "" ==> segs == BuilderSegments(path)
  {
    var parts := BuilderSegments(path);
    if |parts| > 1 && parts[|parts| - 1] == "" then
      var init := parts[..|parts| - 1];
      assert parts == init + [""];
      JoinSnoc(init, "", "/");
      init
    else parts
  }

  /** The redirect routes as the router declares them: three segments
      `github.com`, a username and a repository, or one address segment;
      `None` for any other path under `/builder/`, which then shows the
      catch-all page. */
  function MatchBuilderRouteAsWritten(path: string): (p: Option<RouteParams>)
    requires StartsWith(path, BuilderPrefix)
    ensures var segs := RouteSegments(path);
      && (|segs| == 3 && segs[0] == "github.com" && segs[1] != "" && segs[2] != "" ==>
            p == Some(RouteParams(Some(segs[1]), Some(segs[2]), None)))
      && (|segs| == 1 && segs[0] != "" ==> p == Some(RouteParams(None, None, Some(segs[0]))))
      && (p.Some? ==> (|segs| == 3 && segs[0] == "github.com" && segs[1] != "" && segs[2] != "")
                      || (|segs| == 1 && segs[0] != ""))
    ensures p.Some? && p.value.username.Some? ==> p.value.repo.Some? && p.value.repo.value != ""
  {
    var segs := RouteSegments(path);
    if |segs| == 3 && segs[0] == "github.com" && segs[1] != "" && segs[2] != "" then
      Some(RouteParams(Some(segs[1]), Some(segs[2]), None))
    else if |segs| == 1 && segs[0] != "" then Some(RouteParams(None, None, Some(segs[0])))
    else None
  }

  /** The redirect routes with the repository segment optional
      (`/builder/github.com/:username/:repo?`): every GitHub builder path of
      a user, with or without a repository, reaches the redirect. */
  function MatchBuilderRoute(path: string): (p: Option<RouteParams>)
    requires StartsWith(path, BuilderPrefix)
    ensures var segs := RouteSegments(path);
      (|segs| == 2 || |segs| == 3) && segs[0] == "github.com" && segs[1] != "" && (|segs| == 3 ==> segs[2] != "") ==>
        p == Some(RouteParams(Some(segs[1]), if |segs| == 3 then Some(segs[2]) else None, None))
    ensures MatchBuilderRouteAsWritten(path).Some? ==> p == MatchBuilderRouteAsWritten(path)
  {
    var segs := RouteSegments(path);
    if |segs| == 2 && segs[0] == "github.com" && segs[1] != "" then Some(RouteParams(Some(segs[1]), None, None))
    else MatchBuilderRouteAsWritten(path)
  }

  /** A trailing `/` adds one empty segment to a split path. */
  lemma {:induction false} SplitTrailingSlash(s: string)
    ensures Split(s + "/", '/') == Split(s, '/') + [""]
    decreases |s|
  {
    if '/' !in s {
      SplitLastPart(s);
      assert Split(s, '/') == [s];
    } else {
      var i := IndexOf(s, '/');
      SlashAt(s, i);
      SplitTrailingSlash(s[i + 1..]);
      SlashStep(s, s[..i], s[i + 1..], Split(s[i + 1..], '/'));
    }
  }

  lemma SplitLastPart(s: string)
    requires '/' !in s
    ensures Split(s + "/", '/') == [s, ""]
  {
    SplitPath(s, "", [""]);
    assert s + "/" + "" == s + "/";
  }

  lemma SlashAt(s: string, i: nat)
    requires i < |s| && s[i] == '/'
    ensures s == s[..i] + "/" + s[i + 1..]
  {
    assert s == s[..i] + "/" + s[i + 1..];
  }

  lemma SlashStep(s: string, a: string, b: string, pb: seq<string>)
    requires '/' !in a && s == a + "/" + b
    requires Split(b, '/') == pb && Split(b + "/", '/') == pb + [""]
    ensures Split(s + "/", '/') == Split(s, '/') + [""]
  {
    SplitAt(s, a, b, pb);
    AppendSlash(a, b);
    SplitAt(s + "/", a, b + "/", pb + [""]);
    SnocAssoc(a, pb, "");
  }

  lemma SnocAssoc(a: string, pb: seq<string>, x: string)
    ensures [a] + (pb + [x]) == [a] + pb + [x]
  {
  }

  lemma SplitAt(t: string, a: string, b: string, pb: seq<string>)
    requires '/' !in a && t == a + "/" + b && Split(b, '/') == pb
    ensures Split(t, '/') == [a] + pb
  {
    SplitPath(a, b, pb);
  }

  lemma AppendSlash(a: string, b: string)
    ensures (a + "/" + b) + "/" == a + "/" + (b + "/")
  {
  }

  /** The segments of a path with a trailing `/` are those of the path
      and one empty segment. */
  lemma SegmentsWithSlash(path: string)
    requires StartsWith(path, BuilderPrefix)
    ensures StartsWith(path + "/", BuilderPrefix)
    ensures BuilderSegments(path + "/") == BuilderSegments(path) + [""]
  {
    var rest := path[|BuilderPrefix|..];
    assert path == BuilderPrefix + rest;
    assert path + "/" == BuilderPrefix + (rest + "/");
    PrefixedSegments(rest + "/");
    PrefixedSegments(rest);
    SplitTrailingSlash(rest);
  }

  /** Both route tables ignore one trailing `/`: `/builder/<address>/`
      matches as `/builder/<address>` does. */
  lemma TrailingSlashIgnored(path: string)
    requires StartsWith(path, BuilderPrefix)
    requires BuilderSegments(path)[|BuilderSegments(path)| - 1] != ""
    ensures StartsWith(path + "/", BuilderPrefix)
    ensures RouteSegments(path + "/") == RouteSegments(path)
    ensures MatchBuilderRouteAsWritten(path + "/") == MatchBuilderRouteAsWritten(path)
    ensures MatchBuilderRoute(path + "/") == MatchBuilderRoute(path)
  {
    SegmentsWithSlash(path);
    var parts := BuilderSegments(path);
    assert (parts + [""])[..|parts|] == parts;
  }

  /** The redirect for the parameters a route bound. */
  function Redirect(p: RouteParams): Navigation {
    RedirectTarget(p.username, p.repo, p.address)
  }

  /** A path under `/builder/` has the segments of what follows the prefix. */
  lemma PrefixedSegments(rest: string)
    ensures StartsWith(BuilderPrefix + rest, BuilderPrefix) && BuilderSegments(BuilderPrefix + rest) == Split(rest, '/')
  {
    DropPrefix(BuilderPrefix, rest, 0);
  }

  lemma SingleSegment(s: string)
    requires '/' !in s
    ensures Split(s, '/') == [s]
  {
  }

  lemma UserLinkRest(login: string)
    ensures "/builder/github.com/" + login == BuilderPrefix + ("github.com" + "/" + login)
  {
    assert "/builder/github.com/" == BuilderPrefix + "github.com" + "/";
  }

  lemma RepoLinkRest(login: string, name: string)
    ensures "/builder/github.com/" + login + ("/" + name) == BuilderPrefix + ("github.com" + "/" + (login + "/" + name))
  {
    assert "/builder/github.com/" == BuilderPrefix + "github.com" + "/";
  }

  lemma RepoRestSegments(login: string, name: string)
    requires '/' !in login && '/' !in name
    ensures Split("github.com" + "/" + (login + "/" + name), '/') == ["github.com", login, name]
  {
    SingleSegment(name);
    SplitPath(login, name, [name]);
    HostHasNoSlash();
    SplitPath("github.com", login + "/" + name, [login, name]);
  }

  lemma UserPathSegments(login: string)
    requires '/' !in login
    ensures var link := "/builder/github.com/" + login;
      StartsWith(link, BuilderPrefix) && BuilderSegments(link) == ["github.com", login]
  {
    UserLinkRest(login);
    PrefixedSegments("github.com" + "/" + login);
    SingleSegment(login);
    HostHasNoSlash();
    SplitPath("github.com", login, [login]);
  }

  lemma RepoPathSegments(login: string, name: string)
    requires '/' !in login && '/' !in name
    ensures var link := "/builder/github.com/" + login + ("/" + name);
      StartsWith(link, BuilderPrefix) && BuilderSegments(link) == ["github.com", login, name]
  {
    RepoLinkRest(login, name);
    PrefixedSegments("github.com" + "/" + (login + "/" + name));
    RepoRestSegments(login, name);
  }

  /** The segments of a GitHub builder link of a user, with the repository
      segment when there is one. */
  lemma BuilderLinkSegments(user: GitHubUser, repo: Option<GitHubRepo>)
    requires '/' !in user.login && (repo.Some? ==> '/' !in repo.value.name)
    ensures var link := GivePage.BuilderLink(user, repo);
      && StartsWith(link, BuilderPrefix)
      && BuilderSegments(link) == ["github.com", user.login] + (if repo.Some? then [repo.value.name] else [])
  {
    if repo.Some? {
      RepoPathSegments(user.login, repo.value.name);
    } else {
      UserPathSegments(user.login);
      assert GivePage.BuilderLink(user, repo) == "/builder/github.com/" + user.login;
    }
  }

  lemma UserLinkTail(login: string)
    ensures var link := "/builder/github.com/" + login;
      StartsWith(link, "/builder") && link[|"/builder"|..] == "/github.com/" + login
  {
    assert "/builder/github.com/" + login == "/builder" + ("/github.com/" + login);
    DropPrefix("/builder", "/github.com/" + login, 0);
  }

  lemma RepoLinkTail(login: string, name: string)
    ensures var link := "/builder/github.com/" + login + ("/" + name);
      StartsWith(link, "/builder") && link[|"/builder"|..] == "/github.com/" + login + "/" + name
  {
    assert "/builder/github.com/" + login + ("/" + name) == "/builder" + ("/github.com/" + login + "/" + name);
    DropPrefix("/builder", "/github.com/" + login + "/" + name, 0);
  }

  /** The redirect lands on the builder link less its `/builder` prefix,
      in builder mode. */
  lemma LinkRedirectTarget(user: GitHubUser, repo: Option<GitHubRepo>)
    requires user.login != "" && (repo.Some? ==> repo.value.name != "")
    ensures var link := GivePage.BuilderLink(user, repo);
      && StartsWith(link, "/builder")
      && RedirectTarget(Some(user.login), if repo.Some? then Some(repo.value.name) else None, None).path
         == link[|"/builder"|..] + BuilderFlag
  {
    if repo.Some? {
      RepoLinkTail(user.login, repo.value.name);
    } else {
      UserLinkTail(user.login);
      assert GivePage.BuilderLink(user, repo) == "/builder/github.com/" + user.login;
    }
  }

  /** Following the "Create Donation Link Now" link of a repository page
      through the declared routes reaches that repository's page in builder
      mode. */
  lemma RepoPageLinkRedirects(user: GitHubUser, repo: Option<GitHubRepo>)
    requires repo.Some?
    requires user.login != "" && '/' !in user.login
    requires repo.value.name != "" && '/' !in repo.value.name
    ensures var link := GivePage.BuilderLink(user, repo);
      && StartsWith(link, BuilderPrefix)
      && MatchBuilderRouteAsWritten(link) == Some(RouteParams(Some(user.login), Some(repo.value.name), None))
      && Redirect(MatchBuilderRouteAsWritten(link).value).path == link[|"/builder"|..] + BuilderFlag
  {
    BuilderLinkSegments(user, repo);
    LinkRedirectTarget(user, repo);
  }

  /** The same link on a user page without a repository,
      `/builder/github.com/<login>`, matches no redirect route as declared:
      the catch-all page is shown instead of the builder. */
  lemma UserBuilderLinkUnrouted(user: GitHubUser)
    requires user.login != "" && '/' !in user.login
    ensures var link := GivePage.BuilderLink(user, None);
      StartsWith(link, BuilderPrefix) && MatchBuilderRouteAsWritten(link).None?
  {
    BuilderLinkSegments(user, None);
  }

  /** With the repository segment optional, the link of every user or
      repository page reaches the redirect, which lands on the link less its
      `/builder` prefix. */
  lemma BuilderLinkRedirects(user: GitHubUser, repo: Option<GitHubRepo>)
    requires user.login != "" && '/' !in user.login
    requires repo.Some? ==> repo.value.name != "" && '/' !in repo.value.name
    ensures var link := GivePage.BuilderLink(user, repo);
      && StartsWith(link, BuilderPrefix)
      && MatchBuilderRoute(link) == Some(RouteParams(Some(user.login), if repo.Some? then Some(repo.value.name) else None, None))
      && Redirect(MatchBuilderRoute(link).value).path == link[|"/builder"|..] + BuilderFlag
  {
    BuilderLinkSegments(user, repo);
    LinkRedirectTarget(user, repo);
  }
}
