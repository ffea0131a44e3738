/** The donation-page data model: the configuration a recipient publishes
    (in a `.x402/donation.json` file or in a quick-link hash), the GitHub
    metadata fetched beside it, and the page and display records built
    from the two. */
module DonationConfig {
  import opened Wrappers
  import opened JsString

  /** One split recipient; `bips` is its share in basis points (10000 = 100%). */
  datatype Recipient = Recipient(address: string, bips: int)

  datatype Creator = Creator(handle: string, avatar: Option<string>)

  datatype Link = Link(url: string, caption: Option<string>)

  /** The `network` field: one network name or a list of them. */
  datatype NetworkSetting = OneNetwork(name: string) | NetworkList(names: seq<string>)

  /** A donation configuration; every field is optional. */
  datatype Config = Config(
    payTo: Option<string>,
    recipients: Option<seq<Recipient>>,
    title: Option<string>,
    description: Option<string>,
    creator: Option<Creator>,
    defaultAmount: Option<string>,
    network: Option<NetworkSetting>,
    links: Option<seq<Link>>)

  /** The configuration with no field set. */
  const EmptyConfig := Config(None, None, None, None, None, None, None, None)

  /** The directory and file of a repository's donation configuration. */
  const ConfigDir := ".x402"
  const ConfigFile := "donation.json"
  const ConfigPath := ConfigDir + "/" + ConfigFile

  datatype GitHubUser = GitHubUser(
    login: string,
    name: string,
    avatarUrl: string,
    bio: Option<string>,
    htmlUrl: string,
    blog: Option<string>,
    twitterUsername: Option<string>,
    email: Option<string>)

  datatype GitHubRepo = GitHubRepo(
    name: string,
    fullName: string,
    description: Option<string>,
    htmlUrl: string,
    homepage: Option<string>,
    stargazersCount: Option<int>,
    forksCount: Option<int>)

  datatype SourceType = GitHubSource | QuickLinkSource | CustomSource

  /** Where the page data came from; `verified` holds when a GitHub config file exists. */
  datatype Source = Source(kind: SourceType, reference: string, verified: bool)

  datatype Metadata = Metadata(
    source: Source,
    githubUser: Option<GitHubUser>,
    githubRepo: Option<GitHubRepo>)

  /** The data a recipient page renders: a configuration and its metadata. */
  datatype PageData = PageData(config: Config, metadata: Metadata)

  /** The configuration merged with the metadata for display. */
  datatype DisplayData = DisplayData(
    title: string,
    description: Option<string>,
    creator: Option<Creator>,
    recipients: seq<Recipient>,
    links: seq<Link>,
    defaultAmount: Option<string>,
    network: Option<NetworkSetting>,
    source: Source)

  /** The most basis points a recipient list may take (100%). */
  const MaxBips := 10000

  /** The sum of the recipients' bips (`reduce((sum, r) => sum + r.bips, 0)`). */
  function SumBips(rs: seq<Recipient>): int {
    if rs == [] then 0 else SumBips(rs[..|rs| - 1]) + rs[|rs| - 1].bips
  }

  lemma {:induction false} SumBipsAppend(rs: seq<Recipient>, r: Recipient)
    ensures SumBips(rs + [r]) == SumBips(rs) + r.bips
  {
    assert (rs + [r])[..|rs|] == rs;
  }

  // ---------------------------------------------------------------------
  // Link classification
  // ---------------------------------------------------------------------

  datatype LinkType = Website | Repository | Documentation | Twitter | Discord | Telegram | Blog | Email

  predicate ContainsAny(s: string, patterns: seq<string>) {
    exists i :: 0 <= i < |patterns| && Contains(s, patterns[i])
  }

  /** The patterns of each kind, in the order they are tried. */
  const RepositoryPatterns: seq<string> := ["github.com", "gitlab.com"]
  const TwitterPatterns: seq<string> := ["twitter.com", "x.com"]
  const DiscordPatterns: seq<string> := ["discord.gg", "discord.com"]
  const TelegramPatterns: seq<string> := ["t.me", "telegram."]
  const DocumentationPatterns: seq<string> := ["/docs", "/documentation", "docs."]
  const BlogPatterns: seq<string> := ["/blog", "blog.", "medium.com"]

  /** Classifies a link by its lower-cased URL. A kind is chosen exactly
      when its own test passes and no earlier kind's does, in the order
      repository, Twitter, Discord, Telegram, e-mail, documentation, blog;
      an URL passing none is a website. */
  function DetectLinkType(url: string): (t: LinkType)
    ensures var u := AsciiLower(url);
      var repo, tw, dc, tg := ContainsAny(u, RepositoryPatterns), ContainsAny(u, TwitterPatterns),
                              ContainsAny(u, DiscordPatterns), ContainsAny(u, TelegramPatterns);
      var mail, docs, blog := StartsWith(u, "mailto:"), ContainsAny(u, DocumentationPatterns),
                              ContainsAny(u, BlogPatterns);
      && (t == Repository <==> repo)
      && (t == Twitter <==> !repo && tw)
      && (t == Discord <==> !repo && !tw && dc)
      && (t == Telegram <==> !repo && !tw && !dc && tg)
      && (t == Email <==> !repo && !tw && !dc && !tg && mail)
      && (t == Documentation <==> !repo && !tw && !dc && !tg && !mail && docs)
      && (t == Blog <==> !repo && !tw && !dc && !tg && !mail && !docs && blog)
      && (t == Website <==> !repo && !tw && !dc && !tg && !mail && !docs && !blog)
  {
    var u := AsciiLower(url);
    if ContainsAny(u, RepositoryPatterns) then Repository
    else if ContainsAny(u, TwitterPatterns) then Twitter
    else if ContainsAny(u, DiscordPatterns) then Discord
    else if ContainsAny(u, TelegramPatterns) then Telegram
    else if StartsWith(u, "mailto:") then Email
    else if ContainsAny(u, DocumentationPatterns) then Documentation
    else if ContainsAny(u, BlogPatterns) then Blog
    else Website
  }

  lemma {:induction false} AsciiLowerIdempotent(s: string)
    ensures AsciiLower(AsciiLower(s)) == AsciiLower(s)
  {
    var l := AsciiLower(s);
    forall i | 0 <= i < |s| ensures AsciiLower(l)[i] == l[i] {
      assert l[i] == LowerChar(s[i]);
    }
  }

  /** The classification ignores the case of ASCII letters. */
  lemma DetectLinkTypeCaseInsensitive(url: string)
    ensures DetectLinkType(AsciiLower(url)) == DetectLinkType(url)
  {
    AsciiLowerIdempotent(url);
  }

  lemma {:induction false} AsciiLowerOfLower(s: string)
    requires forall i :: 0 <= i < |s| ==> !('A' <= s[i] <= 'Z')
    ensures AsciiLower(s) == s
  {
  }

  /** A GitHub URL is a repository link even when it also looks like
      documentation: the repository patterns are tried first. */
  lemma RepositoryWinsOverDocs(path: string)
    ensures var url := "https://github.com/" + path + "/docs";
      && ContainsAny(AsciiLower(url), DocumentationPatterns)
      && DetectLinkType(url) == Repository
  {
    var url := "https://github.com/" + path + "/docs";
    var u := AsciiLower(url);
    var host, docs := "github.com", "/docs";
    assert url[8..18] == host;
    forall k | 8 <= k < 18
      ensures u[k] == url[k]
    {
      assert url[k] == host[k - 8];
    }
    assert u[8..18] == host;
    ContainsAt(u, host, 8);
    assert Contains(u, RepositoryPatterns[0]);
    var n := |url| - 5;
    assert url[n..] == docs;
    forall k | n <= k < |url|
      ensures u[k] == url[k]
    {
      assert url[k] == docs[k - n];
    }
    assert u[n..n + 5] == docs;
    ContainsAt(u, docs, n);
    assert Contains(u, DocumentationPatterns[0]);
  }

  // ---------------------------------------------------------------------
  // Display merging
  // ---------------------------------------------------------------------

  predicate HasUrl(links: seq<Link>, url: string) {
    exists i :: 0 <= i < |links| && links[i].url == url
  }

  /** `links || []`. */
  function LinksOrEmpty(links: Option<seq<Link>>): seq<Link> {
    if links.Some? then links.value else []
  }

  /** The website a GitHub page adds: the repository homepage if truthy, else the user's blog. */
  function WebsiteUrl(metadata: Metadata): (w: Option<string>)
    ensures metadata.githubRepo.Some? && Truthy(metadata.githubRepo.value.homepage) ==>
              w == metadata.githubRepo.value.homepage
    ensures !(metadata.githubRepo.Some? && Truthy(metadata.githubRepo.value.homepage)) ==>
              w == (if metadata.githubUser.Some? then metadata.githubUser.value.blog else None)
  {
    var homepage := if metadata.githubRepo.Some? then metadata.githubRepo.value.homepage else None;
    if Truthy(homepage) then homepage
    else if metadata.githubUser.Some? then metadata.githubUser.value.blog
    else None
  }

  /** Whether `mergeLinks` adds the repository page: a GitHub source with
      repository data whose URL the configured links do not hold. */
  predicate AddsRepository(cl: seq<Link>, metadata: Metadata) {
    metadata.source.kind == GitHubSource && metadata.githubRepo.Some?
    && !HasUrl(cl, metadata.githubRepo.value.htmlUrl)
  }

  /** Whether `mergeLinks` adds the website: a GitHub source with a truthy
      website whose URL the configured links do not hold. */
  predicate AddsWebsite(cl: seq<Link>, metadata: Metadata) {
    metadata.source.kind == GitHubSource && Truthy(WebsiteUrl(metadata))
    && !HasUrl(cl, WebsiteUrl(metadata).value)
  }

  /** The links `mergeLinks` returns: the configured links, then the
      repository page labelled "Repository", then the website labelled
      "Website", each only when it is added. */
  function MergedLinks(configLinks: Option<seq<Link>>, metadata: Metadata): (links: seq<Link>)
    ensures var cl := LinksOrEmpty(configLinks);
      && |links| == |cl| + (if AddsRepository(cl, metadata) then 1 else 0) + (if AddsWebsite(cl, metadata) then 1 else 0)
      && links[..|cl|] == cl
      && (AddsRepository(cl, metadata) ==> links[|cl|] == Link(metadata.githubRepo.value.htmlUrl, Some("Repository")))
      && (AddsWebsite(cl, metadata) ==> links[|links| - 1] == Link(WebsiteUrl(metadata).value, Some("Website")))
    ensures var cl := LinksOrEmpty(configLinks);
      && (metadata.source.kind != GitHubSource ==> links == cl)
      && (forall i :: |cl| <= i < |links| ==> !HasUrl(cl, links[i].url))
      && (metadata.source.kind == GitHubSource && metadata.githubRepo.Some? ==>
            HasUrl(links, metadata.githubRepo.value.htmlUrl))
      && (metadata.source.kind == GitHubSource && Truthy(WebsiteUrl(metadata)) ==>
            HasUrl(links, WebsiteUrl(metadata).value))
  {
    var cl := LinksOrEmpty(configLinks);
    var repoLink := if AddsRepository(cl, metadata) then [Link(metadata.githubRepo.value.htmlUrl, Some("Repository"))] else [];
    var siteLink := if AddsWebsite(cl, metadata) then [Link(WebsiteUrl(metadata).value, Some("Website"))] else [];
    var links := cl + repoLink + siteLink;
    assert links[..|cl|] == cl;
    assert metadata.source.kind == GitHubSource && metadata.githubRepo.Some? ==>
             HasUrl(links, metadata.githubRepo.value.htmlUrl) by {
      if metadata.source.kind == GitHubSource && metadata.githubRepo.Some? {
        if AddsRepository(cl, metadata) {
          assert links[|cl|].url == metadata.githubRepo.value.htmlUrl;
        } else {
          var k :| 0 <= k < |cl| && cl[k].url == metadata.githubRepo.value.htmlUrl;
          assert links[k] == cl[k];
        }
      }
    }
    assert metadata.source.kind == GitHubSource && Truthy(WebsiteUrl(metadata)) ==>
             HasUrl(links, WebsiteUrl(metadata).value) by {
      if metadata.source.kind == GitHubSource && Truthy(WebsiteUrl(metadata)) {
        if AddsWebsite(cl, metadata) {
          assert links[|links| - 1].url == WebsiteUrl(metadata).value;
        } else {
          var k :| 0 <= k < |cl| && cl[k].url == WebsiteUrl(metadata).value;
          assert links[k] == cl[k];
        }
      }
    }
    links
  }

  /** Merging the merged links again adds nothing: after one merge the
      links hold the repository page and the website already. */
  lemma MergeLinksIdempotent(configLinks: Option<seq<Link>>, metadata: Metadata)
    ensures MergedLinks(Some(MergedLinks(configLinks, metadata)), metadata) == MergedLinks(configLinks, metadata)
  {
    var links := MergedLinks(configLinks, metadata);
    assert !AddsRepository(links, metadata) && !AddsWebsite(links, metadata);
    assert MergedLinks(Some(links), metadata)[..|links|] == links;
  }

  /** `mergeLinks`: copies the configured links and pushes the GitHub
      repository page and website onto the copy. */
  method MergeLinks(configLinks: Option<seq<Link>>, metadata: Metadata) returns (links: seq<Link>)
    ensures links == MergedLinks(configLinks, metadata)
  {
    var cl := LinksOrEmpty(configLinks);
    links := cl;
    if metadata.source.kind == GitHubSource {
      var repo := metadata.githubRepo;
      if repo.Some? && !HasUrl(cl, repo.value.htmlUrl) {
        links := links + [Link(repo.value.htmlUrl, Some("Repository"))];
      }
      var websiteUrl := WebsiteUrl(metadata);
      if Truthy(websiteUrl) && !HasUrl(cl, websiteUrl.value) {
        links := links + [Link(websiteUrl.value, Some("Website"))];
      }
    }
  }

  /** `config.title || repo.name || user.login || source.reference`. */
  function DisplayTitle(config: Config, metadata: Metadata): (t: string)
    ensures Truthy(config.title) ==> t == config.title.value
    ensures !Truthy(config.title) && metadata.githubRepo.Some? && metadata.githubRepo.value.name != "" ==>
              t == metadata.githubRepo.value.name
    ensures !Truthy(config.title) && !(metadata.githubRepo.Some? && metadata.githubRepo.value.name != "")
            && metadata.githubUser.Some? && metadata.githubUser.value.login != "" ==>
              t == metadata.githubUser.value.login
    ensures !Truthy(config.title) && !(metadata.githubRepo.Some? && metadata.githubRepo.value.name != "")
            && !(metadata.githubUser.Some? && metadata.githubUser.value.login != "") ==>
              t == metadata.source.reference
    ensures t == "" ==> metadata.source.reference == ""
    ensures t in {OrElse(config.title, ""), metadata.source.reference}
              + (if metadata.githubRepo.Some? then {metadata.githubRepo.value.name} else {})
              + (if metadata.githubUser.Some? then {metadata.githubUser.value.login} else {})
  {
    if Truthy(config.title) then config.title.value
    else if metadata.githubRepo.Some? && metadata.githubRepo.value.name != "" then metadata.githubRepo.value.name
    else if metadata.githubUser.Some? && metadata.githubUser.value.login != "" then metadata.githubUser.value.login
    else metadata.source.reference
  }

  /** `config.description || repo.description || (user.bio ?? undefined)`:
      the last alternative is taken as it is, even when empty. */
  function DisplayDescription(config: Config, metadata: Metadata): (d: Option<string>)
    ensures Truthy(config.description) ==> d == config.description
    ensures !Truthy(config.description) && metadata.githubRepo.Some? && Truthy(metadata.githubRepo.value.description) ==>
              d == metadata.githubRepo.value.description
    ensures d.Some? && !Truthy(d) ==> metadata.githubUser.Some? && metadata.githubUser.value.bio == Some("")
    ensures !Truthy(config.description) && !(metadata.githubRepo.Some? && Truthy(metadata.githubRepo.value.description)) ==>
              d == (if metadata.githubUser.Some? then metadata.githubUser.value.bio else None)
    ensures d.None? ==> !Truthy(config.description) && metadata.githubUser.Some? ==> metadata.githubUser.value.bio.None?
  {
    if Truthy(config.description) then config.description
    else if metadata.githubRepo.Some? && Truthy(metadata.githubRepo.value.description) then metadata.githubRepo.value.description
    else if metadata.githubUser.Some? then metadata.githubUser.value.bio
    else None
  }

  /** `config.creator`, else the GitHub user's login and avatar. */
  function DisplayCreator(config: Config, metadata: Metadata): (c: Option<Creator>)
    ensures config.creator.Some? ==> c == config.creator
    ensures config.creator.None? && metadata.githubUser.Some? ==>
              c == Some(Creator(metadata.githubUser.value.login, Some(metadata.githubUser.value.avatarUrl)))
    ensures c.None? <==> config.creator.None? && metadata.githubUser.None?
  {
    if config.creator.Some? then config.creator
    else if metadata.githubUser.Some? then
      Some(Creator(metadata.githubUser.value.login, Some(metadata.githubUser.value.avatarUrl)))
    else None
  }

  /** Merges a page's configuration with its metadata for display. */
  method GetDisplayData(data: PageData) returns (d: DisplayData)
    ensures data.config.recipients.Some? ==> d.recipients == data.config.recipients.value
    ensures data.config.recipients.None? ==> d.recipients == []
    ensures d.title == DisplayTitle(data.config, data.metadata)
    ensures d.description == DisplayDescription(data.config, data.metadata)
    ensures d.creator == DisplayCreator(data.config, data.metadata)
    ensures d.defaultAmount == data.config.defaultAmount && d.network == data.config.network
    ensures d.source == data.metadata.source
    ensures d.links == MergedLinks(data.config.links, data.metadata)
  {
    var config := data.config;
    var displayRecipients: seq<Recipient> := [];
    if config.recipients.Some? && |config.recipients.value| > 0 {
      displayRecipients := displayRecipients + config.recipients.value;
    }
    var links := MergeLinks(config.links, data.metadata);
    d := DisplayData(
      DisplayTitle(config, data.metadata),
      DisplayDescription(config, data.metadata),
      DisplayCreator(config, data.metadata),
      displayRecipients,
      links,
      config.defaultAmount,
      config.network,
      data.metadata.source);
  }

  // ---------------------------------------------------------------------
  // Page-data builders
  // ---------------------------------------------------------------------

  /** `github.com/<owner[/repo]>/.x402/donation.json`, with the repository's
      full name when one is known and the user's login otherwise. */
  function GitHubReference(user: GitHubUser, repo: Option<GitHubRepo>): (r: string)
    ensures StartsWith(r, "github.com/") && EndsWith(r, "/" + ConfigPath)
  {
    var owner := if repo.Some? then repo.value.fullName else user.login;
    var r := "github.com/" + owner + "/" + ConfigPath;
    assert r[|r| - |"/" + ConfigPath|..] == "/" + ConfigPath;
    r
  }

  /** GitHub data when the repository has a config file: the file's
      configuration, verified. */
  function BuildGitHubDataWithFile(configFile: Config, user: GitHubUser, repo: Option<GitHubRepo>): (p: PageData)
    ensures p.config == configFile
    ensures p.metadata.source.kind == GitHubSource && p.metadata.source.verified
    ensures p.metadata.source.reference == GitHubReference(user, repo)
    ensures p.metadata.githubUser == Some(user) && p.metadata.githubRepo == repo
  {
    PageData(
      Config(configFile.payTo, configFile.recipients, configFile.title, configFile.description,
             configFile.creator, configFile.defaultAmount, configFile.network, configFile.links),
      Metadata(Source(GitHubSource, GitHubReference(user, repo), true), Some(user), repo))
  }

  /** GitHub data without a config file: an empty configuration (no
      `payTo`), unverified. */
  function BuildGitHubDataWithoutFile(user: GitHubUser, repo: Option<GitHubRepo>): (p: PageData)
    ensures p.config == EmptyConfig && p.config.payTo.None?
    ensures p.metadata.source.kind == GitHubSource && !p.metadata.source.verified
    ensures p.metadata.source.reference == GitHubReference(user, repo)
    ensures p.metadata.githubUser == Some(user) && p.metadata.githubRepo == repo
  {
    PageData(EmptyConfig, Metadata(Source(GitHubSource, GitHubReference(user, repo), false), Some(user), repo))
  }

  /** Quick-link data: the given configuration, unverified, with no GitHub metadata. */
  function BuildQuickLinkData(config: Config, reference: string): (p: PageData)
    ensures p.config == config
    ensures p.metadata.source == Source(QuickLinkSource, reference, false)
    ensures p.metadata.githubUser.None? && p.metadata.githubRepo.None?
  {
    PageData(config, Metadata(Source(QuickLinkSource, reference, false), None, None))
  }

  /** For a user-level page the reference splits into `github.com`, the
      login, `.x402` and `donation.json`, so a reader taking the third part
      as the repository sees `.x402`. */
  lemma UserReferenceParts(user: GitHubUser)
    requires '/' !in user.login
    ensures Split(GitHubReference(user, None), '/') == ["github.com", user.login, ".x402", "donation.json"]
  {
    ReferenceShape(user.login, GitHubReference(user, None));
    OwnerReferenceParts(user.login);
  }

  lemma OwnerReferenceParts(owner: string)
    requires '/' !in owner
    ensures Split("github.com" + "/" + (owner + "/" + ConfigPath), '/') == ["github.com", owner, ".x402", "donation.json"]
  {
    OwnerPathParts(owner);
    HostPathParts(owner + "/" + ConfigPath, [owner, ".x402", "donation.json"]);
    ConsFour("github.com", owner, ".x402", "donation.json");
  }

  lemma ConsFour(a: string, b: string, c: string, d: string)
    ensures [a] + [b, c, d] == [a, b, c, d]
  {
  }

  lemma HostPathParts(path: string, parts: seq<string>)
    requires Split(path, '/') == parts
    ensures Split("github.com" + "/" + path, '/') == ["github.com"] + parts
  {
    HostHasNoSlash();
    SplitPath("github.com", path, parts);
  }

  lemma HostHasNoSlash()
    ensures '/' !in "github.com"
  {
  }

  lemma ReferenceShape(owner: string, r: string)
    requires r == "github.com/" + owner + "/" + ConfigPath
    ensures r == "github.com" + "/" + (owner + "/" + ConfigPath)
  {
  }

  lemma OwnerPathParts(owner: string)
    requires '/' !in owner
    ensures Split(owner + "/" + ConfigPath, '/') == [owner, ".x402", "donation.json"]
  {
    ConfigPathParts();
    SplitCons(owner, ConfigPath, '/');
  }

  lemma ConfigPathParts()
    ensures Split(ConfigPath, '/') == [".x402", "donation.json"]
  {
    assert '/' !in ConfigFile;
    assert Split(ConfigFile, '/') == [ConfigFile];
    SplitCons(ConfigDir, ConfigFile, '/');
  }
}
