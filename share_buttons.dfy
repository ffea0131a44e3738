/** The share panel of a donation page: the URL it shares, and the
    Twitter, Facebook and Telegram links that carry it. */
module ShareButtons {
  import opened Wrappers
  import opened JsString
  import opened DonationConfig
  import Percent

  /** The user and repository of a verified GitHub page whose reference
      splits into at least `github.com`, a user and a repository. */
  function GitHubShareTarget(pageData: Option<PageData>): (t: Option<(string, string)>)
    ensures t.Some? <==>
      && pageData.Some?
      && pageData.value.metadata.source.kind == GitHubSource
      && pageData.value.metadata.source.verified
      && pageData.value.metadata.githubUser.Some?
      && |Split(pageData.value.metadata.source.reference, '/')| >= 3
      && Split(pageData.value.metadata.source.reference, '/')[0] == "github.com"
    ensures t.Some? ==> var parts := Split(pageData.value.metadata.source.reference, '/');
      t.value == (parts[1], parts[2])
  {
    if pageData.Some? && pageData.value.metadata.source.kind == GitHubSource
       && pageData.value.metadata.source.verified && pageData.value.metadata.githubUser.Some?
    then
      var parts := Split(pageData.value.metadata.source.reference, '/');
      if |parts| >= 3 && parts[0] == "github.com" then Some((parts[1], parts[2])) else None
    else None
  }

  /** `shareUrl`: the GitHub page, with the amount encoded, for a verified
      GitHub source; otherwise the `/give?to=` page, with the amount as it is. */
  function ShareUrl(origin: string, recipient: string, amount: Option<string>, pageData: Option<PageData>): (u: string)
    ensures var t := GitHubShareTarget(pageData);
      t.Some? ==>
        u == origin + "/github.com/" + t.value.0 + "/" + t.value.1
             + (if Truthy(amount) then "?amount=" + Percent.EncodeUriComponent(amount.value) else "")
    ensures GitHubShareTarget(pageData).None? ==>
      u == origin + "/give?to=" + recipient + (if Truthy(amount) then "&amount=" + amount.value else "")
  {
    match GitHubShareTarget(pageData)
    case Some((username, repo)) =>
      origin + "/github.com/" + username + "/" + repo
      + (if Truthy(amount) then "?amount=" + Percent.EncodeUriComponent(amount.value) else "")
    case None =>
      origin + "/give?to=" + recipient + (if Truthy(amount) then "&amount=" + amount.value else "")
  }

  /** A verified page of a user-level configuration reads `.x402` as the
      repository and shares `/github.com/<login>/.x402`. */
  lemma UserLevelShareUsesConfigDir(origin: string, recipient: string, configFile: Config, user: GitHubUser)
    requires '/' !in user.login
    ensures ShareUrl(origin, recipient, None, Some(BuildGitHubDataWithFile(configFile, user, None)))
            == origin + "/github.com/" + user.login + "/.x402"
  {
    var p := BuildGitHubDataWithFile(configFile, user, None);
    var parts := Split(p.metadata.source.reference, '/');
    assert parts == ["github.com", user.login, ".x402", "donation.json"] by {
      UserReferenceParts(user);
    }
    assert GitHubShareTarget(Some(p)) == Some((user.login, ".x402"));
  }

  /** A page without a config file is unverified and shares the `/give?to=` page. */
  lemma UnverifiedSharesGivePage(origin: string, recipient: string, amount: Option<string>, user: GitHubUser, repo: Option<GitHubRepo>)
    ensures ShareUrl(origin, recipient, amount, Some(BuildGitHubDataWithoutFile(user, repo)))
            == origin + "/give?to=" + recipient + (if Truthy(amount) then "&amount=" + amount.value else "")
  {
  }

  const ShareText := "Support me via x402.gives \U{1F49D}"

  const TwitterPrefix := "https://twitter.com/intent/tweet?text="
  const FacebookPrefix := "https://www.facebook.com/sharer/sharer.php?u="
  const TelegramPrefix := "https://t.me/share/url?url="

  function TwitterLink(text: string, shareUrl: string): string {
    TwitterPrefix + Percent.EncodeUriComponent(text) + "&url=" + Percent.EncodeUriComponent(shareUrl)
  }

  function FacebookLink(shareUrl: string): string {
    FacebookPrefix + Percent.EncodeUriComponent(shareUrl)
  }

  function TelegramLink(text: string, shareUrl: string): string {
    TelegramPrefix + Percent.EncodeUriComponent(shareUrl) + "&text=" + Percent.EncodeUriComponent(text)
  }

  /** `shareLinks`, with the fixed share text. */
  datatype ShareLinks = ShareLinks(twitter: string, facebook: string, telegram: string)

  function Links(shareUrl: string): ShareLinks {
    ShareLinks(TwitterLink(ShareText, shareUrl), FacebookLink(shareUrl), TelegramLink(ShareText, shareUrl))
  }

  lemma EncodedHasNoAmpersand(s: string)
    ensures '&' !in Percent.EncodeUriComponent(s)
  {
  }

  /** The text after `key` up to the next `&`. */
  function ParamAfter(link: string, key: string): (v: string)
    requires StartsWith(link, key)
    ensures '&' !in v
  {
    BeforeFirst(link[|key|..], '&')
  }

  lemma ParamOf(key: string, value: string, rest: string)
    requires '&' !in value && (rest == [] || rest[0] == '&')
    ensures StartsWith(key + value + rest, key) && ParamAfter(key + value + rest, key) == value
  {
    var l := key + value + rest;
    assert l[..|key|] == key;
    var t := l[|key|..];
    assert t == value + rest;
    if rest != [] {
      assert t[|value|] == '&';
    }
    assert t[..|value|] == value;
  }

  /** Each share link carries the share URL: decoding its URL parameter
      gives it back. */
  lemma ShareLinksCarryUrl(shareUrl: string)
    ensures var l := Links(shareUrl);
      var twitterKey := TwitterPrefix + Percent.EncodeUriComponent(ShareText) + "&url=";
      && StartsWith(l.twitter, twitterKey)
      && Percent.DecodeUriComponent(ParamAfter(l.twitter, twitterKey)) == Ok(shareUrl)
      && StartsWith(l.facebook, FacebookPrefix)
      && Percent.DecodeUriComponent(ParamAfter(l.facebook, FacebookPrefix)) == Ok(shareUrl)
      && StartsWith(l.telegram, TelegramPrefix)
      && Percent.DecodeUriComponent(ParamAfter(l.telegram, TelegramPrefix)) == Ok(shareUrl)
  {
    var text := ShareText;
    TwitterCarriesUrl(text, shareUrl);
    FacebookCarriesUrl(shareUrl);
    TelegramCarriesUrl(text, shareUrl);
  }

  lemma TwitterCarriesUrl(text: string, shareUrl: string)
    ensures var twitterKey := TwitterPrefix + Percent.EncodeUriComponent(text) + "&url=";
      StartsWith(TwitterLink(text, shareUrl), twitterKey)
      && Percent.DecodeUriComponent(ParamAfter(TwitterLink(text, shareUrl), twitterKey)) == Ok(shareUrl)
  {
    var u := Percent.EncodeUriComponent(shareUrl);
    var twitterKey := TwitterPrefix + Percent.EncodeUriComponent(text) + "&url=";
    EncodedHasNoAmpersand(shareUrl);
    Percent.DecodeEncode(shareUrl);
    ParamOf(twitterKey, u, "");
    assert twitterKey + u + "" == TwitterLink(text, shareUrl);
  }

  lemma FacebookCarriesUrl(shareUrl: string)
    ensures StartsWith(FacebookLink(shareUrl), FacebookPrefix)
      && Percent.DecodeUriComponent(ParamAfter(FacebookLink(shareUrl), FacebookPrefix)) == Ok(shareUrl)
  {
    var u := Percent.EncodeUriComponent(shareUrl);
    EncodedHasNoAmpersand(shareUrl);
    Percent.DecodeEncode(shareUrl);
    ParamOf(FacebookPrefix, u, "");
    assert FacebookPrefix + u + "" == FacebookLink(shareUrl);
  }

  lemma TelegramCarriesUrl(text: string, shareUrl: string)
    ensures StartsWith(TelegramLink(text, shareUrl), TelegramPrefix)
      && Percent.DecodeUriComponent(ParamAfter(TelegramLink(text, shareUrl), TelegramPrefix)) == Ok(shareUrl)
  {
    var u := Percent.EncodeUriComponent(shareUrl);
    var e := Percent.EncodeUriComponent(text);
    EncodedHasNoAmpersand(shareUrl);
    Percent.DecodeEncode(shareUrl);
    ParamOf(TelegramPrefix, u, "&text=" + e);
    ConcatAssoc(TelegramPrefix + u, "&text=", e);
  }
}
