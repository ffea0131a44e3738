/** The recipient card of a donation page: the shortened address and
    source reference it shows, the primary recipient's share, and which
    view it renders when the configuration has no `payTo`. */
module RecipientCard {
  import opened Wrappers
  import opened JsString
  import opened DonationConfig
  import QuickLinkConfig
  import X402

  /** `formatAddress`: the first six characters, `...` and the last four. */
  function FormatAddress(address: string): (r: string)
    ensures |address| >= 10 ==> |r| == 13 && StartsWith(r, address[..6]) && EndsWith(r, address[|address| - 4..])
    ensures |address| >= 10 ==> r[6..9] == "..."
  {
    Abbreviate(address)
  }

  /** `formatSourceReference`. */
  function FormatSourceReference(source: Source): (r: string)
    ensures source.kind == QuickLinkSource || StartsWith(source.reference, "0x") ==>
      r == FormatAddress(BeforeFirst(source.reference, '#'))
    ensures var parts := Split(source.reference, '/');
      source.kind == GitHubSource && !StartsWith(source.reference, "0x")
      && |parts| >= 3 && parts[0] == "github.com" ==>
      r == parts[0] + "/" + parts[1] + "/" + parts[2]
    ensures var parts := Split(source.reference, '/');
      source.kind != QuickLinkSource && !StartsWith(source.reference, "0x")
      && !(source.kind == GitHubSource && |parts| >= 3 && parts[0] == "github.com") ==>
      (|source.reference| > 50 ==> |r| == 51 && StartsWith(source.reference, r[..24])
                                    && EndsWith(source.reference, r[27..]) && r[24..27] == "...")
      && (|source.reference| <= 50 ==> r == source.reference)
  {
    var ref := source.reference;
    var parts := Split(ref, '/');
    if source.kind == QuickLinkSource || StartsWith(ref, "0x") then FormatAddress(BeforeFirst(ref, '#'))
    else if source.kind == GitHubSource && |parts| >= 3 && parts[0] == "github.com" then
      parts[0] + "/" + parts[1] + "/" + parts[2]
    else if |ref| > 50 then Elide(ref)
    else ref
  }

  /** A long reference keeps its first and last 24 characters around `...`. */
  function Elide(ref: string): (r: string)
    requires |ref| > 50
    ensures |r| == 51 && r[24..27] == "..."
    ensures StartsWith(ref, r[..24]) && EndsWith(ref, r[27..])
  {
    var r := ref[..24] + "..." + ref[|ref| - 24..];
    assert r[..24] == ref[..24] && r[27..] == ref[|ref| - 24..];
    r
  }

  /** A quick-link reference `address#hash` shows the shortened address,
      whatever the hash. */
  lemma QuickLinkShowsAddress(address: string, hash: string, verified: bool)
    requires '#' !in address
    ensures FormatSourceReference(Source(QuickLinkSource, address + "#" + hash, verified)) == FormatAddress(address)
  {
    var ref := address + "#" + hash;
    assert ref[|address|] == '#';
    assert ref[..|address|] == address;
  }

  /** A user-level GitHub page shows `github.com/<login>/.x402`: the card
      reads the configuration directory as the repository name. */
  lemma UserLevelShowsConfigDir(user: GitHubUser, verified: bool)
    requires '/' !in user.login
    ensures FormatSourceReference(Source(GitHubSource, GitHubReference(user, None), verified))
            == "github.com/" + user.login + "/.x402"
  {
    var ref := GitHubReference(user, None);
    var parts := Split(ref, '/');
    assert parts == ["github.com", user.login, ".x402", "donation.json"] by { UserReferenceParts(user); }
    assert !StartsWith(ref, "0x") by { assert ref[0] == 'g'; }
    assert parts[0] + "/" + parts[1] + "/" + parts[2] == "github.com/" + user.login + "/.x402";
  }

  /** The primary recipient (`payTo`) takes what the other recipients leave. */
  function PrimaryShare(recipients: seq<Recipient>): (b: int)
    ensures b + SumBips(recipients) == MaxBips
    ensures |recipients| > 0 ==> (b >= 0 <==> X402.ValidateRecipientConfig(recipients))
  {
    MaxBips - SumBips(recipients)
  }

  /** For a configuration that passes validation the primary share is
      never negative. */
  lemma ValidConfigPrimaryShare(c: Config)
    requires QuickLinkConfig.IsValidConfig(c)
    ensures PrimaryShare(if c.recipients.Some? then c.recipients.value else []) >= 0
  {
  }

  /** The count badge: the other recipients and `payTo`. */
  function RecipientCount(d: DisplayData): (n: nat)
    ensures n == |d.recipients| + 1
    ensures n == 1 <==> !X402.ValidateRecipientConfig(d.recipients) && SumBips(d.recipients) <= MaxBips
  {
    |d.recipients| + 1
  }

  /** What the card renders. */
  datatype CardView =
    | CreatorView(creator: Creator)
    | NoRecipientsView
    | RecipientsView(payTo: string)

  /** Without a truthy `payTo` the card shows the creator when there is
      one, else the "No recipients configured" notice; otherwise the
      recipient list headed by `payTo`. */
  function ChooseView(data: PageData, d: DisplayData): (v: CardView)
    ensures Truthy(data.config.payTo) <==> v.RecipientsView?
    ensures v.RecipientsView? ==> v.payTo == data.config.payTo.value
    ensures !Truthy(data.config.payTo) && d.creator.Some? ==> v == CreatorView(d.creator.value)
    ensures !Truthy(data.config.payTo) && d.creator.None? ==> v == NoRecipientsView
  {
    if !Truthy(data.config.payTo) then
      if d.creator.Some? then CreatorView(d.creator.value) else NoRecipientsView
    else RecipientsView(data.config.payTo.value)
  }
}
