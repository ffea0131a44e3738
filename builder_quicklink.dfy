/** The quick-link builder: fills the shared form from the configuration
    in the URL hash, keeps `payTo` on the address in the URL, and builds
    the quick link whose hash carries the generated configuration. */
module BuilderQuickLink {
  import opened Wrappers
  import opened JsString
  import opened DonationConfig
  import opened NetworkUtils
  import opened QuickLinkConfig
  import opened BuilderForm

  /** The fields a decoded configuration writes into the form. Unlike the
      GitHub builder, the creator handle and the links are taken only when
      truthy and non-empty. */
  function FillFromQuickLink(f: FormState, c: Config): (g: FormState)
    ensures g.payTo == OrElse(c.payTo, f.payTo)
    ensures !Truthy(c.title) ==> g.title == f.title
    ensures Truthy(c.title) ==> g.title == c.title.value
    ensures !Truthy(c.description) ==> g.description == f.description
    ensures Truthy(c.description) ==> g.description == c.description.value
    ensures !Truthy(c.defaultAmount) ==> g.defaultAmount == f.defaultAmount
    ensures Truthy(c.defaultAmount) ==> g.defaultAmount == c.defaultAmount.value
    ensures c.creator.None? ==> g.creatorHandle == f.creatorHandle && g.creatorAvatar == f.creatorAvatar
    ensures c.creator.Some? && c.creator.value.handle == "" ==> g.creatorHandle == f.creatorHandle
    ensures c.creator.Some? && c.creator.value.handle != "" ==> g.creatorHandle == c.creator.value.handle
    ensures c.creator.Some? ==> g.creatorAvatar == OrElse(c.creator.value.avatar, f.creatorAvatar)
    ensures (c.links.None? || c.links.value == []) ==> g.links == f.links
    ensures c.links.Some? && c.links.value != [] ==> g.links == LinkInputs(c.links.value)
    ensures (c.recipients.None? || c.recipients.value == []) ==> g.recipients == f.recipients
    ensures c.recipients.Some? && c.recipients.value != [] ==> g.recipients == RecipientInputs(c.recipients.value)
    ensures !NetworkTruthy(c.network) ==> g.networks == f.networks
    ensures NetworkTruthy(c.network) ==> g.networks == NormalizeNetworkConfig(c.network)
    ensures c.network.Some? && c.network.value.NetworkList? ==> g.networks == c.network.value.names
  {
    var handleGiven := c.creator.Some? && c.creator.value.handle != "";
    f.(
      payTo := OrElse(c.payTo, f.payTo),
      title := OrElse(c.title, f.title),
      description := OrElse(c.description, f.description),
      defaultAmount := OrElse(c.defaultAmount, f.defaultAmount),
      networks := if NetworkTruthy(c.network) then NormalizeNetworkConfig(c.network) else f.networks,
      creatorHandle := if handleGiven then c.creator.value.handle else f.creatorHandle,
      creatorAvatar := if c.creator.Some? then OrElse(c.creator.value.avatar, f.creatorAvatar) else f.creatorAvatar,
      links := if c.links.Some? && |c.links.value| > 0 then LinkInputs(c.links.value) else f.links,
      recipients := if c.recipients.Some? && |c.recipients.value| > 0 then RecipientInputs(c.recipients.value) else f.recipients)
  }

  /** Writing the same configuration twice changes nothing more: every
      field the first write sets is set to the same value again. */
  lemma FillFromQuickLinkIdempotent(f: FormState, c: Config)
    ensures FillFromQuickLink(FillFromQuickLink(f, c), c) == FillFromQuickLink(f, c)
  {
  }

  /** The form after mounting: the hash's configuration when it decodes,
      and then `payTo` reset to the address in the URL. */
  function MountedForm(address: string, locationHash: string): (f: FormState)
    ensures f.payTo == address
    ensures DecodeConfigFromHash(HashBody(locationHash)).None? ==> f == BlankForm(address)
  {
    var hash := HashBody(locationHash);
    var loaded :=
      if hash != "" && DecodeConfigFromHash(hash).Some? then FillFromQuickLink(BlankForm(address), DecodeConfigFromHash(hash).value)
      else BlankForm(address);
    loaded.(payTo := address)
  }

  /** The two mount effects, in order: load the hash, then sync `payTo`. */
  method Mount(form: Form, address: string, locationHash: string)
    requires form.State() == BlankForm(address)
    modifies form
    ensures form.State() == MountedForm(address, locationHash)
  {
    var hash := if StartsWith(locationHash, "#") then locationHash[1..] else locationHash;
    if hash != "" {
      var config := DecodeConfigFromHash(hash);
      if config.Some? {
        form.SetState(FillFromQuickLink(form.State(), config.value));
      }
    }
    SyncPayTo(form, address);
  }

  /** The effect on the address prop: `payTo` becomes the address. */
  method SyncPayTo(form: Form, address: string)
    modifies form
    ensures form.State() == old(form.State()).(payTo := address)
  {
    form.payTo := address;
  }

  /** `generateUrl`: the address page, with the generated configuration in the hash. */
  function GenerateUrl(origin: string, f: FormState): (u: string)
    ensures StartsWith(u, origin + "/" + f.payTo + "#")
  {
    var prefix := origin + "/" + f.payTo + "#";
    var u := prefix + EncodeConfigToHash(GenerateConfig(f));
    assert u[..|prefix|] == prefix;
    u
  }

  /** The fragment of the generated URL decodes to the generated configuration. */
  lemma UrlFragmentDecodes(origin: string, f: FormState)
    ensures var prefix := origin + "/" + f.payTo + "#";
      DecodeConfigFromHash(GenerateUrl(origin, f)[|prefix|..]) == Some(GenerateConfig(f))
  {
    var prefix := origin + "/" + f.payTo + "#";
    var h := EncodeConfigToHash(GenerateConfig(f));
    assert (prefix + h)[|prefix|..] == h;
    DecodeEncodeConfig(GenerateConfig(f));
  }

  /** A quick link built from a canonical configuration and opened again
      in the builder fills a form that generates the same configuration,
      paying the address in the URL. */
  lemma ReopenedLinkGeneratesSame(address: string, c: Config)
    requires CanonicalConfig(c) && address != ""
    ensures GenerateConfig(MountedForm(address, "#" + EncodeConfigToHash(c))) == c.(payTo := Some(address))
  {
    ReopenedForm(address, c);
    FilledGenerates(address, c);
  }

  /** Mounting on a quick link's hash writes the configuration it carries. */
  lemma ReopenedForm(address: string, c: Config)
    ensures MountedForm(address, "#" + EncodeConfigToHash(c)) == FillFromQuickLink(BlankForm(address), c).(payTo := address)
  {
    var h := EncodeConfigToHash(c);
    assert ("#" + h)[..1] == "#";
    assert ("#" + h)[1..] == h;
    NonEmptyEncoding(c);
    DecodeEncodeConfig(c);
    assert HashBody("#" + h) == h;
  }

  lemma FilledGenerates(address: string, c: Config)
    requires CanonicalConfig(c) && address != ""
    ensures GenerateConfig(FillFromQuickLink(BlankForm(address), c).(payTo := address)) == c.(payTo := Some(address))
  {
    FilledFields(address, c);
    WrittenFormGenerates(FillFromQuickLink(BlankForm(address), c).(payTo := address), c.(payTo := Some(address)));
  }

  /** The fields a blank form holds once a canonical configuration is written into it. */
  lemma FilledFields(address: string, c: Config)
    requires CanonicalConfig(c)
    ensures var g := FillFromQuickLink(BlankForm(address), c);
      && g.recipients == (if c.recipients.Some? then RecipientInputs(c.recipients.value) else [])
      && g.links == (if c.links.Some? then LinkInputs(c.links.value) else [])
      && g.title == OrElse(c.title, "") && g.description == OrElse(c.description, "")
      && g.creatorHandle == (if c.creator.Some? then c.creator.value.handle else "")
      && g.creatorAvatar == (if c.creator.Some? then OrElse(c.creator.value.avatar, "") else "")
      && g.networks == (if NetworkTruthy(c.network) then NormalizeNetworkConfig(c.network) else [])
      && g.defaultAmount == OrElse(c.defaultAmount, "")
  {
  }

  /** `getDisplayName`: the title, else the shortened `payTo`. */
  function GetDisplayName(title: string, payTo: string): (n: string)
    ensures title != "" ==> n == title
    ensures title == "" ==> n == Abbreviate(payTo)
  {
    if title != "" then title else Abbreviate(payTo)
  }
}
