/** The configuration form both link builders share: the recipients and
    links being edited, the text fields, the chosen networks, the totals
    and validity rules, and the configuration the form generates. */
module BuilderForm {
  import opened Wrappers
  import opened JsString
  import opened DonationConfig
  import opened NetworkUtils

  /** A recipient row as typed: `bips` is kept as text. */
  datatype RecipientInput = RecipientInput(address: string, bips: string)

  datatype LinkInput = LinkInput(url: string, caption: string)

  datatype RecipientField = AddressField | BipsField
  datatype LinkField = UrlField | LabelField

  /** Every field of the form. */
  datatype FormState = FormState(
    payTo: string,
    recipients: seq<RecipientInput>,
    title: string,
    description: string,
    creatorHandle: string,
    creatorAvatar: string,
    links: seq<LinkInput>,
    defaultAmount: string,
    networks: seq<string>)

  /** The form before anything is typed, paying `payTo`. */
  function BlankForm(payTo: string): FormState {
    FormState(payTo, [], "", "", "", "", [], "", [])
  }

  // ---------------------------------------------------------------------
  // Totals and validity
  // ---------------------------------------------------------------------

  /** `totalBips`: the sum of `parseInt(bips) || 0` over the rows. */
  function TotalBips(rs: seq<RecipientInput>): int {
    if rs == [] then 0 else TotalBips(rs[..|rs| - 1]) + ParseIntOrZero(rs[|rs| - 1].bips)
  }

  lemma {:induction false} TotalBipsAppend(rs: seq<RecipientInput>, r: RecipientInput)
    ensures TotalBips(rs + [r]) == TotalBips(rs) + ParseIntOrZero(r.bips)
  {
    assert (rs + [r])[..|rs|] == rs;
  }

  /** A row whose bips do not parse counts as 0: a row like that changes
      nothing in the total. */
  lemma UnparsedRowCountsZero(rs: seq<RecipientInput>, r: RecipientInput)
    requires ParseInt(r.bips).None?
    ensures TotalBips(rs + [r]) == TotalBips(rs)
  {
    TotalBipsAppend(rs, r);
  }

  /** `remainingBips`. */
  function RemainingBips(rs: seq<RecipientInput>): (r: int)
    ensures r + TotalBips(rs) == MaxBips
  {
    MaxBips - TotalBips(rs)
  }

  /** A row that passes: a valid address and `parseInt(bips) > 0`. */
  predicate RowValid(r: RecipientInput, isAddress: string -> bool) {
    r.address != "" && isAddress(r.address)
      && match ParseInt(r.bips) case Some(n) => n > 0 case None => false
  }

  /** `isValid`: a valid `payTo`, a total of at most 10000, every row valid. */
  predicate IsValidForm(f: FormState, isAddress: string -> bool) {
    && f.payTo != "" && isAddress(f.payTo)
    && TotalBips(f.recipients) <= MaxBips
    && forall i :: 0 <= i < |f.recipients| ==> RowValid(f.recipients[i], isAddress)
  }

  /** With no split rows the form is valid exactly when `payTo` is an address. */
  lemma NoRowsValidity(f: FormState, isAddress: string -> bool)
    requires f.recipients == []
    ensures IsValidForm(f, isAddress) <==> f.payTo != "" && isAddress(f.payTo)
  {
  }

  /** A row just added (bips "0") makes the form invalid until it is edited. */
  lemma AddedRowInvalid(f: FormState, isAddress: string -> bool)
    ensures !IsValidForm(f.(recipients := f.recipients + [RecipientInput("", "0")]), isAddress)
  {
    var rs := f.recipients + [RecipientInput("", "0")];
    assert !RowValid(rs[|rs| - 1], isAddress);
  }

  // ---------------------------------------------------------------------
  // In-place list edits
  // ---------------------------------------------------------------------

  /** `xs.filter((_, i) => i !== index)`. */
  function RemoveAt<T>(xs: seq<T>, index: int): (r: seq<T>)
    ensures 0 <= index < |xs| ==> |r| == |xs| - 1
    ensures 0 <= index < |xs| ==> forall j :: 0 <= j < index ==> r[j] == xs[j]
    ensures 0 <= index < |xs| ==> forall j :: index <= j < |r| ==> r[j] == xs[j + 1]
    ensures !(0 <= index < |xs|) ==> r == xs
  {
    if 0 <= index < |xs| then xs[..index] + xs[index + 1..] else xs
  }

  /** `{ ...r, [field]: value }` for a recipient row. */
  function SetRecipientField(r: RecipientInput, field: RecipientField, value: string): (s: RecipientInput)
    ensures field == AddressField ==> s.address == value && s.bips == r.bips
    ensures field == BipsField ==> s.bips == value && s.address == r.address
  {
    match field
    case AddressField => r.(address := value)
    case BipsField => r.(bips := value)
  }

  /** `{ ...l, [field]: value }` for a link row. */
  function SetLinkField(l: LinkInput, field: LinkField, value: string): (s: LinkInput)
    ensures field == UrlField ==> s.url == value && s.caption == l.caption
    ensures field == LabelField ==> s.caption == value && s.url == l.url
  {
    match field
    case UrlField => l.(url := value)
    case LabelField => l.(caption := value)
  }

  /** The checkbox of a network: checking appends it, unchecking removes
      every occurrence. */
  function ToggledNetworks(networks: seq<string>, key: string, checked: bool): (r: seq<string>)
    ensures checked ==> r == networks + [key]
    ensures !checked ==> key !in r && forall n :: n in networks && n != key ==> n in r
  {
    if checked then networks + [key] else JsArray.Filter(networks, (n: string) => n != key)
  }

  // ---------------------------------------------------------------------
  // generateConfig
  // ---------------------------------------------------------------------

  /** The `network` field: absent for none, one name for one, the list for several. */
  function NetworkField(networks: seq<string>): (r: Option<NetworkSetting>)
    ensures |networks| == 0 <==> r.None?
    ensures |networks| == 1 ==> r == Some(OneNetwork(networks[0]))
    ensures |networks| > 1 ==> r == Some(NetworkList(networks))
  {
    if |networks| == 0 then None
    else if |networks| == 1 then Some(OneNetwork(networks[0]))
    else Some(NetworkList(networks))
  }

  /** Reading the generated field back gives the chosen networks, unless
      the one chosen name is empty. */
  lemma NetworkFieldNormalizes(networks: seq<string>)
    requires |networks| == 1 ==> networks[0] != ""
    ensures NormalizeNetworkConfig(NetworkField(networks)) == networks
  {
  }

  /** A text field trimmed, and absent when blank. */
  function TrimmedField(s: string): (r: Option<string>)
    ensures r.None? <==> Trim(s) == ""
    ensures r.Some? ==> r.value == Trim(s)
  {
    if Trim(s) != "" then Some(Trim(s)) else None
  }

  /** The links with a blank URL dropped, URLs trimmed, blank labels absent. */
  function GeneratedLinks(ls: seq<LinkInput>): (r: seq<Link>)
    ensures |r| <= |ls|
    ensures forall k :: 0 <= k < |r| ==> r[k].url != ""
  {
    if ls == [] then []
    else
      var rest := GeneratedLinks(ls[1..]);
      if Trim(ls[0].url) != "" then [Link(Trim(ls[0].url), TrimmedField(ls[0].caption))] + rest else rest
  }

  /** A link input is kept exactly when its URL is not blank. */
  lemma {:induction false} GeneratedLinksCount(ls: seq<LinkInput>)
    ensures (forall k :: 0 <= k < |ls| ==> Trim(ls[k].url) != "") ==> |GeneratedLinks(ls)| == |ls|
    ensures (forall k :: 0 <= k < |ls| ==> Trim(ls[k].url) == "") ==> GeneratedLinks(ls) == []
  {
    if ls != [] {
      GeneratedLinksCount(ls[1..]);
      assert forall k :: 0 <= k < |ls[1..]| ==> ls[1..][k] == ls[k + 1];
    }
  }

  /** The recipients as emitted: `parseInt(bips)`, with no number read as 0. */
  function GeneratedRecipients(rs: seq<RecipientInput>): (r: seq<Recipient>)
    ensures |r| == |rs|
    ensures forall k :: 0 <= k < |rs| ==> r[k] == Recipient(rs[k].address, ParseIntOrZero(rs[k].bips))
  {
    if rs == [] then [] else [Recipient(rs[0].address, ParseIntOrZero(rs[0].bips))] + GeneratedRecipients(rs[1..])
  }

  /** `generateConfig`. */
  function GenerateConfig(f: FormState): (c: Config)
    ensures c.payTo.Some? <==> f.payTo != ""
    ensures c.payTo.Some? ==> c.payTo.value == f.payTo
    ensures c.defaultAmount.Some? <==> f.defaultAmount != ""
    ensures c.defaultAmount.Some? ==> c.defaultAmount.value == f.defaultAmount
    ensures c.network == NetworkField(f.networks)
    ensures c.title == TrimmedField(f.title) && c.description == TrimmedField(f.description)
    ensures c.creator.Some? <==> Trim(f.creatorHandle) != ""
    ensures c.creator.Some? ==> c.creator.value == Creator(Trim(f.creatorHandle), TrimmedField(f.creatorAvatar))
    ensures c.links.Some? <==> |f.links| > 0
    ensures c.links.Some? ==> c.links.value == GeneratedLinks(f.links)
    ensures c.recipients.Some? <==> |f.recipients| > 0 && TotalBips(f.recipients) > 0
    ensures c.recipients.Some? ==> c.recipients.value == GeneratedRecipients(f.recipients)
  {
    Config(
      if f.payTo != "" then Some(f.payTo) else None,
      if |f.recipients| > 0 && TotalBips(f.recipients) > 0 then Some(GeneratedRecipients(f.recipients)) else None,
      TrimmedField(f.title),
      TrimmedField(f.description),
      if Trim(f.creatorHandle) != "" then Some(Creator(Trim(f.creatorHandle), TrimmedField(f.creatorAvatar))) else None,
      if f.defaultAmount != "" then Some(f.defaultAmount) else None,
      NetworkField(f.networks),
      if |f.links| > 0 then Some(GeneratedLinks(f.links)) else None)
  }

  /** What a form write-back of a parsed configuration produces for its
      lists: links with a missing label as "", bips as decimal text. */
  function LinkInputs(ls: seq<Link>): (r: seq<LinkInput>)
    ensures |r| == |ls|
    ensures forall k :: 0 <= k < |ls| ==> r[k] == LinkInput(ls[k].url, ls[k].caption.GetOr(""))
  {
    if ls == [] then [] else [LinkInput(ls[0].url, ls[0].caption.GetOr(""))] + LinkInputs(ls[1..])
  }

  function RecipientInputs(rs: seq<Recipient>): (r: seq<RecipientInput>)
    ensures |r| == |rs|
    ensures forall k :: 0 <= k < |rs| ==> r[k] == RecipientInput(rs[k].address, IntToString(rs[k].bips))
  {
    if rs == [] then [] else [RecipientInput(rs[0].address, IntToString(rs[0].bips))] + RecipientInputs(rs[1..])
  }

  /** Text fields that `generateConfig` gives back unchanged: not empty,
      and no white space at either end. */
  predicate TrimmedText(s: string) {
    s != "" && !IsWhitespace(s[0]) && !IsWhitespace(s[|s| - 1])
  }

  lemma TrimmedIsFixed(s: string)
    requires TrimmedText(s)
    ensures Trim(s) == s
  {
    assert TrimStart(s) == s;
    assert TrimEnd(s) == s;
  }

  predicate TrimmedOptional(o: Option<string>) {
    o.None? || TrimmedText(o.value)
  }

  /** Links that survive generation unchanged. */
  predicate CanonicalLinks(ls: seq<Link>) {
    forall k :: 0 <= k < |ls| ==> TrimmedText(ls[k].url) && TrimmedOptional(ls[k].caption)
  }

  /** A configuration that a form filled from it generates back unchanged:
      text already trimmed and not blank, at least one link, one recipient
      and a positive total, and a network list of two or more names. */
  predicate CanonicalConfig(c: Config) {
    && (c.payTo.None? || c.payTo.value != "")
    && (c.recipients.None? || (|c.recipients.value| > 0 && SumBips(c.recipients.value) > 0))
    && TrimmedOptional(c.title) && TrimmedOptional(c.description)
    && (c.creator.None? || (TrimmedText(c.creator.value.handle) && TrimmedOptional(c.creator.value.avatar)))
    && (c.defaultAmount.None? || c.defaultAmount.value != "")
    && (c.network.None? || (c.network.value.OneNetwork? && c.network.value.name != "")
        || (c.network.value.NetworkList? && |c.network.value.names| >= 2))
    && (c.links.None? || (|c.links.value| > 0 && CanonicalLinks(c.links.value)))
  }

  /** `if (config.network)`: a name must be non-empty, a list always counts. */
  predicate NetworkTruthy(n: Option<NetworkSetting>) {
    n.Some? && (n.value.NetworkList? || n.value.name != "")
  }

  lemma TextRoundTrip(o: Option<string>)
    requires TrimmedOptional(o)
    ensures TrimmedField(OrElse(o, "")) == o
  {
    assert Trim("") == "";
    if o.Some? {
      TrimmedIsFixed(o.value);
    }
  }

  lemma CreatorRoundTrip(o: Option<Creator>)
    requires o.None? || (TrimmedText(o.value.handle) && TrimmedOptional(o.value.avatar))
    ensures var handle := if o.Some? then o.value.handle else "";
      var avatar := if o.Some? then OrElse(o.value.avatar, "") else "";
      (if Trim(handle) != "" then Some(Creator(Trim(handle), TrimmedField(avatar))) else None) == o
  {
    assert Trim("") == "";
    if o.Some? {
      TrimmedIsFixed(o.value.handle);
      TextRoundTrip(o.value.avatar);
    }
  }

  lemma NetworkRoundTrip(n: Option<NetworkSetting>)
    requires n.None? || (n.value.OneNetwork? && n.value.name != "") || (n.value.NetworkList? && |n.value.names| >= 2)
    ensures NetworkField(if NetworkTruthy(n) then NormalizeNetworkConfig(n) else []) == n
  {
  }

  // Each field of a configuration in canonical form, written into a form
  // the way both builders write it, is generated back unchanged.

  /** A form holding what a canonical configuration writes into its fields
      generates that configuration again. */
  lemma WrittenFormGenerates(f: FormState, c: Config)
    requires CanonicalConfig(c)
    requires f.payTo == OrElse(c.payTo, "") && f.defaultAmount == OrElse(c.defaultAmount, "")
    requires f.recipients == (if c.recipients.Some? then RecipientInputs(c.recipients.value) else [])
    requires f.links == (if c.links.Some? then LinkInputs(c.links.value) else [])
    requires f.title == OrElse(c.title, "") && f.description == OrElse(c.description, "")
    requires f.creatorHandle == (if c.creator.Some? then c.creator.value.handle else "")
    requires f.creatorAvatar == (if c.creator.Some? then OrElse(c.creator.value.avatar, "") else "")
    requires f.networks == (if NetworkTruthy(c.network) then NormalizeNetworkConfig(c.network) else [])
    ensures GenerateConfig(f) == c
  {
    RecipientsBack(f, c.recipients);
    LinksBack(f, c.links);
    TextBack(f.title, c.title);
    TextBack(f.description, c.description);
    CreatorBack(f, c.creator);
    NetworkBack(f, c.network);
  }

  lemma RecipientsBack(f: FormState, rs: Option<seq<Recipient>>)
    requires rs.None? || (|rs.value| > 0 && SumBips(rs.value) > 0)
    requires f.recipients == if rs.Some? then RecipientInputs(rs.value) else []
    ensures GenerateConfig(f).recipients == rs
  {
    if rs.Some? {
      RecipientRoundTrip(rs.value);
    }
  }

  lemma LinksBack(f: FormState, ls: Option<seq<Link>>)
    requires ls.None? || (|ls.value| > 0 && CanonicalLinks(ls.value))
    requires f.links == if ls.Some? then LinkInputs(ls.value) else []
    ensures GenerateConfig(f).links == ls
  {
    if ls.Some? {
      LinkRoundTrip(ls.value);
    }
  }

  lemma TextBack(field: string, o: Option<string>)
    requires TrimmedOptional(o) && field == OrElse(o, "")
    ensures TrimmedField(field) == o
  {
    TextRoundTrip(o);
  }

  lemma CreatorBack(f: FormState, o: Option<Creator>)
    requires o.None? || (TrimmedText(o.value.handle) && TrimmedOptional(o.value.avatar))
    requires f.creatorHandle == (if o.Some? then o.value.handle else "")
    requires f.creatorAvatar == (if o.Some? then OrElse(o.value.avatar, "") else "")
    ensures GenerateConfig(f).creator == o
  {
    CreatorRoundTrip(o);
  }

  lemma NetworkBack(f: FormState, n: Option<NetworkSetting>)
    requires n.None? || (n.value.OneNetwork? && n.value.name != "") || (n.value.NetworkList? && |n.value.names| >= 2)
    requires f.networks == if NetworkTruthy(n) then NormalizeNetworkConfig(n) else []
    ensures GenerateConfig(f).network == n
  {
    NetworkRoundTrip(n);
  }

  /** Recipients that survive generation unchanged. */
  lemma {:induction false} RecipientRoundTrip(rs: seq<Recipient>)
    ensures GeneratedRecipients(RecipientInputs(rs)) == rs
    ensures TotalBips(RecipientInputs(rs)) == SumBips(rs)
  {
    var inputs := RecipientInputs(rs);
    var out := GeneratedRecipients(inputs);
    forall k | 0 <= k < |rs| ensures out[k] == rs[k] {
      ParseIntOfIntToString(rs[k].bips);
    }
    TotalBipsOfInputs(rs);
  }

  lemma {:induction false} TotalBipsOfInputs(rs: seq<Recipient>)
    ensures TotalBips(RecipientInputs(rs)) == SumBips(rs)
    decreases |rs|
  {
    if rs != [] {
      TotalBipsOfInputs(rs[1..]);
      var head := RecipientInput(rs[0].address, IntToString(rs[0].bips));
      assert RecipientInputs(rs) == [head] + RecipientInputs(rs[1..]);
      TotalBipsCons(head, RecipientInputs(rs[1..]));
      ParseIntOfIntToString(rs[0].bips);
      SumBipsCons(rs);
    }
  }

  lemma TotalBipsCons(head: RecipientInput, rest: seq<RecipientInput>)
    ensures TotalBips([head] + rest) == ParseIntOrZero(head.bips) + TotalBips(rest)
  {
    TotalBipsSplit([head], rest);
    TotalBipsAppend([], head);
    assert [] + [head] == [head];
  }

  lemma SumBipsCons(rs: seq<Recipient>)
    requires rs != []
    ensures SumBips(rs) == rs[0].bips + SumBips(rs[1..])
  {
    SumBipsSplit([rs[0]], rs[1..]);
    SumBipsAppend([], rs[0]);
    assert [] + [rs[0]] == [rs[0]];
    assert [rs[0]] + rs[1..] == rs;
  }

  lemma {:induction false} SumBipsSplit(a: seq<Recipient>, b: seq<Recipient>)
    ensures SumBips(a + b) == SumBips(a) + SumBips(b)
    decreases |b|
  {
    if b == [] {
      assert a + b == a;
    } else {
      var init := b[..|b| - 1];
      SumBipsSplit(a, init);
      assert (a + b)[..|a + b| - 1] == a + init;
    }
  }

  lemma {:induction false} LinkRoundTrip(ls: seq<Link>)
    requires CanonicalLinks(ls)
    ensures GeneratedLinks(LinkInputs(ls)) == ls
    decreases |ls|
  {
    if ls != [] {
      CanonicalTail(ls);
      LinkRoundTrip(ls[1..]);
      LinkStep(ls);
    }
  }

  /** A canonical first link in front of links that round-trip. */
  lemma {:induction false} LinkStep(ls: seq<Link>)
    requires ls != [] && TrimmedText(ls[0].url) && TrimmedOptional(ls[0].caption)
    requires GeneratedLinks(LinkInputs(ls[1..])) == ls[1..]
    ensures GeneratedLinks(LinkInputs(ls)) == ls
  {
    LinkInputsCons(ls);
    TrimmedIsFixed(ls[0].url);
    CaptionBack(ls[0].caption);
    GeneratedLinksCons(LinkInputs(ls), ls[0], ls[1..]);
    HeadTail(ls);
  }

  lemma {:induction false} CanonicalTail(ls: seq<Link>)
    requires ls != [] && CanonicalLinks(ls)
    ensures CanonicalLinks(ls[1..])
  {
    var rest := ls[1..];
    forall k | 0 <= k < |rest| ensures TrimmedText(rest[k].url) && TrimmedOptional(rest[k].caption) {
      assert rest[k] == ls[k + 1];
    }
  }

  lemma {:induction false} LinkInputsCons(ls: seq<Link>)
    requires ls != []
    ensures LinkInputs(ls)[0] == LinkInput(ls[0].url, ls[0].caption.GetOr(""))
    ensures LinkInputs(ls)[1..] == LinkInputs(ls[1..])
  {
  }

  /** A label loaded into the form as text is generated back as it was. */
  lemma CaptionBack(o: Option<string>)
    requires TrimmedOptional(o)
    ensures TrimmedField(o.GetOr("")) == o
  {
    assert Trim("") == "";
    if o.Some? {
      TrimmedIsFixed(o.value);
    }
  }

  /** One kept link input, then the links the others generate. */
  lemma {:induction false} GeneratedLinksCons(inputs: seq<LinkInput>, l: Link, rest: seq<Link>)
    requires inputs != [] && l.url != "" && Trim(inputs[0].url) == l.url
    requires TrimmedField(inputs[0].caption) == l.caption
    requires GeneratedLinks(inputs[1..]) == rest
    ensures GeneratedLinks(inputs) == [l] + rest
  {
  }

  // ---------------------------------------------------------------------
  // The form object
  // ---------------------------------------------------------------------

  /** The builder form's state, edited in place by its handlers. */
  class Form {
    var payTo: string
    var recipients: seq<RecipientInput>
    var title: string
    var description: string
    var creatorHandle: string
    var creatorAvatar: string
    var links: seq<LinkInput>
    var defaultAmount: string
    var networks: seq<string>

    function State(): FormState
      reads this
    {
      FormState(payTo, recipients, title, description, creatorHandle, creatorAvatar, links, defaultAmount, networks)
    }

    constructor (initialPayTo: string)
      ensures State() == BlankForm(initialPayTo)
    {
      payTo := initialPayTo;
      recipients := [];
      title := "";
      description := "";
      creatorHandle := "";
      creatorAvatar := "";
      links := [];
      defaultAmount := "";
      networks := [];
    }

    /** Replaces the whole state (what a loader's batch of setters does). */
    method SetState(s: FormState)
      modifies this
      ensures State() == s
    {
      payTo, recipients, title, description := s.payTo, s.recipients, s.title, s.description;
      creatorHandle, creatorAvatar, links := s.creatorHandle, s.creatorAvatar, s.links;
      defaultAmount, networks := s.defaultAmount, s.networks;
    }

    /** `addRecipient`: a new row with empty address and bips "0". */
    method AddRecipient()
      modifies this
      ensures State() == old(State()).(recipients := old(recipients) + [RecipientInput("", "0")])
    {
      recipients := recipients + [RecipientInput("", "0")];
    }

    /** `removeRecipient`: only row `index` goes; the order is kept. */
    method RemoveRecipient(index: int)
      modifies this
      ensures State() == old(State()).(recipients := RemoveAt(old(recipients), index))
    {
      recipients := RemoveAt(recipients, index);
    }

    /** `updateRecipient`: only `field` of row `index` changes. */
    method UpdateRecipient(index: nat, field: RecipientField, value: string)
      requires index < |recipients|
      modifies this
      ensures State() == old(State()).(recipients := old(recipients)[index := SetRecipientField(old(recipients)[index], field, value)])
    {
      recipients := recipients[index := SetRecipientField(recipients[index], field, value)];
    }

    method AddLink()
      modifies this
      ensures State() == old(State()).(links := old(links) + [LinkInput("", "")])
    {
      links := links + [LinkInput("", "")];
    }

    method RemoveLink(index: int)
      modifies this
      ensures State() == old(State()).(links := RemoveAt(old(links), index))
    {
      links := RemoveAt(links, index);
    }

    method UpdateLink(index: nat, field: LinkField, value: string)
      requires index < |links|
      modifies this
      ensures State() == old(State()).(links := old(links)[index := SetLinkField(old(links)[index], field, value)])
    {
      links := links[index := SetLinkField(links[index], field, value)];
    }

    /** A network checkbox changed. */
    method ToggleNetwork(key: string, checked: bool)
      modifies this
      ensures State() == old(State()).(networks := ToggledNetworks(old(networks), key, checked))
    {
      networks := ToggledNetworks(networks, key, checked);
    }
  }

  /** Removing a row and then reading the totals: the removed row's
      contribution is gone and nothing else. */
  lemma {:induction false} RemoveRowTotal(rs: seq<RecipientInput>, index: nat)
    requires index < |rs|
    ensures TotalBips(RemoveAt(rs, index)) == TotalBips(rs) - ParseIntOrZero(rs[index].bips)
  {
    var before, after := rs[..index], rs[index + 1..];
    assert rs == before + [rs[index]] + after;
    assert RemoveAt(rs, index) == before + after;
    TotalBipsSplit(before + [rs[index]], after);
    TotalBipsAppend(before, rs[index]);
    TotalBipsSplit(before, after);
  }

  lemma {:induction false} TotalBipsSplit(a: seq<RecipientInput>, b: seq<RecipientInput>)
    ensures TotalBips(a + b) == TotalBips(a) + TotalBips(b)
    decreases |b|
  {
    if b == [] {
      assert a + b == a;
    } else {
      var init, last := b[..|b| - 1], b[|b| - 1];
      LastSplit(a, b);
      TotalBipsSplit(a, init);
      TotalBipsAppend(a + init, last);
      TotalBipsAppend(init, last);
    }
  }

}
