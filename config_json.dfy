/** The JSON form of a donation configuration: the object `JSON.stringify`
    writes for it, and the typed reading of a parsed JSON value back into a
    configuration. Absent optional fields are left out of the object; a
    `null` field reads as absent; a value of any other shape is not a
    configuration. */
module ConfigJson {
  import opened Wrappers
  import opened Json
  import opened DonationConfig

  // ---------------------------------------------------------------------
  // Objects built from optional fields
  // ---------------------------------------------------------------------

  /** A field name with its value, or no value when the field is absent. */
  type Field = (string, Option<Json>)

  /** The members of an object holding the present fields, in order. */
  function Entries(fs: seq<Field>): (ms: seq<Member>)
    ensures |ms| <= |fs|
  {
    if fs == [] then []
    else
      (if fs[0].1.Some? then [Member(fs[0].0, fs[0].1.value)] else []) + Entries(fs[1..])
  }

  predicate DistinctKeys(fs: seq<Field>) {
    forall i, j :: 0 <= i < j < |fs| ==> fs[i].0 != fs[j].0
  }

  lemma {:induction false} LookupAppend(a: seq<Member>, b: seq<Member>, key: string)
    ensures Lookup(a + b, key) == if Lookup(b, key).Some? then Lookup(b, key) else Lookup(a, key)
    decreases |b|
  {
    if b == [] {
      assert a + b == a;
    } else {
      assert (a + b)[..|a + b| - 1] == a + b[..|b| - 1];
      LookupAppend(a, b[..|b| - 1], key);
    }
  }

  lemma {:induction false} LookupEntriesAbsent(fs: seq<Field>, key: string)
    requires forall i :: 0 <= i < |fs| ==> fs[i].0 != key
    ensures Lookup(Entries(fs), key) == None
    decreases |fs|
  {
    if fs != [] {
      var head: seq<Member> := if fs[0].1.Some? then [Member(fs[0].0, fs[0].1.value)] else [];
      LookupEntriesAbsent(fs[1..], key);
      LookupAppend(head, Entries(fs[1..]), key);
      if fs[0].1.Some? {
        assert head[..0] == [];
      }
    }
  }

  /** In an object of distinct fields each field reads back as written. */
  lemma {:induction false} LookupEntries(fs: seq<Field>, i: nat)
    requires DistinctKeys(fs) && i < |fs|
    ensures Lookup(Entries(fs), fs[i].0) == fs[i].1
    decreases i
  {
    var key := fs[i].0;
    var head: seq<Member> := if fs[0].1.Some? then [Member(fs[0].0, fs[0].1.value)] else [];
    LookupAppend(head, Entries(fs[1..]), key);
    if i == 0 {
      LookupEntriesAbsent(fs[1..], key);
      if fs[0].1.Some? {
        assert head[..0] == [];
      }
    } else {
      assert fs[1..][i - 1] == fs[i];
      LookupEntries(fs[1..], i - 1);
    }
  }

  // ---------------------------------------------------------------------
  // Writing
  // ---------------------------------------------------------------------

  function StringJson(s: Option<string>): Option<Json> {
    match s
    case Some(v) => Some(JStr(v))
    case None => None
  }

  function RecipientJson(r: Recipient): Json {
    JObj(Entries([("address", Some(JStr(r.address))), ("bips", Some(JNum(r.bips)))]))
  }

  function CreatorJson(c: Creator): Json {
    JObj(Entries([("handle", Some(JStr(c.handle))), ("avatar", StringJson(c.avatar))]))
  }

  function LinkJson(l: Link): Json {
    JObj(Entries([("url", Some(JStr(l.url))), ("label", StringJson(l.caption))]))
  }

  function StringsJson(names: seq<string>): (items: seq<Json>)
    ensures |items| == |names|
    ensures forall i :: 0 <= i < |names| ==> items[i] == JStr(names[i])
  {
    if names == [] then [] else [JStr(names[0])] + StringsJson(names[1..])
  }

  function RecipientsJson(rs: seq<Recipient>): (items: seq<Json>)
    ensures |items| == |rs|
  {
    if rs == [] then [] else [RecipientJson(rs[0])] + RecipientsJson(rs[1..])
  }

  function LinksJson(ls: seq<Link>): (items: seq<Json>)
    ensures |items| == |ls|
  {
    if ls == [] then [] else [LinkJson(ls[0])] + LinksJson(ls[1..])
  }

  function NetworkJson(n: NetworkSetting): Json {
    match n
    case OneNetwork(name) => JStr(name)
    case NetworkList(names) => JArr(StringsJson(names))
  }

  /** The fields of a configuration in the order the builders set them. */
  function ConfigFields(c: Config): seq<Field> {
    [ ("payTo", StringJson(c.payTo)),
      ("defaultAmount", StringJson(c.defaultAmount)),
      ("network", if c.network.Some? then Some(NetworkJson(c.network.value)) else None),
      ("title", StringJson(c.title)),
      ("description", StringJson(c.description)),
      ("creator", if c.creator.Some? then Some(CreatorJson(c.creator.value)) else None),
      ("links", if c.links.Some? then Some(JArr(LinksJson(c.links.value))) else None),
      ("recipients", if c.recipients.Some? then Some(JArr(RecipientsJson(c.recipients.value))) else None) ]
  }

  /** The object `JSON.stringify` is given for a configuration. */
  function ConfigToJson(c: Config): Json {
    JObj(Entries(ConfigFields(c)))
  }

  // ---------------------------------------------------------------------
  // Reading
  // ---------------------------------------------------------------------

  /** An optional string field: absent or `null` is `Some(None)`, a string
      is `Some(Some(s))`, any other value makes the object unreadable (`None`). */
  function OptionalString(v: Option<Json>): (r: Option<Option<string>>)
    ensures v.None? ==> r == Some(None)
    ensures v.Some? && v.value.JStr? ==> r == Some(Some(v.value.s))
  {
    match v
    case None => Some(None)
    case Some(JNull) => Some(None)
    case Some(JStr(s)) => Some(Some(s))
    case Some(_) => None
  }

  function RequiredString(v: Option<Json>): (r: Option<string>)
    ensures r.Some? <==> v.Some? && v.value.JStr?
  {
    if v.Some? && v.value.JStr? then Some(v.value.s) else None
  }

  function RecipientFromJson(j: Json): Option<Recipient> {
    if !j.JObj? then None
    else
      var address := RequiredString(Lookup(j.members, "address"));
      var bips := Lookup(j.members, "bips");
      if address.Some? && bips.Some? && bips.value.JNum? then Some(Recipient(address.value, bips.value.n))
      else None
  }

  function CreatorFromJson(j: Json): Option<Creator> {
    if !j.JObj? then None
    else
      var handle := RequiredString(Lookup(j.members, "handle"));
      var avatar := OptionalString(Lookup(j.members, "avatar"));
      if handle.Some? && avatar.Some? then Some(Creator(handle.value, avatar.value)) else None
  }

  function LinkFromJson(j: Json): Option<Link> {
    if !j.JObj? then None
    else
      var url := RequiredString(Lookup(j.members, "url"));
      var caption := OptionalString(Lookup(j.members, "label"));
      if url.Some? && caption.Some? then Some(Link(url.value, caption.value)) else None
  }

  function StringsFromJson(items: seq<Json>): (r: Option<seq<string>>)
    ensures r.Some? ==> |r.value| == |items|
  {
    if items == [] then Some([])
    else
      match (if items[0].JStr? then Some(items[0].s) else None, StringsFromJson(items[1..]))
      case (Some(s), Some(rest)) => Some([s] + rest)
      case _ => None
  }

  function RecipientsFromJson(items: seq<Json>): (r: Option<seq<Recipient>>)
    ensures r.Some? ==> |r.value| == |items|
  {
    if items == [] then Some([])
    else
      match (RecipientFromJson(items[0]), RecipientsFromJson(items[1..]))
      case (Some(x), Some(rest)) => Some([x] + rest)
      case _ => None
  }

  function LinksFromJson(items: seq<Json>): (r: Option<seq<Link>>)
    ensures r.Some? ==> |r.value| == |items|
  {
    if items == [] then Some([])
    else
      match (LinkFromJson(items[0]), LinksFromJson(items[1..]))
      case (Some(x), Some(rest)) => Some([x] + rest)
      case _ => None
  }

  function NetworkFromJson(v: Option<Json>): Option<Option<NetworkSetting>> {
    match v
    case None => Some(None)
    case Some(JNull) => Some(None)
    case Some(JStr(s)) => Some(Some(OneNetwork(s)))
    case Some(JArr(items)) =>
      (match StringsFromJson(items)
       case Some(names) => Some(Some(NetworkList(names)))
       case None => None)
    case Some(_) => None
  }

  function ListFromJson<T>(v: Option<Json>, read: seq<Json> -> Option<seq<T>>): Option<Option<seq<T>>> {
    match v
    case None => Some(None)
    case Some(JNull) => Some(None)
    case Some(JArr(items)) =>
      (match read(items)
       case Some(xs) => Some(Some(xs))
       case None => None)
    case Some(_) => None
  }

  function CreatorField(v: Option<Json>): Option<Option<Creator>> {
    match v
    case None => Some(None)
    case Some(JNull) => Some(None)
    case Some(j) =>
      (match CreatorFromJson(j)
       case Some(c) => Some(Some(c))
       case None => None)
  }

  /** The configuration whose fields were all read, or `None` when one was unreadable. */
  function Assemble(payTo: Option<Option<string>>, defaultAmount: Option<Option<string>>,
                    network: Option<Option<NetworkSetting>>, title: Option<Option<string>>,
                    description: Option<Option<string>>, creator: Option<Option<Creator>>,
                    links: Option<Option<seq<Link>>>, recipients: Option<Option<seq<Recipient>>>): (r: Option<Config>)
    ensures r.Some? <==> payTo.Some? && defaultAmount.Some? && network.Some? && title.Some?
                         && description.Some? && creator.Some? && links.Some? && recipients.Some?
    ensures r.Some? ==> && r.value.payTo == payTo.value && r.value.defaultAmount == defaultAmount.value
                        && r.value.network == network.value && r.value.title == title.value
                        && r.value.description == description.value && r.value.creator == creator.value
                        && r.value.links == links.value && r.value.recipients == recipients.value
  {
    if payTo.Some? && defaultAmount.Some? && network.Some? && title.Some? && description.Some?
       && creator.Some? && links.Some? && recipients.Some?
    then Some(Config(payTo.value, recipients.value, title.value, description.value,
                     creator.value, defaultAmount.value, network.value, links.value))
    else None
  }

  /** Reads the members of a parsed object as a configuration. */
  function ConfigFromMembers(ms: seq<Member>): Option<Config> {
    Assemble(
      OptionalString(Lookup(ms, "payTo")),
      OptionalString(Lookup(ms, "defaultAmount")),
      NetworkFromJson(Lookup(ms, "network")),
      OptionalString(Lookup(ms, "title")),
      OptionalString(Lookup(ms, "description")),
      CreatorField(Lookup(ms, "creator")),
      ListFromJson(Lookup(ms, "links"), LinksFromJson),
      ListFromJson(Lookup(ms, "recipients"), RecipientsFromJson))
  }

  /** Reads a parsed JSON value as a configuration; `None` when it is not
      an object or a field has the wrong shape. Unknown members are ignored. */
  function ConfigFromJson(j: Json): (r: Option<Config>)
    ensures r.Some? ==> j.JObj?
  {
    if j.JObj? then ConfigFromMembers(j.members) else None
  }

  // ---------------------------------------------------------------------
  // Round trip
  // ---------------------------------------------------------------------

  lemma FieldRead(fs: seq<Field>, i: nat, key: string)
    requires DistinctKeys(fs) && i < |fs| && fs[i].0 == key
    ensures Lookup(Entries(fs), key) == fs[i].1
  {
    LookupEntries(fs, i);
  }

  /** An object of two fields with different keys, the first present. */
  lemma TwoFieldsRead(a: string, b: string, x: Json, y: Option<Json>)
    requires a != b
    ensures Lookup(Entries([(a, Some(x)), (b, y)]), a) == Some(x)
    ensures Lookup(Entries([(a, Some(x)), (b, y)]), b) == y
  {
    var fs: seq<Field> := [(a, Some(x)), (b, y)];
    FieldRead(fs, 0, a);
    FieldRead(fs, 1, b);
  }

  lemma RecipientRoundTrip(r: Recipient)
    ensures RecipientFromJson(RecipientJson(r)) == Some(r)
  {
    assert "address"[0] != "bips"[0];
    TwoFieldsRead("address", "bips", JStr(r.address), Some(JNum(r.bips)));
  }

  lemma CreatorRoundTrip(c: Creator)
    ensures CreatorFromJson(CreatorJson(c)) == Some(c)
  {
    assert "handle"[0] != "avatar"[0];
    TwoFieldsRead("handle", "avatar", JStr(c.handle), StringJson(c.avatar));
  }

  lemma LinkRoundTrip(l: Link)
    ensures LinkFromJson(LinkJson(l)) == Some(l)
  {
    assert "url"[0] != "label"[0];
    TwoFieldsRead("url", "label", JStr(l.url), StringJson(l.caption));
  }

  lemma {:induction false} StringsRoundTrip(names: seq<string>)
    ensures StringsFromJson(StringsJson(names)) == Some(names)
    decreases |names|
  {
    if names != [] {
      StringsRoundTrip(names[1..]);
      assert StringsJson(names)[1..] == StringsJson(names[1..]);
      assert [names[0]] + names[1..] == names;
    }
  }

  lemma {:induction false} RecipientsRoundTrip(rs: seq<Recipient>)
    ensures RecipientsFromJson(RecipientsJson(rs)) == Some(rs)
    decreases |rs|
  {
    if rs != [] {
      RecipientRoundTrip(rs[0]);
      RecipientsRoundTrip(rs[1..]);
      assert RecipientsJson(rs)[1..] == RecipientsJson(rs[1..]);
      assert [rs[0]] + rs[1..] == rs;
    }
  }

  lemma {:induction false} LinksRoundTrip(ls: seq<Link>)
    ensures LinksFromJson(LinksJson(ls)) == Some(ls)
    decreases |ls|
  {
    if ls != [] {
      LinksJsonCons(ls);
      LinkRoundTrip(ls[0]);
      LinksRoundTrip(ls[1..]);
      LinksStep(LinksJson(ls), ls[0], ls[1..]);
      assert [ls[0]] + ls[1..] == ls;
    }
  }

  lemma LinksJsonCons(ls: seq<Link>)
    requires ls != []
    ensures LinksJson(ls)[0] == LinkJson(ls[0]) && LinksJson(ls)[1..] == LinksJson(ls[1..])
  {
  }

  /** Reading a non-empty array of links: its first link, then the rest. */
  lemma LinksStep(items: seq<Json>, x: Link, rest: seq<Link>)
    requires items != [] && LinkFromJson(items[0]) == Some(x)
    requires LinksFromJson(items[1..]) == Some(rest)
    ensures LinksFromJson(items) == Some([x] + rest)
  {
  }

  lemma ConfigFieldsDistinct(c: Config)
    ensures DistinctKeys(ConfigFields(c))
  {
  }

  lemma StringFieldRoundTrip(s: Option<string>)
    ensures OptionalString(StringJson(s)) == Some(s)
  {
  }

  lemma NetworkFieldRoundTrip(n: Option<NetworkSetting>)
    ensures NetworkFromJson(if n.Some? then Some(NetworkJson(n.value)) else None) == Some(n)
  {
    if n.Some? && n.value.NetworkList? {
      StringsRoundTrip(n.value.names);
    }
  }

  lemma CreatorFieldRoundTrip(c: Option<Creator>)
    ensures CreatorField(if c.Some? then Some(CreatorJson(c.value)) else None) == Some(c)
  {
    if c.Some? {
      CreatorRoundTrip(c.value);
    }
  }

  lemma LinksFieldRoundTrip(ls: Option<seq<Link>>)
    ensures ListFromJson(if ls.Some? then Some(JArr(LinksJson(ls.value))) else None, LinksFromJson) == Some(ls)
  {
    if ls.Some? {
      LinksRoundTrip(ls.value);
    }
  }

  lemma RecipientsFieldRoundTrip(rs: Option<seq<Recipient>>)
    ensures ListFromJson(if rs.Some? then Some(JArr(RecipientsJson(rs.value))) else None, RecipientsFromJson) == Some(rs)
  {
    if rs.Some? {
      RecipientsRoundTrip(rs.value);
    }
  }

  /** Each field of a configuration's object reads back as the field. */
  lemma ConfigFieldsRead(c: Config)
    ensures var ms := Entries(ConfigFields(c));
      && OptionalString(Lookup(ms, "payTo")) == Some(c.payTo)
      && OptionalString(Lookup(ms, "defaultAmount")) == Some(c.defaultAmount)
      && NetworkFromJson(Lookup(ms, "network")) == Some(c.network)
      && OptionalString(Lookup(ms, "title")) == Some(c.title)
  {
    var fs := ConfigFields(c);
    ConfigFieldsDistinct(c);
    FieldRead(fs, 0, "payTo");
    StringFieldRoundTrip(c.payTo);
    FieldRead(fs, 1, "defaultAmount");
    StringFieldRoundTrip(c.defaultAmount);
    FieldRead(fs, 2, "network");
    NetworkFieldRoundTrip(c.network);
    FieldRead(fs, 3, "title");
    StringFieldRoundTrip(c.title);
  }

  lemma ConfigFieldsReadMore(c: Config)
    ensures var ms := Entries(ConfigFields(c));
      && OptionalString(Lookup(ms, "description")) == Some(c.description)
      && CreatorField(Lookup(ms, "creator")) == Some(c.creator)
      && ListFromJson(Lookup(ms, "links"), LinksFromJson) == Some(c.links)
      && ListFromJson(Lookup(ms, "recipients"), RecipientsFromJson) == Some(c.recipients)
  {
    var fs := ConfigFields(c);
    ConfigFieldsDistinct(c);
    FieldRead(fs, 4, "description");
    StringFieldRoundTrip(c.description);
    FieldRead(fs, 5, "creator");
    CreatorFieldRoundTrip(c.creator);
    FieldRead(fs, 6, "links");
    LinksFieldRoundTrip(c.links);
    FieldRead(fs, 7, "recipients");
    RecipientsFieldRoundTrip(c.recipients);
  }

  /** Reading back the JSON object written for a configuration gives the
      configuration again. */
  lemma ConfigJsonRoundTrip(c: Config)
    ensures ConfigFromJson(ConfigToJson(c)) == Some(c)
  {
    ConfigFieldsRead(c);
    ConfigFieldsReadMore(c);
  }
}
