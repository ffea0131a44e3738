/** Quick links: a configuration carried in the URL hash as
    `btoa(encodeURIComponent(JSON.stringify(config)))`, its decoding, its
    validation and the configuration built for an address route. */
module QuickLinkConfig {
  import opened Wrappers
  import Json
  import Percent
  import Base64
  import JsString
  import opened DonationConfig
  import opened ConfigJson

  /** The hash text: the serialized configuration, percent-encoded, in base64. */
  function EncodeConfigToHash(c: Config): (h: string)
    ensures Base64.Btoa(Percent.EncodeUriComponent(Json.Serialize(ConfigToJson(c)))) == Ok(h)
  {
    var text := Percent.EncodeUriComponent(Json.Serialize(ConfigToJson(c)));
    EncodedIsLatin1(text);
    Base64.Btoa(text).value
  }

  /** Percent-encoded text is ASCII, so `btoa` never throws on it. */
  lemma EncodedIsLatin1(text: string)
    requires forall i :: 0 <= i < |text| ==>
      Percent.IsUnreserved(text[i]) || text[i] == '%' || Percent.IsHexDigit(text[i])
    ensures Base64.IsLatin1(text)
  {
  }

  /** A location hash without its leading `#`, as both the recipient hook
      and the quick-link builder read it before decoding. */
  function HashBody(hash: string): (h: string)
    ensures JsString.StartsWith(hash, "#") ==> hash == "#" + h
    ensures !JsString.StartsWith(hash, "#") ==> h == hash
  {
    if JsString.StartsWith(hash, "#") then hash[1..] else hash
  }

  /** Undoes the quick-link encoding. The empty hash and every failure
      (bad base64, a malformed escape, bad JSON, a value that is not a
      configuration) give `None`. */
  function DecodeConfigFromHash(hash: string): (r: Option<Config>)
    ensures hash == "" ==> r.None?
    ensures Base64.Atob(hash).Err? ==> r.None?
    ensures Base64.Atob(hash).Ok? && Percent.DecodeUriComponent(Base64.Atob(hash).value).Err? ==> r.None?
    ensures hash != "" && Base64.Atob(hash).Ok? && Percent.DecodeUriComponent(Base64.Atob(hash).value).Ok? ==>
              var text := Percent.DecodeUriComponent(Base64.Atob(hash).value).value;
              && (Json.Parse(text).Err? ==> r.None?)
              && (Json.Parse(text).Ok? ==> r == ConfigFromJson(Json.Parse(text).value))
  {
    if hash == "" then None
    else
      match Base64.Atob(hash)
      case Err(_) => None
      case Ok(bytes) =>
        match Percent.DecodeUriComponent(bytes)
        case Err(_) => None
        case Ok(text) =>
          match Json.Parse(text)
          case Err(_) => None
          case Ok(j) => ConfigFromJson(j)
  }

  lemma NonEmptyEncoding(c: Config)
    ensures EncodeConfigToHash(c) != ""
  {
    var json := Json.Serialize(ConfigToJson(c));
    assert json[0] == '{';
    var text := Percent.EncodeUriComponent(json);
    Percent.DecodeEncode(json);
    EncodedIsLatin1(text);
    Base64.BtoaAtob(text);
  }

  /** Decoding the hash of a configuration gives the configuration back. */
  lemma DecodeEncodeConfig(c: Config)
    ensures DecodeConfigFromHash(EncodeConfigToHash(c)) == Some(c)
  {
    var json := Json.Serialize(ConfigToJson(c));
    var text := Percent.EncodeUriComponent(json);
    EncodedIsLatin1(text);
    NonEmptyEncoding(c);
    Base64.BtoaAtob(text);
    Percent.DecodeEncode(json);
    Json.ParseSerialize(ConfigToJson(c));
    ConfigJsonRoundTrip(c);
  }

  /** What `validateConfig` accepts: a truthy `payTo`, and when there are
      recipients, at most 10000 bips in all and every entry with an address
      and non-negative bips. */
  predicate IsValidConfig(c: Config) {
    && JsString.Truthy(c.payTo)
    && (c.recipients.Some? && |c.recipients.value| > 0 ==>
          && SumBips(c.recipients.value) <= MaxBips
          && forall i :: 0 <= i < |c.recipients.value| ==>
               c.recipients.value[i].address != "" && c.recipients.value[i].bips >= 0)
  }

  /** `validateConfig`: the total check, then a scan that stops at the
      first entry without an address or with negative bips. */
  method ValidateConfig(c: Config) returns (ok: bool)
    ensures ok <==> IsValidConfig(c)
  {
    if !JsString.Truthy(c.payTo) {
      return false;
    }
    if c.recipients.Some? && |c.recipients.value| > 0 {
      var rs := c.recipients.value;
      if SumBips(rs) > MaxBips {
        return false;
      }
      var i := 0;
      while i < |rs|
        invariant 0 <= i <= |rs|
        invariant forall k :: 0 <= k < i ==> rs[k].address != "" && rs[k].bips >= 0
      {
        if rs[i].address == "" || rs[i].bips < 0 {
          return false;
        }
        i := i + 1;
      }
    }
    return true;
  }

  lemma NoPayToInvalid(c: Config)
    requires !JsString.Truthy(c.payTo)
    ensures !IsValidConfig(c)
  {
  }

  /** A total above 10000 is refused whatever the entries hold. */
  lemma OverLimitInvalid(c: Config)
    requires c.recipients.Some? && SumBips(c.recipients.value) > MaxBips
    ensures !IsValidConfig(c)
  {
  }

  /** A `payTo` alone is enough. */
  lemma NoRecipientsValid(c: Config)
    requires JsString.Truthy(c.payTo) && (c.recipients.None? || c.recipients.value == [])
    ensures IsValidConfig(c)
  {
  }

  /** `resolveQuickLinkRecipients`: the recipients when their total is at most 10000, else none. */
  function ResolveQuickLinkRecipients(c: Config): (rs: seq<Recipient>)
    ensures c.recipients.Some? && SumBips(c.recipients.value) <= MaxBips ==> rs == c.recipients.value
    ensures !(c.recipients.Some? && SumBips(c.recipients.value) <= MaxBips) ==> rs == []
    ensures SumBips(rs) <= MaxBips
  {
    if c.recipients.Some? && |c.recipients.value| > 0 && SumBips(c.recipients.value) <= MaxBips
    then c.recipients.value
    else []
  }

  /** The configuration a quick link to `address` carries: the decoded
      configuration with `payTo` overwritten by the address, or one holding
      only the address when the hash does not decode. */
  function QuickLinkConfigFor(address: string, hash: string): (c: Config)
    ensures c.payTo == Some(address)
    ensures DecodeConfigFromHash(hash).Some? ==> c == DecodeConfigFromHash(hash).value.(payTo := Some(address))
    ensures DecodeConfigFromHash(hash).None? ==> c == EmptyConfig.(payTo := Some(address))
  {
    match DecodeConfigFromHash(hash)
    case None => EmptyConfig.(payTo := Some(address))
    case Some(decoded) => decoded.(payTo := Some(address))
  }

  /** A quick link built from the hash of a configuration keeps every
      field of it except `payTo`, which becomes the address. */
  lemma QuickLinkKeepsFields(address: string, c: Config)
    ensures QuickLinkConfigFor(address, EncodeConfigToHash(c)) == c.(payTo := Some(address))
  {
    DecodeEncodeConfig(c);
  }

  /** `createQuickLinkConfig`: decodes the hash and overwrites `payTo` in place. */
  method CreateQuickLinkConfig(address: string, hash: string) returns (c: Config)
    ensures c == QuickLinkConfigFor(address, hash)
  {
    var config := DecodeConfigFromHash(hash);
    if config.None? {
      return EmptyConfig.(payTo := Some(address));
    }
    c := config.value;
    c := c.(payTo := Some(address));
  }
}
