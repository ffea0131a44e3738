/** Helpers around the settlement protocol: the transfer hook of a network,
    the hook data for a recipient list, the address paid, and the
    recipient-list check made before paying. */
module X402 {
  import opened Wrappers
  import opened JsArray
  import opened DonationConfig
  import QuickLinkConfig

  const FacilitatorUrl := "https://facilitator.x402x.dev"

  /** The transfer hooks the SDK's network table lists, by network key. */
  type HookCatalog = map<string, string>

  /** `getTransferHookAddress`: the network's transfer hook, or the
      "Unsupported network" error the source throws. */
  function GetTransferHookAddress(hooks: HookCatalog, network: string): (r: Result<string>)
    ensures network in hooks <==> r.Ok?
    ensures r.Ok? ==> r.value == hooks[network]
    ensures r.Err? ==> r.message == "Unsupported network: " + network
  {
    if network in hooks then Ok(hooks[network]) else Err("Unsupported network: " + network)
  }

  /** The recipients that take part in a distributed transfer: every
      recipient with positive bips, as often as it occurs, in its order. */
  function ActiveRecipients(rs: seq<Recipient>): (active: seq<Recipient>)
    ensures forall i :: 0 <= i < |active| ==> active[i].bips > 0 && active[i] in rs
    ensures forall i :: 0 <= i < |rs| && rs[i].bips > 0 ==> multiset(active)[rs[i]] == multiset(rs)[rs[i]]
    ensures multiset(active) <= multiset(rs)
    ensures JsArray.IsSubsequence(active, rs)
  {
    JsArray.FilterIsSubsequence(rs, (x: Recipient) => x.bips > 0);
    JsArray.FilterCounts(rs, (x: Recipient) => x.bips > 0);
    Filter(rs, (x: Recipient) => x.bips > 0)
  }

  /** `encodeRecipientsForHook`: both branches return the empty hook data,
      so the recipient list never reaches the hook. */
  function EncodeRecipientsForHook(rs: seq<Recipient>): (data: string)
    ensures data == "0x"
  {
    var active := ActiveRecipients(rs);
    if |active| <= 1 then "0x" else "0x"
  }

  const ZeroAddress := "0x0000000000000000000000000000000000000000"

  /** `getPrimaryRecipient`: the first recipient's address, or the zero
      address when there is no first recipient or its address is empty. */
  function GetPrimaryRecipient(rs: seq<Recipient>): (a: string)
    ensures |rs| > 0 && rs[0].address != "" ==> a == rs[0].address
    ensures (|rs| == 0 || rs[0].address == "") ==> a == ZeroAddress
    ensures a != ""
  {
    if |rs| > 0 && rs[0].address != "" then rs[0].address else ZeroAddress
  }

  /** `validateRecipientConfig`: a non-empty list whose bips total at most 10000. */
  function ValidateRecipientConfig(rs: seq<Recipient>): (ok: bool)
    ensures ok <==> |rs| > 0 && SumBips(rs) <= MaxBips
  {
    if |rs| == 0 then false else SumBips(rs) <= MaxBips
  }

  /** A list passes the payment check exactly when it is non-empty and a
      quick link carrying it keeps it. */
  lemma ValidRecipientsSurviveQuickLink(c: DonationConfig.Config)
    requires c.recipients.Some?
    ensures ValidateRecipientConfig(c.recipients.value) <==>
      (c.recipients.value != [] && QuickLinkConfig.ResolveQuickLinkRecipients(c) == c.recipients.value)
  {
  }
}
