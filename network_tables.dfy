/** The payment-side network tables built once from the settlement SDK:
    the USDC token of each supported network, the list of supported
    networks in SDK order, and that list indexed by network key. */
module NetworkTables {
  import opened Wrappers
  import opened JsString
  import opened NetworkCatalog

  datatype PaymentToken = PaymentToken(symbol: string, caption: string, address: string, explorerUrl: Option<string>)

  datatype NetworkStatus = MainnetStatus | TestnetStatus

  datatype SupportedNetwork = SupportedNetwork(
    name: string,
    network: string,
    chainId: int,
    status: NetworkStatus,
    settlementRouter: string,
    hookTransfer: string,
    explorerUrl: string,
    txExplorerBaseUrl: Option<string>,
    paymentTokens: seq<PaymentToken>)

  /** The SDK knows a configuration for every network it reports as supported. */
  predicate Covers(supported: seq<string>, sdk: map<string, CoreNetwork>) {
    forall i :: 0 <= i < |supported| ==> supported[i] in sdk
  }

  /** The single USDC token of a network: the SDK's default asset, linked to
      the address explorer when the network has one. */
  function UsdcToken(cfg: CoreNetwork): (t: PaymentToken)
    ensures t.symbol == "USDC" && t.caption == "USDC"
    ensures t.address == cfg.defaultAsset
    ensures t.explorerUrl.Some? <==> Truthy(cfg.addressExplorerBaseUrl)
    ensures t.explorerUrl.Some? ==> t.explorerUrl.value == cfg.addressExplorerBaseUrl.value + cfg.defaultAsset
  {
    var addressBase := cfg.addressExplorerBaseUrl;
    PaymentToken("USDC", "USDC", cfg.defaultAsset,
      if Truthy(addressBase) then Some(addressBase.value + cfg.defaultAsset) else None)
  }

  /** `SUPPORTED_PAYMENT_TOKENS`: one entry per supported network, each
      holding exactly that network's USDC token. */
  method BuildPaymentTokens(supported: seq<string>, sdk: map<string, CoreNetwork>)
    returns (result: map<string, seq<PaymentToken>>)
    requires Covers(supported, sdk)
    ensures result.Keys == set i | 0 <= i < |supported| :: supported[i]
    ensures forall n :: n in result ==> n in sdk && result[n] == [UsdcToken(sdk[n])]
  {
    result := map[];
    var i := 0;
    while i < |supported|
      invariant 0 <= i <= |supported|
      invariant result.Keys == set k | 0 <= k < i :: supported[k]
      invariant forall n :: n in result ==> n in sdk && result[n] == [UsdcToken(sdk[n])]
    {
      var n := supported[i];
      result := result[n := [UsdcToken(sdk[n])]];
      i := i + 1;
    }
  }

  /** The entry `SUPPORTED_NETWORKS` holds for network `n`. */
  function SupportedEntry(n: string, cfg: CoreNetwork, tokens: map<string, seq<PaymentToken>>): (e: SupportedNetwork)
    ensures e.network == n && e.chainId == cfg.chainId
    ensures e.name == cfg.name.GetOr(n)
    ensures e.status == MainnetStatus <==> cfg.networkType == Mainnet
    ensures e.hookTransfer == cfg.hookTransfer && e.settlementRouter == cfg.settlementRouter
    ensures !Truthy(cfg.addressExplorerBaseUrl) ==> e.explorerUrl == ""
    ensures Truthy(cfg.addressExplorerBaseUrl) ==>
      e.explorerUrl == cfg.addressExplorerBaseUrl.value + cfg.settlementRouter
    ensures e.txExplorerBaseUrl == cfg.txExplorerBaseUrl
    ensures e.paymentTokens == if n in tokens then tokens[n] else []
  {
    SupportedNetwork(
      name := cfg.name.GetOr(n),
      network := n,
      chainId := cfg.chainId,
      status := if cfg.networkType == Mainnet then MainnetStatus else TestnetStatus,
      settlementRouter := cfg.settlementRouter,
      hookTransfer := cfg.hookTransfer,
      explorerUrl := if Truthy(cfg.addressExplorerBaseUrl)
                     then cfg.addressExplorerBaseUrl.value + cfg.settlementRouter else "",
      txExplorerBaseUrl := cfg.txExplorerBaseUrl,
      paymentTokens := if n in tokens then tokens[n] else [])
  }

  /** `SUPPORTED_NETWORKS`: one entry per supported network, in SDK order. */
  method BuildSupportedNetworks(supported: seq<string>, sdk: map<string, CoreNetwork>,
                                tokens: map<string, seq<PaymentToken>>)
    returns (list: seq<SupportedNetwork>)
    requires Covers(supported, sdk)
    ensures |list| == |supported|
    ensures forall i :: 0 <= i < |list| ==> list[i] == SupportedEntry(supported[i], sdk[supported[i]], tokens)
  {
    list := [];
    var i := 0;
    while i < |supported|
      invariant 0 <= i <= |supported|
      invariant |list| == i
      invariant forall k :: 0 <= k < i ==> list[k] == SupportedEntry(supported[k], sdk[supported[k]], tokens)
    {
      var n := supported[i];
      list := list + [SupportedEntry(n, sdk[n], tokens)];
      i := i + 1;
    }
  }

  /** `NETWORK_BY_KEY`: `Object.fromEntries` over the list, so a later
      entry with the same key replaces an earlier one. */
  function NetworkByKey(list: seq<SupportedNetwork>): (m: map<string, SupportedNetwork>)
    ensures m.Keys == set i | 0 <= i < |list| :: list[i].network
    ensures forall n :: n in m ==> m[n].network == n
    ensures forall n :: n in m ==> exists i :: 0 <= i < |list| && list[i] == m[n]
  {
    if list == [] then map[]
    else
      var last := list[|list| - 1];
      var m := NetworkByKey(list[..|list| - 1]);
      m[last.network := last]
  }

  /** The last entry carrying a key is the one the index holds. */
  lemma {:induction false} NetworkByKeyLast(list: seq<SupportedNetwork>, i: int)
    requires 0 <= i < |list|
    requires forall j :: i < j < |list| ==> list[j].network != list[i].network
    ensures list[i].network in NetworkByKey(list) && NetworkByKey(list)[list[i].network] == list[i]
    decreases |list|
  {
    if i < |list| - 1 {
      NetworkByKeyLast(list[..|list| - 1], i);
    }
  }

  /** Every supported network is indexed by its key, to the entry built
      from its SDK configuration, which carries its USDC token. */
  lemma TablesAgree(supported: seq<string>, sdk: map<string, CoreNetwork>,
                    tokens: map<string, seq<PaymentToken>>, list: seq<SupportedNetwork>, n: string)
    requires Covers(supported, sdk)
    requires forall k :: k in tokens ==> k in sdk && tokens[k] == [UsdcToken(sdk[k])]
    requires tokens.Keys == set i | 0 <= i < |supported| :: supported[i]
    requires |list| == |supported|
    requires forall i :: 0 <= i < |list| ==> list[i] == SupportedEntry(supported[i], sdk[supported[i]], tokens)
    requires n in supported
    ensures n in NetworkByKey(list)
    ensures NetworkByKey(list)[n] == SupportedEntry(n, sdk[n], tokens)
    ensures NetworkByKey(list)[n].paymentTokens == [UsdcToken(sdk[n])]
  {
    var m := NetworkByKey(list);
    var k :| 0 <= k < |supported| && supported[k] == n;
    assert list[k].network == n;
    assert n in m;
    var i :| 0 <= i < |list| && list[i] == m[n];
    assert supported[i] == n;
    assert n in tokens;
  }
}
