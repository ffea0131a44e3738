/** The user-facing network catalog: the four supported networks, each the
    settlement SDK's record for it with the site's display metadata beside
    it, lookup by chain id, and the preferred network kept in the
    browser's local storage. */
module NetworkCatalog {
  import opened Wrappers
  import opened JsString

  datatype NetworkType = Mainnet | Testnet

  /** The settlement SDK's record of one network, as far as the site reads it. */
  datatype CoreNetwork = CoreNetwork(
    name: Option<string>,
    chainId: int,
    networkType: NetworkType,
    settlementRouter: string,
    hookTransfer: string,
    defaultAsset: string,
    addressExplorerBaseUrl: Option<string>,
    txExplorerBaseUrl: Option<string>)

  /** The display metadata the site adds to a network. */
  datatype NetworkUi = NetworkUi(icon: string, displayName: string, faucetUrl: string, blockExplorerUrl: string)

  /** A catalog entry: the SDK record with the display metadata layered over it. */
  datatype NetworkConfig = NetworkConfig(core: CoreNetwork, ui: NetworkUi)

  /** The network keys, in the catalog's order. */
  const NetworkKeys: seq<string> := ["base-sepolia", "x-layer-testnet", "base", "x-layer"]

  const NetworkUiConfig: map<string, NetworkUi> := map[
    "base-sepolia" := NetworkUi("\U{1F535}", "Base Sepolia", "https://faucet.circle.com/", "https://sepolia.basescan.org"),
    "x-layer-testnet" := NetworkUi("\U{2B55}", "X Layer Testnet", "https://www.okx.com/xlayer/faucet",
                                   "https://www.okx.com/web3/explorer/xlayer-test"),
    "base" := NetworkUi("\U{1F535}", "Base Mainnet", "https://docs.base.org/docs/tools/bridge-funds/", "https://basescan.org"),
    "x-layer" := NetworkUi("\U{2B55}", "X Layer", "https://www.okx.com/xlayer/bridge", "https://www.okx.com/web3/explorer/xlayer")
  ]

  /** An SDK catalog holding a record for every supported network. */
  predicate IsSdkCatalog(sdk: map<string, CoreNetwork>) {
    forall k :: k in NetworkKeys ==> k in sdk
  }

  /** `NETWORKS`: exactly the four supported keys, each the SDK record with its display metadata. */
  function Networks(sdk: map<string, CoreNetwork>): (m: map<string, NetworkConfig>)
    requires IsSdkCatalog(sdk)
    ensures m.Keys == {"base-sepolia", "x-layer-testnet", "base", "x-layer"}
    ensures forall k :: k in m ==> m[k].core == sdk[k] && m[k].ui == NetworkUiConfig[k]
  {
    map k | k in NetworkKeys :: NetworkConfig(sdk[k], NetworkUiConfig[k])
  }

  /** The index of the first key whose record has the chain id, or `|keys|`. */
  function FindChainId(keys: seq<string>, sdk: map<string, CoreNetwork>, chainId: int): (i: nat)
    requires forall k :: k in keys ==> k in sdk
    ensures i <= |keys|
    ensures forall j :: 0 <= j < i ==> sdk[keys[j]].chainId != chainId
    ensures i < |keys| ==> sdk[keys[i]].chainId == chainId
  {
    if keys == [] then 0
    else if sdk[keys[0]].chainId == chainId then 0
    else 1 + FindChainId(keys[1..], sdk, chainId)
  }

  /** Position `i` of the catalog is on the chain and no earlier one is. */
  predicate FirstOnChain(sdk: map<string, CoreNetwork>, i: int, chainId: int)
    requires IsSdkCatalog(sdk)
  {
    && 0 <= i < |NetworkKeys|
    && sdk[NetworkKeys[i]].chainId == chainId
    && forall j :: 0 <= j < i ==> sdk[NetworkKeys[j]].chainId != chainId
  }

  /** `getNetworkByChainId`: the first network, in catalog order, on that chain. */
  function GetNetworkByChainId(sdk: map<string, CoreNetwork>, chainId: int): (r: Option<string>)
    requires IsSdkCatalog(sdk)
    ensures r.Some? ==> r.value in NetworkKeys && sdk[r.value].chainId == chainId
    ensures r.Some? ==> exists i :: FirstOnChain(sdk, i, chainId) && NetworkKeys[i] == r.value
    ensures r.None? <==> forall k :: k in NetworkKeys ==> sdk[k].chainId != chainId
  {
    var i := FindChainId(NetworkKeys, sdk, chainId);
    if i < |NetworkKeys| then Some(NetworkKeys[i]) else None
  }

  /** `getNetworkConfig`: the whole catalog entry, the SDK record with the
      network's display metadata. */
  function GetNetworkConfig(sdk: map<string, CoreNetwork>, network: string): (c: NetworkConfig)
    requires IsSdkCatalog(sdk) && network in NetworkKeys
    ensures c.core == sdk[network] && c.ui == NetworkUiConfig[network]
  {
    Networks(sdk)[network]
  }

  // ---------------------------------------------------------------------
  // Preferred network
  // ---------------------------------------------------------------------

  /** The browser's `localStorage`: string keys to string values. */
  class Storage {
    var items: map<string, string>

    constructor ()
      ensures items == map[]
    {
      items := map[];
    }

    function GetItem(key: string): (v: Option<string>)
      reads this
      ensures v.Some? <==> key in items
      ensures v.Some? ==> v.value == items[key]
    {
      if key in items then Some(items[key]) else None
    }

    method SetItem(key: string, value: string)
      modifies this
      ensures items == old(items)[key := value]
    {
      items := items[key := value];
    }
  }

  const PreferredNetworkKey := "gives-preferred-network"

  /** The property names every object inherits from `Object.prototype`,
      which the `in` operator also reports as present. */
  const ObjectPrototypeNames: set<string> := {
    "constructor", "hasOwnProperty", "isPrototypeOf", "propertyIsEnumerable", "toLocaleString",
    "toString", "valueOf", "__proto__", "__defineGetter__", "__defineSetter__",
    "__lookupGetter__", "__lookupSetter__"
  }

  /** `name in obj` for a plain object with the given own keys. */
  predicate InOperator(name: string, ownKeys: seq<string>) {
    name in ownKeys || name in ObjectPrototypeNames
  }

  /** `getPreferredNetwork` as written: the stored value when it is truthy
      and `in NETWORKS`, which inherited names pass too. */
  function GetPreferredNetworkAsWritten(store: Storage): (r: Option<string>)
    reads store
    ensures r.Some? ==> r == store.GetItem(PreferredNetworkKey)
    ensures r.Some? <==> PreferredNetworkKey in store.items && store.items[PreferredNetworkKey] != ""
                         && InOperator(store.items[PreferredNetworkKey], NetworkKeys)
  {
    var stored := store.GetItem(PreferredNetworkKey);
    if Truthy(stored) && InOperator(stored.value, NetworkKeys) then stored else None
  }

  /** A stored `"toString"` comes back as the preferred network although no
      network has that key. */
  lemma InheritedNameAccepted(store: Storage)
    requires store.items == map[PreferredNetworkKey := "toString"]
    ensures GetPreferredNetworkAsWritten(store) == Some("toString")
    ensures "toString" !in NetworkKeys
  {
  }

  /** `getPreferredNetwork` as intended: the stored value only when it is a
      network key of the catalog, `None` otherwise. */
  function GetPreferredNetwork(store: Storage): (r: Option<string>)
    reads store
    ensures r.Some? <==> PreferredNetworkKey in store.items && store.items[PreferredNetworkKey] in NetworkKeys
    ensures r.Some? ==> r.value == store.items[PreferredNetworkKey] && r.value in NetworkKeys
  {
    var stored := store.GetItem(PreferredNetworkKey);
    if Truthy(stored) && stored.value in NetworkKeys then stored else None
  }

  /** Wherever the stored value is a network key the two readings agree. */
  lemma PreferredReadingsAgree(store: Storage)
    requires PreferredNetworkKey in store.items ==> store.items[PreferredNetworkKey] !in ObjectPrototypeNames
    ensures GetPreferredNetworkAsWritten(store) == GetPreferredNetwork(store)
  {
  }

  /** `setPreferredNetwork`: writes the one storage key; reading it back gives the network. */
  method SetPreferredNetwork(store: Storage, network: string)
    requires network in NetworkKeys
    modifies store
    ensures store.items == old(store.items)[PreferredNetworkKey := network]
    ensures GetPreferredNetwork(store) == Some(network)
  {
    store.SetItem(PreferredNetworkKey, network);
  }
}
