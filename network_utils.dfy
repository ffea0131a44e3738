/** Network policy for a donation configuration: the configured network
    field as a list, the networks a donor may choose from, and the
    validation of the configured names. The available networks are a
    parameter, a subsequence of the catalog's keys. */
module NetworkUtils {
  import opened Wrappers
  import opened JsString
  import opened JsArray
  import opened DonationConfig
  import opened NetworkCatalog

  /** `normalizeNetworkConfig`: absent or empty gives none, one name gives
      a one-element list, a list is returned unchanged. */
  function NormalizeNetworkConfig(network: Option<NetworkSetting>): (r: seq<string>)
    ensures network.None? ==> r == []
    ensures network == Some(OneNetwork("")) ==> r == []
    ensures network.Some? && network.value.OneNetwork? && network.value.name != "" ==> r == [network.value.name]
    ensures network.Some? && network.value.NetworkList? ==> r == network.value.names
  {
    match network
    case None => []
    case Some(OneNetwork(name)) => if name == "" then [] else [name]
    case Some(NetworkList(names)) => names
  }

  /** `getConfiguredNetworks`. */
  function GetConfiguredNetworks(c: Config): (r: seq<string>)
    ensures r == NormalizeNetworkConfig(c.network)
    ensures |r| > 0 ==> c.network.Some?
  {
    NormalizeNetworkConfig(c.network)
  }

  /** `getSelectableNetworks`: every available network when none is
      configured, otherwise the available ones the configuration names,
      in the available list's order. */
  function GetSelectableNetworks(c: Config, available: seq<string>): (r: seq<string>)
    ensures GetConfiguredNetworks(c) == [] ==> r == available
    ensures GetConfiguredNetworks(c) != [] ==>
      forall n :: n in r <==> n in available && n in GetConfiguredNetworks(c)
  {
    var configured := GetConfiguredNetworks(c);
    if |configured| == 0 then available
    else Filter(available, n => n in configured)
  }

  /** The selectable networks keep the available list's order. */
  lemma SelectableKeepsOrder(c: Config, available: seq<string>)
    ensures IsSubsequence(GetSelectableNetworks(c, available), available)
  {
    var configured := GetConfiguredNetworks(c);
    if |configured| == 0 {
      IsSubsequenceRefl(available);
    } else {
      FilterIsSubsequence(available, n => n in configured);
    }
  }

  lemma {:induction false} IsSubsequenceRefl(xs: seq<string>)
    ensures IsSubsequence(xs, xs)
    decreases |xs|
  {
    if xs != [] {
      IsSubsequenceRefl(xs[1..]);
    }
  }

  /** The outcome of `validateNetworkConfig`. */
  datatype Validation = Validation(valid: bool, errors: seq<string>)

  function InvalidNetworksMessage(invalid: seq<string>, available: seq<string>): string {
    "Invalid networks: " + Join(invalid, ", ") + ". Available networks: " + Join(available, ", ")
  }

  function TestnetMessage(testnets: seq<string>): string {
    "Testnet networks are not available in production: " + Join(testnets, ", ")
  }

  /** `NETWORKS[network]?.type === "testnet"`: a catalog key whose SDK record is a testnet. */
  predicate IsCatalogTestnet(sdk: map<string, CoreNetwork>, n: string) {
    n in NetworkKeys && n in sdk && sdk[n].networkType == Testnet
  }

  /** The configured names missing from the available list, in configured order. */
  function InvalidNetworks(c: Config, available: seq<string>): (r: seq<string>)
    ensures forall n :: n in r <==> n in GetConfiguredNetworks(c) && n !in available
  {
    Filter(GetConfiguredNetworks(c), n => n !in available)
  }

  /** The configured names that are catalog testnets, in configured order. */
  function TestnetNetworks(c: Config, sdk: map<string, CoreNetwork>): (r: seq<string>)
    ensures forall n :: n in r <==> n in GetConfiguredNetworks(c) && IsCatalogTestnet(sdk, n)
  {
    Filter(GetConfiguredNetworks(c), n => IsCatalogTestnet(sdk, n))
  }

  /** The errors `validateNetworkConfig` reports: one naming every invalid
      name, then, in production, one naming every configured testnet. */
  function ValidationErrors(c: Config, available: seq<string>, production: bool,
                            sdk: map<string, CoreNetwork>): seq<string>
  {
    var invalid := InvalidNetworks(c, available);
    var testnets := TestnetNetworks(c, sdk);
    (if |invalid| > 0 then [InvalidNetworksMessage(invalid, available)] else [])
      + (if production && |testnets| > 0 then [TestnetMessage(testnets)] else [])
  }

  /** `validateNetworkConfig`, pushing each error onto a list. */
  method ValidateNetworkConfig(c: Config, available: seq<string>, production: bool,
                               sdk: map<string, CoreNetwork>)
    returns (v: Validation)
    ensures v.errors == ValidationErrors(c, available, production, sdk)
    ensures v.valid <==> v.errors == []
  {
    var errors: seq<string> := [];
    var configured := GetConfiguredNetworks(c);
    if |configured| == 0 {
      NothingConfiguredNoErrors(c, available, production, sdk);
      return Validation(true, []);
    }
    var invalid := InvalidNetworks(c, available);
    if |invalid| > 0 {
      errors := errors + [InvalidNetworksMessage(invalid, available)];
    }
    if production {
      var testnets := TestnetNetworks(c, sdk);
      if |testnets| > 0 {
        errors := errors + [TestnetMessage(testnets)];
      }
    }
    v := Validation(|errors| == 0, errors);
  }

  /** No network restriction is valid: there is nothing to report. */
  lemma NothingConfiguredNoErrors(c: Config, available: seq<string>, production: bool,
                                  sdk: map<string, CoreNetwork>)
    requires GetConfiguredNetworks(c) == []
    ensures ValidationErrors(c, available, production, sdk) == []
  {
  }

  /** Every configured name outside the available list makes the first
      error, and there is one such error naming all of them. */
  lemma InvalidNamesReported(c: Config, available: seq<string>, production: bool,
                             sdk: map<string, CoreNetwork>, n: string)
    requires n in GetConfiguredNetworks(c) && n !in available
    ensures var errs := ValidationErrors(c, available, production, sdk);
      && 1 <= |errs| <= 2
      && errs[0] == InvalidNetworksMessage(InvalidNetworks(c, available), available)
      && Contains(errs[0], n)
      && (production || |errs| == 1)
  {
    var invalid := InvalidNetworks(c, available);
    assert n in invalid;
    var i :| 0 <= i < |invalid| && invalid[i] == n;
    JoinContains(invalid, ", ", i);
    var msg := InvalidNetworksMessage(invalid, available);
    ContainsInMiddle("Invalid networks: ", Join(invalid, ", "), ". Available networks: " + Join(available, ", "), n);
    assert msg == "Invalid networks: " + Join(invalid, ", ") + (". Available networks: " + Join(available, ", "));
  }

  /** A configured catalog testnet in production is reported in a
      separate error, whether or not there is also an invalid-name error. */
  lemma TestnetsReportedInProduction(c: Config, available: seq<string>,
                                     sdk: map<string, CoreNetwork>, n: string)
    requires n in GetConfiguredNetworks(c) && IsCatalogTestnet(sdk, n)
    ensures var errs := ValidationErrors(c, available, true, sdk);
      && errs[|errs| - 1] == TestnetMessage(TestnetNetworks(c, sdk))
      && Contains(errs[|errs| - 1], n)
      && (|errs| == 2 <==> InvalidNetworks(c, available) != [])
  {
    var testnets := TestnetNetworks(c, sdk);
    assert n in testnets;
    var i :| 0 <= i < |testnets| && testnets[i] == n;
    JoinContains(testnets, ", ", i);
    ContainsInMiddle("Testnet networks are not available in production: ", Join(testnets, ", "), "", n);
    assert TestnetMessage(testnets) == "Testnet networks are not available in production: " + Join(testnets, ", ") + "";
  }

  /** Outside production, configuring only available networks is valid. */
  lemma AvailableNamesValid(c: Config, available: seq<string>, sdk: map<string, CoreNetwork>)
    requires forall n :: n in GetConfiguredNetworks(c) ==> n in available
    ensures ValidationErrors(c, available, false, sdk) == []
  {
  }

  lemma ContainsInMiddle(a: string, b: string, d: string, p: string)
    requires Contains(b, p)
    ensures Contains(a + b + d, p)
  {
    var j := ContainsWitness(b, p);
    assert (a + b + d)[|a| + j..|a| + j + |p|] == b[j..j + |p|];
    ContainsAt(a + b + d, p, |a| + j);
  }
}
