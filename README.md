# x402.gives in Dafny

x402.gives is a donation site. A creator publishes a donation page in one
of two ways:

- a `.x402/donation.json` file in a GitHub repository, read from
  `/github.com/<user>[/<repo>]`;
- a quick link `/<address>#<hash>`, where the hash carries the
  configuration itself (JSON, then percent-encoding, then base64).

Visitors pay through the x402 settlement protocol. The payment can be
split between `payTo` and further recipients, in basis points (bips).

This project models the site's logic:

- decoding and validating configurations;
- resolving what a URL shows;
- choosing networks;
- the payment dialog and payment hook;
- the builder forms and step wizards that produce links;
- the small string helpers of the pages: amounts, addresses, share links,
  badges, redirects, absolute URLs and logos.

Every collaborator the site calls is a parameter of the model. This
covers the GitHub requests, the wallet, the settlement client, the
SDK's network table, `isAddress` and the browser's storage.
`getAvailableNetworks`, imported from src/config/networks.ts, and
`fetchGitHubRepoInfo` and `convertGitHubUserInfo`, imported from
src/lib/githubConfig.ts, are not defined in the files this model
covers. Their definitions are not part of this model, so they too are
parameters.

Modules: most follow one source file. Those marked *shared* model
behaviour that several source files use, or that the runtime provides:


- `Wrappers`, `JsString`, `JsArray` (shared): `Option`/`Result`, and the
  JavaScript string and array operations the source relies on (`||`
  truthiness, `split`, `trim`, `toLowerCase`, `parseInt`, `parseFloat`,
  `Number`, `filter`).
- `Base64`, `Percent`, `Json`, `ConfigJson` (shared): `btoa`/`atob` (RFC 4648
  section 4), `encodeURIComponent`/`decodeURIComponent` (RFC 3986
  section 2.1, UTF-8), a JSON serializer and parser (RFC 8259), and the
  mapping between a configuration and its JSON object.
- `DonationConfig`, `QuickLinkConfig`, `X402`, `GitHubConfig`,
  `UseRecipient`: the configuration types and page-data builders, the
  quick-link codec, the recipient helpers, the GitHub reads, and the
  resolver that turns a route into page data.
- `NetworkCatalog`, `NetworkTables`, `NetworkUtils`: the network
  catalog, the tables built from the SDK, and network selection and
  validation.
- `DonateDialog`, `UseX402Payment`: the payment session and the payment
  hook, as classes whose methods are the handlers and effects.
- `BuilderForm` (shared), `BuilderGitHub`, `BuilderQuickLink`,
  `StepWizard` (shared), `GitHubWizard`, `QuickLinkWizard`: the builder
  forms and the two step wizards. Both builder panels edit the same
  fields the same way, so `BuilderForm` is one form class for both.
  `StepWizard` is the step navigation both wizards repeat.
- `Amounts` (shared: the `$` prefix rule several pages apply), `AmountSelector`, `RecipientCard`, `ShareButtons`,
  `GivePage`, `Badge`, `BuilderRedirect`, `Seo`, `AssetLogo`: the page
  components.

Stateful components are classes whose fields are the component's state.
Each handler or effect is a method. Each method is specified against a
function of the old state and its inputs. Pure helpers are functions whose
partner lemmas state round trips, invariants and iff characterisations.

Where the model departs from the source text:

- Configuration fields named `label` are called `caption` here, since
  `label` is a Dafny keyword. This applies to links and payment tokens.
- Where the source's behaviour depends on its own data, the model
  reproduces it rather than fixing it:
  - the user-level GitHub reference `github.com/<login>/.x402/donation.json`
    reads as repository `.x402` in the share URL and on the recipient card;
  - network validation checks names against the available networks rather
    than the catalog;
  - the builder rejects zero-bip recipients, which `validateConfig` accepts.

## Model

| member | source | states |
|---|---|---|
| JsString.OrElse | src/types/donation-config.ts:275-279 | `a \|\| b` on an optional string: the value when it is present and non-empty, the fallback otherwise |
| JsString.Abbreviate | src/components/RecipientCard.tsx:36-38 | for at least ten characters: thirteen characters, the first six, `...`, the last four |
| JsString.Split | src/types/donation-config.ts:336 | `split`: at least one part, no part holds the separator, and joining the parts with it gives the string back |
| JsString.BeforeFirst | src/components/RecipientCard.tsx:45 | the prefix before the first separator, the whole string when there is none |
| JsString.SplitCons | src/pages/Badge.tsx:19 | splitting at a first separator gives the part before it followed by the parts of the rest |
| JsString.AsciiLower | src/types/donation-config.ts:166 | `toLowerCase` on ASCII letters: same length, each letter lowered, other characters kept |
| JsString.TrimStart | src/components/BuilderPanelGitHub.tsx:257 | the string less its leading whitespace: a suffix that starts with no whitespace, after only whitespace |
| JsString.TrimEnd | src/components/BuilderPanelGitHub.tsx:257 | the string less its trailing whitespace, the mirror of `TrimStart` |
| JsString.NatToString | src/lib/githubConfig.ts:56 | the decimal digits of a natural number |
| JsString.NatToStringValue | src/lib/githubConfig.ts:56 | the digits read back as a decimal number give the number |
| JsString.ParseIntOfIntToString | src/components/BuilderPanelGitHub.tsx:212 | `parseInt` of a printed integer gives the integer back |
| JsArray.Filter | src/lib/networkUtils.ts:41 | `filter`: only kept elements of the list, every kept element present; the list itself when every element is kept, empty when none is |
| JsArray.FilterCounts | src/lib/networkUtils.ts:41 | each kept element occurs in the result exactly as often as in the list, and nothing else is added |
| JsArray.FilterIsSubsequence | src/lib/networkUtils.ts:41 | a filtered list keeps the original order |
| Base64.Btoa | src/lib/quicklinkConfig.ts:10 | `btoa` succeeds exactly on text whose characters are all below U+0100 |
| Base64.Atob | src/lib/quicklinkConfig.ts:27 | `atob` (forgiving base64): an `InvalidCharacterError` iff, once white space and padding are removed, the length is 1 modulo 4 or a character is outside the alphabet; otherwise Latin-1 text of three bytes per four characters, the left-over bits dropped |
| Base64.BtoaAtob | src/lib/quicklinkConfig.ts:10-27 | decoding what `btoa` produced gives the text back (RFC 4648 section 4 with padding) |
| Base64.SextetsRoundTrip | src/lib/quicklinkConfig.ts:10-27 | regrouping bytes into sextets and back is the identity |
| Percent.EncodeUriComponent | src/lib/quicklinkConfig.ts:10 | `encodeURIComponent`: the result holds only unreserved characters and `%XX` escapes |
| Percent.DecodeEncode | src/lib/quicklinkConfig.ts:10-27 | `decodeURIComponent` of `encodeURIComponent(s)` is `s`, for UTF-8 sequences of one to four bytes |
| Json.ParseSerialize | src/lib/quicklinkConfig.ts:9-28 | `JSON.parse` of the serialization of a value gives the value back |
| Json.Lookup | src/lib/quicklinkConfig.ts:28 | the value of the last member with the key, as `JSON.parse` keeps the last duplicate; none when no member has the key |
| ConfigJson.ConfigFromJson | src/lib/quicklinkConfig.ts:28 | only an object reads as a configuration |
| ConfigJson.ConfigJsonRoundTrip | src/lib/quicklinkConfig.ts:9-28 | every configuration reads back from its JSON object unchanged |
| QuickLinkConfig.EncodeConfigToHash | src/lib/quicklinkConfig.ts:7-16 | the hash is `btoa` of the percent-encoded JSON, and `btoa` never throws on it |
| QuickLinkConfig.EncodedIsLatin1 | src/lib/quicklinkConfig.ts:10 | percent-encoded text is within `btoa`'s Latin-1 range |
| QuickLinkConfig.HashBody | src/hooks/useRecipient.ts:38 | the location hash less one leading `#`, the hash itself when it has none; shared with the quick-link builder (src/components/BuilderPanelQuickLink.tsx:40-42) |
| QuickLinkConfig.DecodeConfigFromHash | src/lib/quicklinkConfig.ts:21-34 | `None`, never an exception, for the empty hash, bad base64, a malformed escape and bad JSON; otherwise the configuration read from the parsed JSON |
| QuickLinkConfig.NonEmptyEncoding | src/lib/quicklinkConfig.ts:7-22 | a hash is never empty, so the empty-hash guard never rejects one |
| QuickLinkConfig.DecodeEncodeConfig | src/lib/quicklinkConfig.ts:7-29 | decoding the hash of any configuration gives the configuration back |
| QuickLinkConfig.ValidateConfig | src/lib/quicklinkConfig.ts:39-61 | the early-return loop accepts exactly the configurations of `IsValidConfig` |
| QuickLinkConfig.NoPayToInvalid | src/lib/quicklinkConfig.ts:41-43 | without a truthy `payTo` a configuration is invalid |
| QuickLinkConfig.OverLimitInvalid | src/lib/quicklinkConfig.ts:46-50 | a bips total above 10000 is invalid whatever the entries hold |
| QuickLinkConfig.NoRecipientsValid | src/lib/quicklinkConfig.ts:46-60 | a truthy `payTo` with no or empty recipients is valid |
| QuickLinkConfig.ResolveQuickLinkRecipients | src/lib/quicklinkConfig.ts:67-83 | the recipients when they total at most 10000, else none; the result never exceeds 10000 |
| QuickLinkConfig.QuickLinkConfigFor | src/lib/quicklinkConfig.ts:88-103 | `payTo` is the address; the decoded configuration otherwise unchanged, or only the address when nothing decodes |
| QuickLinkConfig.QuickLinkKeepsFields | src/lib/quicklinkConfig.ts:88-103 | a quick link made from a configuration's hash keeps every field except `payTo` |
| QuickLinkConfig.CreateQuickLinkConfig | src/lib/quicklinkConfig.ts:88-103 | the in-place overwrite of `payTo` computes `QuickLinkConfigFor` |
| X402.GetTransferHookAddress | src/lib/x402.ts:31-39 | the network's transfer hook exactly when the catalog has it, else the "Unsupported network" error |
| X402.ActiveRecipients | src/lib/x402.ts:46 | exactly the recipients with positive bips, each as often as in the list, in the list's order |
| X402.EncodeRecipientsForHook | src/lib/x402.ts:42-56 | `0x` for every list |
| X402.GetPrimaryRecipient | src/lib/x402.ts:59-63 | the first address, or the zero address when the list is empty or that address is empty; never empty |
| X402.ValidateRecipientConfig | src/lib/x402.ts:66-73 | true iff the list is non-empty and totals at most 10000 |
| X402.ValidRecipientsSurviveQuickLink | src/lib/x402.ts:66-73 | a list passes the payment check iff it is non-empty and a quick link keeps it unchanged |
| DonationConfig.SumBipsAppend | src/lib/quicklinkConfig.ts:47 | the bips total grows by the bips of each appended recipient |
| DonationConfig.DetectLinkType | src/types/donation-config.ts:165-205 | each type iff its pattern matches the lower-cased URL and no earlier one does; email only for a `mailto:` prefix |
| DonationConfig.AsciiLowerIdempotent | src/types/donation-config.ts:166 | lowering twice is lowering once |
| DonationConfig.DetectLinkTypeCaseInsensitive | src/types/donation-config.ts:166 | the type does not depend on letter case |
| DonationConfig.RepositoryWinsOverDocs | src/types/donation-config.ts:169-195 | every `https://github.com/<path>/docs` URL matches a documentation pattern and is still classified as a repository |
| DonationConfig.WebsiteUrl | src/types/donation-config.ts:241 | the repository homepage when truthy, else the user's blog |
| DonationConfig.MergedLinks | src/types/donation-config.ts:224-251 | the configuration's links first, in order, then the repository URL labelled Repository and the website labelled Website, each added iff the source is GitHub, the data exists and its URL is not already listed; the result always lists those URLs; exactly the configuration's links outside GitHub |
| DonationConfig.MergeLinksIdempotent | src/types/donation-config.ts:224-251 | merging already merged links changes nothing |
| DonationConfig.MergeLinks | src/types/donation-config.ts:224-251 | the loop builds exactly `MergedLinks` |
| DonationConfig.DisplayTitle | src/types/donation-config.ts:275-279 | the truthy title, else the repository name, else the truthy user login, else the reference |
| DonationConfig.DisplayDescription | src/types/donation-config.ts:282-285 | the truthy description, else the truthy repository description, else the user's bio, else none |
| DonationConfig.DisplayCreator | src/types/donation-config.ts:288-295 | the configured creator, else the GitHub user's login and avatar; none iff neither exists |
| DonationConfig.GetDisplayData | src/types/donation-config.ts:256-308 | recipients are the configured list or none; title, description and creator by their priority chains; links exactly `MergedLinks` of the configuration |
| DonationConfig.GitHubReference | src/types/donation-config.ts:334-336 | `github.com/` followed by the repository or user and the configuration path |
| DonationConfig.BuildGitHubDataWithFile | src/types/donation-config.ts:313-344 | the file's configuration, under a verified GitHub source with the user and repository |
| DonationConfig.BuildGitHubDataWithoutFile | src/types/donation-config.ts:349-376 | an empty configuration (no `payTo`), under an unverified GitHub source |
| DonationConfig.BuildQuickLinkData | src/types/donation-config.ts:381-395 | the configuration under an unverified quick-link source with no GitHub data |
| DonationConfig.UserReferenceParts | src/types/donation-config.ts:336 | a user-level reference splits into `github.com`, the login, `.x402` and `donation.json` |
| DonationConfig.OwnerReferenceParts | src/types/donation-config.ts:335-336 | any owner's reference splits into the same four parts |
| GitHubConfig.UserInfoOutcome | src/lib/githubConfig.ts:23-34 | the user exactly when the request succeeds with an ok status and a parseable body |
| GitHubConfig.FetchGitHubUserInfo | src/lib/githubConfig.ts:23-34 | the request's steps compute `UserInfoOutcome` |
| GitHubConfig.GitHubConfigOutcome | src/lib/githubConfig.ts:59-90 | a result iff both requests succeed with ok status and bodies and `payTo` is truthy; then verified, with source `github.com/<user>/<repo ?? user>/.x402/donation.json` |
| GitHubConfig.FetchGitHubConfig | src/lib/githubConfig.ts:42-91 | the URL building and the checks compute `GitHubConfigOutcome` for the URLs requested |
| GitHubConfig.ConfigUrlParts | src/lib/githubConfig.ts:48-52 | the file is `.x402/donation.json` on branch `main` of repository `repo ?? username` |
| GitHubConfig.ConfigSourceParts | src/lib/githubConfig.ts:79 | the source splits into `github.com`, the user, the target repository and the configuration path |
| GitHubConfig.ResolveRecipients | src/lib/githubConfig.ts:97-120 | the push loop gives the same list as the quick-link rule, never above 10000 |
| GitHubConfig.ResolveDefaultAmount | src/lib/githubConfig.ts:125-127 | the configured default amount, present iff configured |
| GitHubConfig.IsDollarAmount | src/lib/githubConfig.ts:132-134 | true iff the first character is `$` |
| UseRecipient.ResolveAddress | src/hooks/useRecipient.ts:78-95 | an address route always pays the address under an unverified quick-link source |
| UseRecipient.RecipientResolver.constructor | src/hooks/useRecipient.ts:29-30 | no data, loading |
| UseRecipient.RecipientResolver.Current | src/hooks/useRecipient.ts:118-123 | nothing while loading, the resolved data after |
| UseRecipient.RecipientResolver.ResolveConfig | src/hooks/useRecipient.ts:33-106 | the effect's branch tree ends not loading, holding `Resolve` of the route and the collaborators |
| UseRecipient.GitHubRouteWithConfig | src/hooks/useRecipient.ts:41-58 | a GitHub route whose configuration is found gives verified GitHub data built from it |
| UseRecipient.RepoLookupOnlyWithRepo | src/hooks/useRecipient.ts:51-68 | without a repository parameter the repository lookup has no effect on the result |
| UseRecipient.GitHubRouteWithoutConfig | src/hooks/useRecipient.ts:59-76 | with no configuration: unverified data without `payTo` when the user exists, nothing otherwise |
| UseRecipient.AddressRouteValidHash | src/hooks/useRecipient.ts:80-86 | a valid decoded configuration pays the address, with reference `address#hash` |
| UseRecipient.AddressRouteInvalidHash | src/hooks/useRecipient.ts:87-95 | an invalid configuration falls back to `payTo` alone with the address as reference |
| UseRecipient.UnsupportedRouteNothing | src/hooks/useRecipient.ts:96-99 | an invalid address or another route gives nothing |
| UseRecipient.RepoLookupFailureNothing | src/hooks/useRecipient.ts:100-102 | a repository lookup that throws gives nothing |
| NetworkCatalog.Networks | src/config/networks.ts:72-89 | exactly the four keys, each the SDK record with its display metadata |
| NetworkCatalog.FindChainId | src/config/networks.ts:94-98 | the first index whose chain id matches, or the length |
| NetworkCatalog.GetNetworkByChainId | src/config/networks.ts:94-98 | the first catalog key on the chain; none iff no key is on it |
| NetworkCatalog.GetNetworkConfig | src/config/networks.ts:103-105 | the record of the network: the SDK's entry for it and the catalog's display entry |
| NetworkCatalog.Storage.constructor | src/config/networks.ts:116 | an empty store |
| NetworkCatalog.Storage.GetItem | src/config/networks.ts:116 | `getItem`: the stored value, or none |
| NetworkCatalog.Storage.SetItem | src/config/networks.ts:127 | `setItem` writes that one key |
| NetworkCatalog.GetPreferredNetworkAsWritten | src/config/networks.ts:115-121 | a network iff the key is stored, non-empty and passes `stored in NETWORKS` as written, which also admits inherited property names |
| NetworkCatalog.InheritedNameAccepted | src/config/networks.ts:117 | a stored `toString` is returned as the preferred network though it is no catalog key |
| NetworkCatalog.GetPreferredNetwork | src/config/networks.ts:115-121 | a value iff the stored value is a catalog key, and then that value |
| NetworkCatalog.PreferredReadingsAgree | src/config/networks.ts:115-121 | both readings agree unless an inherited name is stored |
| NetworkCatalog.SetPreferredNetwork | src/config/networks.ts:110-128 | writes only `gives-preferred-network`, after which the preferred network is the one written |
| NetworkTables.UsdcToken | src/constants/networks.ts:46-53 | USDC at the SDK's default asset address, with an explorer link iff the network has an address explorer |
| NetworkTables.BuildPaymentTokens | src/constants/networks.ts:39-56 | one entry per supported network, holding exactly its USDC token |
| NetworkTables.SupportedEntry | src/constants/networks.ts:62-75 | name falls back to the key, Mainnet iff the type is mainnet, an explorer URL or `""`, the network's tokens or none |
| NetworkTables.BuildSupportedNetworks | src/constants/networks.ts:59-78 | one entry per supported network, in SDK order |
| NetworkTables.NetworkByKey | src/constants/networks.ts:81-83 | keyed by each entry's network, each key mapping to an entry of the list with that network |
| NetworkTables.NetworkByKeyLast | src/constants/networks.ts:81-83 | an entry whose key does not recur later is what the map holds for it |
| NetworkTables.TablesAgree | src/constants/networks.ts:39-83 | looking a supported network up by key gives its entry, carrying its one USDC token |
| NetworkUtils.NormalizeNetworkConfig | src/lib/networkUtils.ts:8-16 | absent or empty gives none, a name gives that name, a list is kept |
| NetworkUtils.GetConfiguredNetworks | src/lib/networkUtils.ts:22-24 | the normalised network field; non-empty only when the field is set |
| NetworkUtils.GetSelectableNetworks | src/lib/networkUtils.ts:31-44 | the available list when nothing is configured, else the available networks that are configured |
| NetworkUtils.SelectableKeepsOrder | src/lib/networkUtils.ts:41 | the selectable networks keep the available list's order |
| NetworkUtils.InvalidNetworks | src/lib/networkUtils.ts:64-66 | exactly the configured names not available |
| NetworkUtils.TestnetNetworks | src/lib/networkUtils.ts:76-79 | exactly the configured names that are catalog testnets |
| NetworkUtils.ValidateNetworkConfig | src/lib/networkUtils.ts:50-92 | the pushes give the two messages in order; valid iff there is no error |
| NetworkUtils.NothingConfiguredNoErrors | src/lib/networkUtils.ts:57-60 | no configured network means no error |
| NetworkUtils.InvalidNamesReported | src/lib/networkUtils.ts:63-71 | an unavailable name gives exactly one first error naming it, and outside production no other |
| NetworkUtils.TestnetsReportedInProduction | src/lib/networkUtils.ts:75-86 | in production a configured testnet gives a last error naming it, beside the name error iff there are unavailable names |
| NetworkUtils.AvailableNamesValid | src/lib/networkUtils.ts:63-71 | outside production, names all available give no error |
| Amounts.StripDollarPrefix | src/components/AmountSelector.tsx:30-32 | `replace(/^\$\s*/, "")`: the input when it has no `$`, else its suffix after the `$` and the whitespace that follows it |
| Amounts.DollarPrefixIrrelevant | src/pages/Give.tsx:41 | `$ 5` and `5` give the same amount |
| Amounts.TrimLeadingSpaces | src/components/AmountSelector.tsx:31 | dropping leading whitespace from whitespace followed by text gives the text |
| Amounts.StripDollarPrefixIdempotent | src/components/DonateDialog.tsx:77 | stripping twice is stripping once, unless the stripped amount begins with another `$` |
| AmountSelector.FirstEqual | src/components/AmountSelector.tsx:24 | `find`: a preset with the same numeric value, none iff no preset has it |
| AmountSelector.FirstEqualIsFirst | src/components/AmountSelector.tsx:24 | the preset found is the first with that value |
| AmountSelector.FindPresetMatch | src/components/AmountSelector.tsx:16-26 | none for `""`, `.`, `$` and NaN, else a preset numerically equal to the value, none iff no preset is |
| AmountSelector.IntegerNumber | src/components/AmountSelector.tsx:20 | `Number` of a string of digits is its decimal value |
| AmountSelector.DecimalNumber | src/components/AmountSelector.tsx:20 | `Number` of `digits.digits` is the decimal value |
| AmountSelector.PresetNumbers | src/components/AmountSelector.tsx:14 | the presets read as the numbers 0.1, 1, 5, 10, 25 and 50 |
| AmountSelector.PresetsMatchThemselves | src/components/AmountSelector.tsx:14-26 | every preset matches itself |
| AmountSelector.TrailingZeroMatches | src/components/AmountSelector.tsx:20-24 | matching is numeric: `5.0` selects the `5` preset |
| AmountSelector.NormalizeAmount | src/components/AmountSelector.tsx:30-32 | the amount without its `$` prefix: unchanged without one, a shorter suffix with one |
| AmountSelector.InitialAmount | src/components/AmountSelector.tsx:34 | `5` without a truthy default amount, else the normalised default |
| AmountSelector.NoDefaultSelectsFive | src/components/AmountSelector.tsx:34-38 | with no default amount the `5` preset starts selected |
| AmountSelector.CleanAmount | src/components/AmountSelector.tsx:58 | only the digits and dots of the input, each as often as in the input, in order; an input of only those is kept |
| AmountSelector.CleanIdempotent | src/components/AmountSelector.tsx:58 | cleaning twice is cleaning once |
| AmountSelector.NotifyIff | src/components/AmountSelector.tsx:63 | `parseFloat` of the cleaned value is a number iff it starts with a digit or with a dot and a digit |
| AmountSelector.Selector.constructor | src/components/AmountSelector.tsx:34-38 | the initial amount, and the preset that matches it |
| AmountSelector.Selector.DefaultAmountChanged | src/components/AmountSelector.tsx:41-48 | a truthy default sets the normalised amount and its preset and reports it; otherwise nothing changes |
| AmountSelector.Selector.HandlePresetClick | src/components/AmountSelector.tsx:50-54 | the clicked preset becomes amount and selection and is reported |
| AmountSelector.Selector.HandleCustomAmountChange | src/components/AmountSelector.tsx:56-66 | the cleaned value and its preset are kept; it is reported only when it parses as a number |
| AssetLogo.TokenPathIgnoresCase | src/components/asset-logo.tsx:21-26 | token symbols differing only in case share a logo path, and network keys are used as given, under a root of `/` when unset |
| AssetLogo.ToInt32 | src/components/asset-logo.tsx:39 | `\| 0`: the signed 32-bit integer congruent to the input modulo 2^32 |
| AssetLogo.ToUint32 | src/components/asset-logo.tsx:40 | `>>> 0`: the unsigned 32-bit integer congruent to the input |
| AssetLogo.CodeUnits | src/components/asset-logo.tsx:39 | `charCodeAt` reads UTF-16 units, each below 2^16, at least one per character |
| AssetLogo.CodeUnitsRoundTrip | src/components/asset-logo.tsx:39 | the code units are the UTF-16 encoding: read back, pairing high and low surrogates, they give the string again |
| AssetLogo.HashOf | src/components/asset-logo.tsx:38-39 | the hash stays in the signed 32-bit range |
| AssetLogo.GradientHash | src/components/asset-logo.tsx:38-39 | the loop computes the hash of the identifier's code units |
| AssetLogo.CongruentStep | src/components/asset-logo.tsx:39 | one step of `(h * 31 + c) \| 0` keeps the hash congruent to the unbounded polynomial |
| AssetLogo.HashIsPolynomial | src/components/asset-logo.tsx:38-40 | the wrapped hash is the polynomial hash in base 31 reduced modulo 2^32 |
| AssetLogo.Hue1 | src/components/asset-logo.tsx:40 | a hue below 360 |
| AssetLogo.Hue2 | src/components/asset-logo.tsx:41 | a hue below 360 |
| AssetLogo.HuesApart | src/components/asset-logo.tsx:40-41 | the second hue lies 90 to 179 degrees after the first round the wheel |
| AssetLogo.AfterError | src/components/asset-logo.tsx:58-62 | a failed load never retries `svg`; it tries `png` iff the failed one was `svg` |
| AssetLogo.ErrorsExhaust | src/components/asset-logo.tsx:28-62 | two failed loads leave no extension, so the gradient shows |
| AssetLogo.Logo.constructor | src/components/asset-logo.tsx:21-29 | the base path of the target, trying `svg` |
| AssetLogo.Logo.SetTarget | src/components/asset-logo.tsx:31-34 | a changed base path starts again from `svg`; an unchanged one keeps the attempt |
| AssetLogo.Logo.ImageError | src/components/asset-logo.tsx:58-62 | the extension steps by `AfterError`, the path unchanged |
| AssetLogo.Logo.ImageSource | src/components/asset-logo.tsx:53-55 | an image iff an extension remains, at the base path with that extension |
| Badge.ParseTarget | src/pages/Badge.tsx:12-26 | a target iff it is truthy and splits into `github.com` and at least a user; the user is the second part, the repository the third when there is one |
| Badge.ParseTargetRoundTrip | src/pages/Badge.tsx:19-26 | `github.com/<user>[/<repo>]` parses back to that user and repository |
| Badge.BadgeTextFramesName | src/pages/Badge.tsx:74-76 | the text is `Support `, the name (with `/repo` when there is one), ` via x402.gives` |
| Badge.BadgePage.constructor | src/pages/Badge.tsx:7-8 | no badge and no error |
| Badge.BadgePage.View | src/pages/Badge.tsx:47-71 | the error badge iff an error was set, the loading badge iff neither, else the generated SVG |
| Badge.BadgePage.Generate | src/pages/Badge.tsx:10-45 | an unparseable target or a missing configuration sets the error; otherwise the SVG of the title or user name, fetched as `fetchGitHubConfig` does |
| Badge.UntitledBadgeNamesRepo | src/pages/Badge.tsx:36-76 | with no title the badge reads `Support <user>/<repo> via x402.gives` |
| BuilderRedirect.RedirectTarget | src/pages/BuilderRedirect.tsx:17-36 | always a replacing navigation; the address page with `?builder=true` when there is no user, else `/builder` when there is no address |
| BuilderRedirect.GitHubRedirectIsPanelUrl | src/pages/BuilderRedirect.tsx:19-25 | a user's redirect is the GitHub page URL with `?builder=true`; an empty repository counts as none and the address is ignored |
| BuilderRedirect.RouteSegments | src/Router.tsx:21-22 | the segments after `/builder/`, joined back to the path with at most one trailing `/` ignored |
| BuilderRedirect.MatchBuilderRouteAsWritten | src/Router.tsx:21-22 | the route table as written: `/builder/github.com/<user>/<repo>` binds that user and repository, `/builder/<address>` binds that address, and nothing else matches; a user is bound only with a repository |
| BuilderRedirect.MatchBuilderRoute | src/Router.tsx:21-22 | the route table with an optional `:repo`: also binds a user-level path, and agrees with the table as written wherever that matches |
| BuilderRedirect.TrailingSlashIgnored | src/Router.tsx:21-22 | a path with one trailing `/` matches both tables as the path without it does |
| BuilderRedirect.RepoPageLinkRedirects | src/pages/Give.tsx:334-337 | for a repository page, following its builder link reaches the redirect, which goes to the same page in builder mode |
| BuilderRedirect.UserBuilderLinkUnrouted | src/pages/Give.tsx:334-337 | the builder link of a user-level page matches no builder route as written |
| BuilderRedirect.BuilderLinkRedirects | src/Router.tsx:21 | with an optional `:repo`, every page's builder link redirects to the same page in builder mode |
| Seo.AbsoluteUrl | src/config/seo.ts:33-37 | always absolute; the base URL for no path, the path itself when already absolute |
| Seo.RelativeUnderBase | src/config/seo.ts:36 | a relative path is joined to `https://x402.gives` with exactly one `/` |
| Seo.AbsoluteUrlIdempotent | src/config/seo.ts:33-37 | making an absolute URL absolute changes nothing |
| GivePage.EffectivePageData | src/pages/Give.tsx:76-87 | the resolved data unless a builder preview exists; then the preview with recipients defaulting to none and the resolved or preview metadata |
| GivePage.PreviewKeepsFields | src/pages/Give.tsx:83-85 | the preview keeps every field of the builder's configuration and always has a recipient list |
| GivePage.ChooseView | src/pages/Give.tsx:90-118 | loading iff nothing is resolved; without `payTo` outside builder mode the repository page when a GitHub user is known, else the welcome page; otherwise the donation page |
| GivePage.BuilderModeShowsDonationPage | src/pages/Give.tsx:111-118 | builder mode always reaches the donation page once data is resolved |
| GivePage.UnconfiguredRepoShowsRepoPage | src/pages/Give.tsx:111-114 | a GitHub page without a config file shows the repository page |
| GivePage.DialogOffersEveryNetwork | src/pages/Give.tsx:233-243 | the page passes no network configuration, so the dialog offers every catalog network |
| GivePage.Page.constructor | src/pages/Give.tsx:27-29 | amount `5`, dialog closed, no preview |
| GivePage.Page.DefaultAmountEffect | src/pages/Give.tsx:38-44 | a truthy default amount becomes the selection without its `$`; nothing else changes |
| GivePage.Page.HandlePreview | src/pages/Give.tsx:68-73 | the builder's configuration becomes the preview |
| GivePage.Page.HandleGive | src/pages/Give.tsx:46-52 | the dialog opens iff the effective data has a truthy `payTo` |
| GivePage.Page.CloseDialog | src/pages/Give.tsx:233-243 | the dialog closes, nothing else changes |
| GivePage.ConfigFileUnderRepoUrl | src/pages/Give.tsx:255-260 | the config file link lies under the repository link, in the repository named after the user for a user page, which is where the configuration is fetched from |
| GivePage.BuilderLinkIsBuilderUrl | src/pages/Give.tsx:335-339 | the "create" link is `/builder` followed by the builder's own GitHub page URL |
| ShareButtons.GitHubShareTarget | src/components/ShareButtons.tsx:24-33 | a user and repository iff the source is verified GitHub with a user and its reference splits into `github.com` and at least two more parts |
| ShareButtons.ShareUrl | src/components/ShareButtons.tsx:20-40 | the GitHub page with the amount percent-encoded for such a source, else `/give?to=` with the amount as it is |
| ShareButtons.UserLevelShareUsesConfigDir | src/components/ShareButtons.tsx:29-34 | a user-level configuration shares `/github.com/<login>/.x402`, taking the config directory for the repository |
| ShareButtons.UnverifiedSharesGivePage | src/components/ShareButtons.tsx:24-39 | a page without a config file shares the `/give?to=` page |
| ShareButtons.ShareLinksCarryUrl | src/components/ShareButtons.tsx:51-55 | the Twitter, Facebook and Telegram links each carry the share URL in a parameter that decodes back to it |
| ShareButtons.TwitterCarriesUrl | src/components/ShareButtons.tsx:52 | the Twitter `url` parameter decodes to the share URL for any text |
| ShareButtons.FacebookCarriesUrl | src/components/ShareButtons.tsx:53 | the Facebook `u` parameter decodes to the share URL |
| ShareButtons.TelegramCarriesUrl | src/components/ShareButtons.tsx:54 | the Telegram `url` parameter decodes to the share URL, ending before `&text=` |
| RecipientCard.FormatAddress | src/components/RecipientCard.tsx:36-38 | for at least ten characters: the first six, `...`, the last four |
| RecipientCard.FormatSourceReference | src/components/RecipientCard.tsx:40-63 | a quick link or `0x` reference shows the shortened address before `#`; a GitHub reference its first three parts; others as they are, or 24 + `...` + 24 when over fifty |
| RecipientCard.Elide | src/components/RecipientCard.tsx:57-59 | a reference over fifty characters becomes 51: its first 24 characters, `...`, its last 24 |
| RecipientCard.QuickLinkShowsAddress | src/components/RecipientCard.tsx:44-46 | a quick link reference shows the shortened address without the hash |
| RecipientCard.UserLevelShowsConfigDir | src/components/RecipientCard.tsx:49-55 | a user-level reference shows `github.com/<login>/.x402` |
| RecipientCard.PrimaryShare | src/components/RecipientCard.tsx:193-194 | `payTo`'s share and the recipients' total (`SumBips`) together are 10000 bips; for a non-empty list the share is non-negative iff the list passes the payment check `ValidateRecipientConfig` |
| RecipientCard.ValidConfigPrimaryShare | src/components/RecipientCard.tsx:193-194 | a valid configuration never gives `payTo` a negative share |
| RecipientCard.RecipientCount | src/components/RecipientCard.tsx:153 | the header counts `payTo` as well as the recipients; it shows 1 exactly when the payment check rejects the list for being empty, not for exceeding 10000 bips |
| RecipientCard.ChooseView | src/components/RecipientCard.tsx:86-143 | the recipient list iff `payTo` is truthy, paying it first; else the creator card when there is a creator, otherwise "no recipients" |
| BuilderForm.TotalBipsAppend | src/components/BuilderPanelGitHub.tsx:212 | the form's total grows by each row's `parseInt(bips) \|\| 0` |
| BuilderForm.UnparsedRowCountsZero | src/components/BuilderPanelGitHub.tsx:212 | a row whose bips do not parse adds nothing to the total |
| BuilderForm.RemainingBips | src/components/BuilderPanelGitHub.tsx:213 | what is left for `payTo` and the total make 10000 |
| BuilderForm.NoRowsValidity | src/components/BuilderPanelGitHub.tsx:214-219 | with no rows the form is valid iff `payTo` is a non-empty address |
| BuilderForm.AddedRowInvalid | src/components/BuilderPanelGitHub.tsx:218-223 | a freshly added row (no address, `0` bips) makes the form invalid |
| BuilderForm.RemoveAt | src/components/BuilderPanelGitHub.tsx:226 | `filter((_, i) => i !== index)`: the list without that index, in order; unchanged for an index out of range |
| BuilderForm.SetRecipientField | src/components/BuilderPanelGitHub.tsx:229-233 | only the named field of the row takes the value |
| BuilderForm.SetLinkField | src/components/BuilderPanelGitHub.tsx:243-247 | only the named field of the link takes the value |
| BuilderForm.ToggledNetworks | src/components/BuilderPanelQuickLink.tsx:421-425 | checking appends the key; unchecking removes every copy of it and keeps the others |
| BuilderForm.NetworkField | src/components/BuilderPanelGitHub.tsx:253 | none for no network, the name for one, the list for several |
| BuilderForm.NetworkFieldNormalizes | src/components/BuilderPanelGitHub.tsx:253 | normalising the generated network field gives the chosen networks back |
| BuilderForm.TrimmedField | src/components/BuilderPanelGitHub.tsx:257-262 | a field is set iff its trimmed text is non-empty, and then to that text |
| BuilderForm.GeneratedLinks | src/components/BuilderPanelGitHub.tsx:273-280 | no more links than rows, none with an empty URL |
| BuilderForm.GeneratedLinksCount | src/components/BuilderPanelGitHub.tsx:274-275 | every row with a URL yields a link, and rows all without one yield none |
| BuilderForm.GeneratedRecipients | src/components/BuilderPanelGitHub.tsx:284-287 | one recipient per row, with the row's address and parsed bips |
| BuilderForm.GenerateConfig | src/components/BuilderPanelGitHub.tsx:249-291 | every field of the generated configuration, each present exactly under its condition and holding the form's value (the default amount as typed), recipients only when some row has a positive total |
| BuilderForm.LinkInputs | src/components/BuilderPanelGitHub.tsx:82-87 | one row per link, label defaulting to empty |
| BuilderForm.RecipientInputs | src/components/BuilderPanelGitHub.tsx:89-95 | one row per recipient, bips printed in decimal |
| BuilderForm.TextRoundTrip | src/components/BuilderPanelGitHub.tsx:69-74 | a trimmed optional text survives loading into the form and generating |
| BuilderForm.CreatorRoundTrip | src/components/BuilderPanelGitHub.tsx:75-80 | a trimmed creator survives loading and generating |
| BuilderForm.NetworkRoundTrip | src/components/BuilderPanelGitHub.tsx:100-103 | a network setting survives loading and generating, a one-element list excepted |
| BuilderForm.RecipientRoundTrip | src/components/BuilderPanelGitHub.tsx:89-95 | recipients survive loading and generating, and the form's total is their bips total |
| BuilderForm.TotalBipsOfInputs | src/components/BuilderPanelGitHub.tsx:93 | the total of the loaded rows is the recipients' bips total |
| BuilderForm.SumBipsSplit | src/lib/quicklinkConfig.ts:47 | the bips total of two lists joined is the sum of their totals |
| BuilderForm.LinkRoundTrip | src/components/BuilderPanelGitHub.tsx:82-87 | links with trimmed non-empty URLs and labels survive loading and generating |
| BuilderForm.Form.constructor | src/components/BuilderPanelGitHub.tsx:28-39 | the blank form for the initial `payTo` |
| BuilderForm.Form.SetState | src/components/BuilderPanelGitHub.tsx:28-39 | the form holds exactly the given state |
| BuilderForm.Form.AddRecipient | src/components/BuilderPanelGitHub.tsx:221-223 | appends an empty row with `0` bips, nothing else changes |
| BuilderForm.Form.RemoveRecipient | src/components/BuilderPanelGitHub.tsx:225-227 | removes the row at the index, nothing else changes |
| BuilderForm.Form.UpdateRecipient | src/components/BuilderPanelGitHub.tsx:229-233 | sets one field of one row, nothing else changes |
| BuilderForm.Form.AddLink | src/components/BuilderPanelGitHub.tsx:235-237 | appends an empty link, nothing else changes |
| BuilderForm.Form.RemoveLink | src/components/BuilderPanelGitHub.tsx:239-241 | removes the link at the index, nothing else changes |
| BuilderForm.Form.UpdateLink | src/components/BuilderPanelGitHub.tsx:243-247 | sets one field of one link, nothing else changes |
| BuilderForm.Form.ToggleNetwork | src/components/BuilderPanelQuickLink.tsx:420-426 | the networks become `ToggledNetworks` of the old ones, nothing else changes |
| BuilderForm.RemoveRowTotal | src/components/BuilderPanelGitHub.tsx:212-227 | removing a row lowers the total by exactly that row's bips |
| BuilderForm.TotalBipsSplit | src/components/BuilderPanelGitHub.tsx:212 | the total of two row lists joined is the sum of their totals |
| BuilderGitHub.FillFromConfig | src/components/BuilderPanelGitHub.tsx:62-103 | each field is overwritten only when the configuration has it truthy, the networks normalised |
| BuilderGitHub.FillFromRepo | src/components/BuilderPanelGitHub.tsx:107-140 | a truthy repository name fills an empty title, and a truthy description an empty description; the owner fills an empty creator handle, with its avatar when truthy; the links become Repository, Website or both, as the response has them truthy, and are kept when it has neither; `payTo`, recipients, networks and amount kept |
| BuilderGitHub.AutoLinks | src/components/BuilderPanelGitHub.tsx:128-137 | the repository page labelled Repository, then the homepage labelled Website, each iff truthy |
| BuilderGitHub.FillFromRepoIdempotent | src/components/BuilderPanelGitHub.tsx:107-140 | filling from the same repository again changes nothing |
| BuilderGitHub.LoadExistingConfig | src/components/BuilderPanelGitHub.tsx:48-151 | the config exists iff `fetchGitHubConfig` finds it; the form is filled from it, or from the repository data otherwise |
| BuilderGitHub.RefreshConfig | src/components/BuilderPanelGitHub.tsx:154-209 | the same with the cache bypassed and no repository fallback |
| BuilderGitHub.FillThenGenerate | src/components/BuilderPanelGitHub.tsx:62-103 | loading a canonical configuration into a blank form and generating gives it back |
| BuilderGitHub.GenerateUrl | src/components/BuilderPanelGitHub.tsx:351-354 | the `/github.com/<user>[/<repo>]` page |
| BuilderGitHub.GetDisplayName | src/components/BuilderPanelGitHub.tsx:356-360 | the title, else `user/repo`, else the user |
| BuilderGitHub.EditorUrl | src/components/BuilderPanelGitHub.tsx:321-349 | the edit page for an existing file, else the new-file page carrying the percent-encoded JSON |
| BuilderGitHub.NewFileCarriesContent | src/components/BuilderPanelGitHub.tsx:344-346 | the new-file link's `value` parameter decodes to the JSON |
| BuilderQuickLink.FillFromQuickLink | src/components/BuilderPanelQuickLink.tsx:44-84 | each field is kept when the decoded configuration has it falsy and set from it otherwise: `payTo`, title, description and amount when truthy, the handle when non-empty, the avatar when truthy, links and recipients when non-empty, the networks normalised |
| BuilderQuickLink.FillFromQuickLinkIdempotent | src/components/BuilderPanelQuickLink.tsx:44-84 | writing the same configuration again changes nothing |
| BuilderQuickLink.MountedForm | src/components/BuilderPanelQuickLink.tsx:28-85 | `payTo` is the route's address; a hash that does not decode leaves the blank form |
| BuilderQuickLink.Mount | src/components/BuilderPanelQuickLink.tsx:39-88 | the mount effects leave `MountedForm` |
| BuilderQuickLink.SyncPayTo | src/components/BuilderPanelQuickLink.tsx:87-89 | only `payTo` changes, to the route's address |
| BuilderQuickLink.GenerateUrl | src/components/BuilderPanelQuickLink.tsx:169-173 | `<origin>/<payTo>#` followed by the hash |
| BuilderQuickLink.UrlFragmentDecodes | src/components/BuilderPanelQuickLink.tsx:169-173 | the fragment decodes to the generated configuration |
| BuilderQuickLink.ReopenedLinkGeneratesSame | src/components/BuilderPanelQuickLink.tsx:39-85 | reopening a link in the builder generates the same configuration, paying the route's address |
| BuilderQuickLink.FilledGenerates | src/components/BuilderPanelQuickLink.tsx:44-84 | filling a blank form from a canonical configuration and generating gives it back |
| BuilderQuickLink.GetDisplayName | src/components/BuilderPanelQuickLink.tsx:175-177 | the title, else the abbreviated address |
| DonateDialog.SelectableNetworks | src/components/DonateDialog.tsx:117-120 | every catalog key without a configuration, else the configuration's selectable networks |
| DonateDialog.SelectableAreCatalogKeys | src/components/DonateDialog.tsx:117-120 | the dialog only offers catalog networks, so `NETWORKS[...]` lookups on them succeed |
| DonateDialog.FeeErrorMessage | src/components/DonateDialog.tsx:218 | the error's message, or "Failed to load facilitator fee" when it is empty |
| DonateDialog.PaymentErrorMessage | src/components/DonateDialog.tsx:269 | the error's message, or "Payment failed" when it is empty |
| DonateDialog.DisplayAmounts | src/components/DonateDialog.tsx:69-101 | the amount without `$`; with a fee and a network the fee and the formatted total of amount plus fee, else no fee and the amount as total |
| DonateDialog.DollarSignSameTotals | src/components/DonateDialog.tsx:77 | `$5` and `5` display the same amount, fee and total |
| DonateDialog.PreferenceCheckHarmlessHere | src/components/DonateDialog.tsx:138-141 | since the stored preference must also be selectable, the as-written `in` check and the corrected one choose the same network |
| DonateDialog.AfterLoadFee | src/components/DonateDialog.tsx:197-221 | nothing without a client and address; the fee and the confirm step on success; the fee error and the select step on failure |
| DonateDialog.AfterContinue | src/components/DonateDialog.tsx:147-194 | the switch step when the wallet is on another chain, else the fee is loaded |
| DonateDialog.ContinueKeepsSelection | src/components/DonateDialog.tsx:147-157 | continuing keeps the network, the paying flag and the transaction; a new fee only with the confirm step |
| DonateDialog.FeeNeverLoadsAsWritten | src/components/DonateDialog.tsx:206-219 | with the client's promise not awaited, loading a fee always fails with `client.calculateFee is not a function`: no fee, back to network selection, and the payment guard never passes |
| DonateDialog.AwaitedFeeEnablesPay | src/components/DonateDialog.tsx:206-214 | with the client awaited, a loaded fee reaches confirmation and the payment guard passes |
| DonateDialog.FailedFeeRetries | src/components/DonateDialog.tsx:216-219 | a failed fee load returns to network selection with the error, keeping the network, and the same failure repeats to the same state |
| DonateDialog.PaymentSession.constructor | src/components/DonateDialog.tsx:52-61 | the select step, nothing selected, no fee, not paying |
| DonateDialog.PaymentSession.Open | src/components/DonateDialog.tsx:105-115 | opening resets every field of the session |
| DonateDialog.PaymentSession.AutoSelect | src/components/DonateDialog.tsx:126-145 | one selectable network is chosen and stored as preference; otherwise the stored preference is chosen when selectable and not manually overridden; nothing when closed |
| DonateDialog.PaymentSession.LoadFee | src/components/DonateDialog.tsx:197-221 | the session becomes `AfterLoadFee` of the outcome |
| DonateDialog.PaymentSession.ContinueTo | src/components/DonateDialog.tsx:147-157 | the session becomes `AfterContinue` |
| DonateDialog.PaymentSession.AutoContinue | src/components/DonateDialog.tsx:147-157 | continues only when connected, selected, in the select step and with a client; else unchanged |
| DonateDialog.PaymentSession.SwitchEffect | src/components/DonateDialog.tsx:160-174 | after a switch the fee is loaded; a failed switch shows "Failed to switch to `<name>`" and returns to selection |
| DonateDialog.PaymentSession.HandleNetworkSelect | src/components/DonateDialog.tsx:176-195 | stores the choice as preference, clears the error, opens the wallet iff disconnected, else continues |
| DonateDialog.PaymentSession.StartPay | src/components/DonateDialog.tsx:223-230 | starts iff client, network, fee and a truthy `payTo` exist; then paying, no error, the processing step |
| DonateDialog.PaymentSession.FinishPay | src/components/DonateDialog.tsx:259-275 | success stores the hash and returns the success notification with the hash, network and fee; failure returns to confirmation with the message and the failure notification; paying ends either way |
| DonateDialog.PaymentSession.HandlePay | src/components/DonateDialog.tsx:223-276 | a guarded payment ends not paying, in success with the hash or in confirmation with the error, and returns the matching `onSuccess` or `onError` notification; an unguarded one changes nothing and notifies nothing |
| DonateDialog.PaymentSession.ChangeNetwork | src/components/DonateDialog.tsx:581-588 | unless paying, clears network, fee and error, marks the choice manual, back to selection |
| DonateDialog.PaymentSession.HandleClose | src/components/DonateDialog.tsx:278-282 | the dialog closes iff no payment is in progress |
| DonateDialog.FailedSwitchRetries | src/components/DonateDialog.tsx:147-174 | after a failed switch the network stays selected and continuing asks to switch again |
| UseX402Payment.ThrownMessage | src/hooks/useX402Payment.ts:139 | an `Error`'s message, "Donation failed" for any other thrown value |
| UseX402Payment.GuardError | src/hooks/useX402Payment.ts:36-59 | the first failing guard's message in order (wallet, client, recipients); none iff every guard passes |
| UseX402Payment.PaymentHook.constructor | src/hooks/useX402Payment.ts:22-24 | idle, no error, no result |
| UseX402Payment.PaymentHook.Execute | src/hooks/useX402Payment.ts:29-146 | a failed guard reports its error alone; otherwise statuses run from preparing, reaching success with the transaction, the network, the payer and the settlement to the primary recipient, or an error carrying the thrown or "Unsupported network" message |
| UseX402Payment.PaymentHook.Reset | src/hooks/useX402Payment.ts:148-152 | back to idle, no error, no result |
| UseX402Payment.PaysFirstRecipient | src/hooks/useX402Payment.ts:53-84 | a payment that passed validation settles to the first recipient |
| UseX402Payment.GuardPassedHasRecipient | src/hooks/useX402Payment.ts:53-59 | past the guards the recipients are non-empty and total at most 10000 |
| StepWizard.ClickIndex | src/pages/LinkBuilder/GitHubVerifiedBuilder.tsx:192-200 | an earlier or current step is always reached, a later one iff the current step is valid; otherwise the step stays |
| StepWizard.IndicatorClickIndex | src/pages/LinkBuilder/components/StepIndicator.tsx:11-30 | a step that is not valid cannot be clicked; a valid one moves as `ClickIndex` |
| StepWizard.NextIndex | src/pages/LinkBuilder/GitHubVerifiedBuilder.tsx:202-208 | the next step, or the last step kept |
| StepWizard.ProceedAdvancesOne | src/pages/LinkBuilder/GitHubVerifiedBuilder.tsx:202-208 | when Next is enabled it moves exactly one step |
| StepWizard.InvalidStepOnlyBack | src/pages/LinkBuilder/GitHubVerifiedBuilder.tsx:197 | from an invalid step the indicator only moves backwards |
| StepWizard.ValidStepJumpsAhead | src/pages/LinkBuilder/GitHubVerifiedBuilder.tsx:197 | from a valid step any valid later step can be reached at once |
| GitHubWizard.StepIndex | src/pages/LinkBuilder/GitHubVerifiedBuilder.tsx:28-57 | `findIndex` finds each step at its own place in the list |
| GitHubWizard.DeployValidIff | src/pages/LinkBuilder/GitHubVerifiedBuilder.tsx:135-139 | the deploy step is valid iff the three earlier ones are |
| GitHubWizard.CompletionImpliesValidity | src/pages/LinkBuilder/GitHubVerifiedBuilder.tsx:111-143 | a completed repository step is valid and the deploy step is never completed |
| GitHubWizard.StarterConfig | src/pages/LinkBuilder/GitHubVerifiedBuilder.tsx:162-175 | none without repository or wallet; else the object with `name`, `description`, `payTo` and `defaultAmount`, `$5` by default |
| GitHubWizard.GenerateConfigJson | src/pages/LinkBuilder/GitHubVerifiedBuilder.tsx:162-175 | empty iff repository or wallet is missing |
| GitHubWizard.StarterConfigParses | src/pages/LinkBuilder/GitHubVerifiedBuilder.tsx:165-174 | the JSON text parses back to the starter object, defaulting the amount to `$5` |
| GitHubWizard.TargetBranch | src/pages/LinkBuilder/GitHubVerifiedBuilder.tsx:180 | the chosen branch, else the detected one, else `main` |
| GitHubWizard.GitHubConfigUrl | src/pages/LinkBuilder/GitHubVerifiedBuilder.tsx:177-184 | empty without user, repository or wallet; else the new-file page on the target branch with the encoded JSON |
| GitHubWizard.ConfigUrlCarriesFile | src/pages/LinkBuilder/GitHubVerifiedBuilder.tsx:181-183 | the new-file link's `value` decodes to the configuration JSON |
| GitHubWizard.DonationUrl | src/pages/LinkBuilder/GitHubVerifiedBuilder.tsx:186-190 | empty without user or repository; else the GitHub page, with the amount encoded when set |
| GitHubWizard.Wizard.constructor | src/pages/LinkBuilder/GitHubVerifiedBuilder.tsx:60-66 | the first step, the initial state, branch `main` detected |
| GitHubWizard.Wizard.Edit | src/pages/LinkBuilder/GitHubVerifiedBuilder.tsx:224-313 | a form edit replaces the state and keeps the step |
| GitHubWizard.Wizard.HandleStepClick | src/pages/LinkBuilder/GitHubVerifiedBuilder.tsx:192-200 | the step moves as the indicator allows, nothing else changes |
| GitHubWizard.Wizard.PressNext | src/pages/LinkBuilder/GitHubVerifiedBuilder.tsx:202-208 | one step forward iff Next is enabled, else unchanged |
| GitHubWizard.Wizard.DetectBranch | src/pages/LinkBuilder/GitHubVerifiedBuilder.tsx:70-105 | `main` without user or repository; a found repository's default branch (or `main`), filling an unset branch; `main` on 403, 404 or a failed request; other statuses keep the detected branch |
| GitHubWizard.NextStopsAtInvalidWallet | src/pages/LinkBuilder/GitHubVerifiedBuilder.tsx:129-131 | with a repository but no valid wallet, Next leaves the first step and stops at the second |
| QuickLinkWizard.StepIndex | src/pages/LinkBuilder/QuickLinkBuilder.tsx:19-42 | `findIndex` finds each step at its own place in the list |
| QuickLinkWizard.DonationUrl | src/pages/LinkBuilder/QuickLinkBuilder.tsx:52-67 | empty iff no parameter applies, else the `/give?` page with them |
| QuickLinkWizard.DonationUrlCases | src/pages/LinkBuilder/QuickLinkBuilder.tsx:52-67 | the four combinations of source parameter and amount, `&` joining them only when both exist; `to=` for a wallet, `ens=` for a name |
| QuickLinkWizard.GenerateStepIff | src/pages/LinkBuilder/QuickLinkBuilder.tsx:70-96 | the generate step is valid iff the source is, and then it is also completed |
| QuickLinkWizard.ChooseSource | src/pages/LinkBuilder/QuickLinkBuilder.tsx:150-159 | picking a source type clears the other source's value and keeps the rest |
| QuickLinkWizard.SwitchedSourceParam | src/pages/LinkBuilder/QuickLinkBuilder.tsx:56-60 | after switching, the link never carries the other source's parameter |
| QuickLinkWizard.Wizard.constructor | src/pages/LinkBuilder/QuickLinkBuilder.tsx:44-49 | the first step, the initial state |
| QuickLinkWizard.Wizard.SelectSource | src/pages/LinkBuilder/QuickLinkBuilder.tsx:150-159 | the state becomes `ChooseSource`, the step kept |
| QuickLinkWizard.Wizard.Edit | src/pages/LinkBuilder/QuickLinkBuilder.tsx:175-223 | a form edit replaces the state and keeps the step |
| QuickLinkWizard.Wizard.HandleStepClick | src/pages/LinkBuilder/QuickLinkBuilder.tsx:116-124 | the step moves as the indicator allows, nothing else changes |
| QuickLinkWizard.Wizard.PressNext | src/pages/LinkBuilder/QuickLinkBuilder.tsx:126-132 | one step forward iff Next is enabled, else unchanged |
| JsString.Take | src/components/RecipientCard.tsx:37 | `slice(0, n)`: a prefix of length `n`, or the whole string when shorter |
| JsString.TakeLast | src/components/RecipientCard.tsx:37 | `slice(-n)`: a suffix of length `n`, or the whole string when shorter |
| JsString.IndexOf | src/components/RecipientCard.tsx:45 | the position of the first occurrence of the character |
| JsString.ParseUnsignedOfNatToString | src/components/BuilderPanelGitHub.tsx:93 | reading back the printed digits of a natural number gives the number |
| Base64.RemoveWhitespace | src/lib/quicklinkConfig.ts:27 | `atob` ignores ASCII whitespace: none is left, and text without any is kept |
| Percent.Utf8Encode | src/lib/quicklinkConfig.ts:10 | a character's UTF-8 encoding is one to four bytes |
| Percent.CharDecodes | src/lib/quicklinkConfig.ts:10-27 | the escape of one character decodes to that character, whatever follows |
| Json.SkipWhitespace | src/lib/quicklinkConfig.ts:28 | a suffix of the text that does not start with JSON whitespace |
| Json.EscapeStringRead | src/lib/quicklinkConfig.ts:9-28 | a string escaped by `JSON.stringify` reads back to itself up to the closing quote |
| Json.NumberRead | src/lib/quicklinkConfig.ts:9-28 | a printed integer reads back to itself |
| Json.ValueRoundTrip | src/lib/quicklinkConfig.ts:9-28 | any serialized value followed by a delimiter reads back to the value, leaving the delimiter |
| ConfigJson.LookupEntries | src/lib/quicklinkConfig.ts:28 | each field of an object with distinct keys is found under its key |
| ConfigJson.RecipientRoundTrip | src/lib/quicklinkConfig.ts:9-28 | a recipient reads back from its JSON object |
| ConfigJson.CreatorRoundTrip | src/lib/quicklinkConfig.ts:9-28 | a creator reads back from its JSON object |
| ConfigJson.LinkRoundTrip | src/lib/quicklinkConfig.ts:9-28 | a link reads back from its JSON object |
| ConfigJson.RecipientsRoundTrip | src/lib/quicklinkConfig.ts:9-28 | a recipient list reads back from its JSON array |
| ConfigJson.LinksRoundTrip | src/lib/quicklinkConfig.ts:9-28 | a link list reads back from its JSON array |
| ConfigJson.Assemble | src/lib/quicklinkConfig.ts:28 | a configuration iff every field was read without a type error, holding exactly the values read |

## Left out

- Rendering: JSX, styles, hover handlers, icons and the purely presentational components (step indicator layout, network selector, output tabs, footer, welcome and docs pages) are not modelled; only the logic that decides what they show is.
- Browser and network I/O: GitHub requests, the settlement client, the wallet, `switchChain`, clipboard writes, `window.open`, Blob downloads, QR codes and console logging. Each request's outcome is an input of the method that uses it.
- Time: the `Date.now()` cache-buster of a bypassed GitHub read is the parameter `now`; the 500 ms debounce of the branch lookup and the copy-feedback timers are not modelled.
- React scheduling: effects run when their method is called; interleavings of asynchronous handlers, and results arriving after the route changed, are not modelled.
- Routing: route parameters, `useBuilderMode` and URL-search parsing are inputs; the router and the app wiring are not part of this model.
- `BuilderRedirect.RouteSegments`: of React Router's matching rules, only the ignored trailing slash is modelled. The case-insensitive comparison of the static `github.com` segment is not modelled, and neither is the percent-decoding of the `:username` and `:repo` parameters; segments are compared and bound exactly as written.
- `UseRecipient.RecipientResolver.ResolveConfig`: `fetchUser` is a function, so the second `fetchGitHubUserInfo` request of the no-configuration path (src/hooks/useRecipient.ts:61) returns the same outcome as the first one. A response that changes between the two requests is not modelled.
- Strings are sequences of Unicode scalar values. Lengths and slices therefore count characters, not UTF-16 code units; only the logo hash converts to UTF-16 units explicitly. For the same reason `Json.ParseString` rejects a lone-surrogate escape such as `"\uD800"`, which `JSON.parse` accepts as a string holding that one code unit.
- `toLowerCase` lowers ASCII letters only; other letters are kept.
- Numbers: `Number` and `parseFloat` give exact decimal values, not IEEE doubles, so rounding of long decimals is not modelled.
- Floating-point helpers are not modelled: `percentageToBips`, `bipsToPercentage`, `dollarToUsdcAtomic`, `formatCurrency`, the `toFixed(2)` blur formatting of the amount input and the `toFixed(1)` percentage displays.
- `parseDefaultAssetAmount` and `formatDefaultAssetAmount` are uninterpreted functions passed in; an amount they reject (which would throw) is not modelled.
- `isAddress` is an uninterpreted predicate, and the SDK's network table is a parameter constrained only by the shape the site relies on.
- JSON numbers are integers; a fraction or an exponent in a configuration is rejected by the parser. The serializer writes compact JSON rather than `JSON.stringify(config, null, 2)`, which differs only in whitespace.
- `JSON.parse` is assumed to yield a configuration-shaped value: a parsed value with a field of the wrong type reads as no configuration.
- `X402.GetTransferHookAddress`: a network key naming an inherited property, such as `toString`, would make the source throw a `TypeError` rather than its own error; keys are ordinary map keys here. The model also assumes that `require("@x402x/core")` inside this ES module resolves. In a browser bundle without a CommonJS transform for the site's own code, `require` is undefined. There every call would throw `ReferenceError: require is not defined`, and `UseX402Payment.PaymentHook.Execute` would always end in the error status once the client is created. The `hooks` table parameter cannot express that outcome.
- `BuilderForm.GeneratedRecipients`: a row whose bips do not parse gets 0 bips where the source's `parseInt` gives `NaN`, because bips are integers here; such a form is never valid in either.
- `BuilderForm.Form.UpdateRecipient` and `BuilderForm.Form.UpdateLink` require an index in range; the source would add a malformed entry for any other index, and its controls only pass indexes of existing rows.
- `Badge.BadgePage.Generate`: the source's catch of a thrown error is unreachable here, because every failure of the configuration read is already a `null` result; the name is inserted into the SVG without XML escaping, exactly as the source does.
- `UseX402Payment.PaymentHook.Execute`: the optional pre-computed facilitator fee is passed straight to the client and is not modelled; the success and error callbacks are returned as a notification instead of being called.
- `DonateDialog.PaymentSession.HandlePay`: the parent's `onSuccess` and `onError` callbacks are returned as a notification instead of being called.
- The payment dialog's fee value is an integer number of atomic units; its BigInt arithmetic is exact integer addition.
- The payment dialog's fee load and payment receive the settlement client's outcome as if `createX402Client` were awaited. The dialog as written does not await it, so every fee load fails; `DonateDialog.FeeNeverLoadsAsWritten` states that behaviour (see Findings).
- Filter: its own contract states membership and the all-kept and none-kept cases; multiplicity is stated by `JsArray.FilterCounts` and order by `JsArray.FilterIsSubsequence`, which callers invoke where they need them.

## Findings

| source | as written | input that shows it | evidently intended | confidence | as-written member | corrected member |
|---|---|---|---|---|---|---|
| src/config/networks.ts:117 | `stored in NETWORKS` also holds for property names `NETWORKS` inherits from `Object.prototype`, so such a name is returned typed as a `Network` | the storage key `gives-preferred-network` holding `toString` | the stored value is returned only when it is one of the four catalog keys (its only caller, the payment dialog, is unaffected, since it also checks that the value is selectable) | medium, not executed | NetworkCatalog.InheritedNameAccepted | NetworkCatalog.GetPreferredNetwork |
| src/components/DonateDialog.tsx:206 | `createX402Client` is async but its result is used without `await`, so `client` is a promise and `client.calculateFee(...)` throws; the same holds for `client.execute` at line 233 | any fee load with a connected wallet and a selected network | `const client = await createX402Client(...)`, as src/hooks/useX402Payment.ts:78 does; then the fee loads and the payment can start | high, not executed | DonateDialog.FeeNeverLoadsAsWritten | DonateDialog.AwaitedFeeEnablesPay |
| src/Router.tsx:21 | the builder route requires `:repo`, while the user-level page's builder link (src/pages/Give.tsx:337, also src/pages/Welcome.tsx:39) omits the repository, so it reaches the catch-all page | `/builder/github.com/alice` | `/builder/github.com/:username/:repo?`, which the redirect page already handles with an optional repository | high, not executed | BuilderRedirect.UserBuilderLinkUnrouted | BuilderRedirect.BuilderLinkRedirects |
