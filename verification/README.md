# jsrepo registry layer, modelled in Dafny

This project models two pieces of jsrepo's registry layer as pure Dafny functions and proves properties about them.

**Provider selection and the fetch control flow** (`packages/cli/src/utils/registry-providers/index.ts`):

- `selectProvider` tries the five providers in a fixed order: github, gitlab, bitbucket, azure, http. It returns the first whose `matches` accepts the URL.
- `fetchRaw` resolves the raw URL and attaches an auth header when it can. It then turns every outcome of the transport into a `Result`.
- `fetchManifest` fetches the manifest file and hands the text to `parseManifest`.

Providers are records of functions (`Registry.Provider`). `authHeader` is optional. The transport is a function from a URL and headers to an outcome: a response with `ok`, `status`, `statusText` and a body, or a thrown error (`Transport.Outcome`).

**The manifest schema** (`packages/cli/src/types.ts`) is modelled as a validator from a parsed JSON value (`Json.Json`) to typed values: `Block`, `Category`, `Meta`, `PeerDependency`, `ConfigFile`, `ManifestConfigFile` and `Manifest`. For each shape there are four pieces:

- a declarative `...Shape` predicate saying which JSON is accepted;
- a `...Read` predicate saying that a typed value holds exactly the JSON's values, with defaults filled in;
- the validator, proved to accept exactly the shape and to return what it read;
- an encoder, with the round trip through the validator proved.

Objects are non-strict: entries under undeclared keys are dropped, not rejected. This is a modelling choice that matches valibot's `v.object`. The lemmas `...IgnoresUnknownKeys` prove it for blocks, categories, meta, the object form of a peer dependency, config files, manifest config files and the manifest.

Files:

- `results.dfy`: `Option` and `Result`.
- `json.dfy`: JSON values and the validator building blocks.
- `schema.dfy`: the schema.
- `schema_laws.dfy`: round trips, unknown keys and defaults.
- `transport.dfy`: outcomes and the status line.
- `registry.dfy`: providers, `FetchRaw` and `FetchManifest`.
- `registry_laws.dfy`: selection order, what a fetch depends on, and scenarios.

Two behaviours of the code worth noting:

- The options bag's `tag` is never read. Only the positional `tag` reaches `resolveRaw` (index.ts:31-34).
- The schema does not enforce unique block or category names, so the model does not state them.

## Model

| member | source | states |
|---|---|---|
| Registry.Providers.InOrder | packages/cli/src/utils/registry-providers/index.ts:12 | the five providers in the order they are tried: github, gitlab, bitbucket, azure, http at positions 0 to 4 |
| Registry.FirstMatch | packages/cli/src/utils/registry-providers/index.ts:15 | returns the least index whose element satisfies the predicate, or None exactly when no element does |
| Registry.SelectIndex | packages/cli/src/utils/registry-providers/index.ts:12-18 | picks the least position in github, gitlab, bitbucket, azure, http whose `matches(url)` holds; None exactly when no provider matches |
| Registry.SelectProvider | packages/cli/src/utils/registry-providers/index.ts:14-18 | the provider returned accepts the URL, and every provider before it rejects it; None exactly when none accepts |
| RegistryLaws.EarlierProviderWins | packages/cli/src/utils/registry-providers/index.ts:12-15 | when two providers both match, the later one is never selected |
| RegistryLaws.HttpOnlyAsFallback | packages/cli/src/utils/registry-providers/index.ts:12-15 | http is selected exactly when it matches and none of github, gitlab, bitbucket, azure does |
| RegistryLaws.SoleMatchSelected | packages/cli/src/utils/registry-providers/index.ts:14-18 | a URL that exactly one provider accepts selects that provider |
| Registry.RequestHeaders | packages/cli/src/utils/registry-providers/index.ts:39-45 | the headers are exactly `[authHeader(token)]` when a token is given and the provider has `authHeader`, and empty otherwise |
| Registry.RawUrl | packages/cli/src/utils/registry-providers/index.ts:34 | no contract; the URL requested is the provider's `resolveRaw` of the resource at the positional tag, used by `Answer` |
| Registry.ChosenFetch | packages/cli/src/utils/registry-providers/index.ts:31 | the `fetch` override when one is given, otherwise the ambient fetch |
| Registry.Answer | packages/cli/src/utils/registry-providers/index.ts:47 | no contract; the one call `f(url, { headers })` with the chosen fetch, the raw URL and the request headers, which `FetchRaw`'s contract is stated against |
| Registry.FetchRaw | packages/cli/src/utils/registry-providers/index.ts:28-65 | Ok exactly when the response is ok and its text was read, with that text unchanged; a non-ok response gives Err(formatFetchError(state, path, "status statusText")); a thrown fetch gives Err(formatFetchError(state, path, err)); an ok response whose text cannot be read gives Err(formatFetchError(state, path, err)) of the read error; every Err is a formatFetchError message |
| Registry.ManifestFile | packages/cli/src/utils/registry-providers/index.ts:72 | no contract; the resource `fetchManifest` requests, "jsrepo-manifest.json" |
| RegistryLaws.FetchRawMakesOneRequest | packages/cli/src/utils/registry-providers/index.ts:34-47 | the result depends on the transport only through its answer to the raw URL at the positional tag with the auth headers |
| RegistryLaws.FetchRawDefaultsToAmbient | packages/cli/src/utils/registry-providers/index.ts:31 | without a `fetch` override the ambient fetch is used |
| RegistryLaws.FetchRawIgnoresVerboseAndOptionsTag | packages/cli/src/utils/registry-providers/index.ts:31-49 | the `verbose` callback and the options' `tag` never change the result |
| RegistryLaws.TokenIgnoredWithoutAuthHeader | packages/cli/src/utils/registry-providers/index.ts:41 | a token given to a provider without `authHeader` is ignored and is not an error |
| RegistryLaws.FailureCauseCarriesStatus | packages/cli/src/utils/registry-providers/index.ts:51-58 | on a non-ok response the cause given to formatFetchError can be read back as the status and status text |
| RegistryLaws.ServerError | packages/cli/src/utils/registry-providers/index.ts:51-58 | a 500 "Internal Server Error" response yields formatFetchError of "500 Internal Server Error" |
| Transport.NatToString | packages/cli/src/utils/registry-providers/index.ts:56 | the status is rendered as a non-empty string of decimal digits with no leading zero (unless it is "0"); with `DecimalRoundTrip`, which shows it denotes the status, this is the one canonical decimal string a template literal produces |
| Transport.StatusLine | packages/cli/src/utils/registry-providers/index.ts:56 | no contract; `${status} ${statusText}`, whose inverse `ParseStatusLine` is proved by `StatusLineRoundTrip` |
| Transport.StatusLineRoundTrip | packages/cli/src/utils/registry-providers/index.ts:56 | parsing `${status} ${statusText}` gives back the status and status text |
| Transport.StatusLineInjective | packages/cli/src/utils/registry-providers/index.ts:56 | different statuses or status texts give different status lines |
| Transport.DecimalRoundTrip | packages/cli/src/utils/registry-providers/index.ts:56 | the decimal rendering of the status denotes the status |
| Registry.FetchManifest | packages/cli/src/utils/registry-providers/index.ts:67-77 | fetches the manifest file with the same options and tag; an Err from the fetch is returned with the same message; an Ok text goes to parseManifest |
| RegistryLaws.ManifestNotFound | packages/cli/src/utils/registry-providers/index.ts:72-74 | a 404 on the manifest gives the provider's formatted "404 Not Found" message, unchanged |
| RegistryLaws.ManifestFetchedAndValidated | packages/cli/src/utils/registry-providers/index.ts:72-76 | a 200 with `{"categories":[{"name":"utils","blocks":[]}]}` gives a manifest with that one category and absent meta, peer dependencies and config files |
| RegistryLaws.ManifestWithoutCategoriesRejected | packages/cli/src/utils/registry-providers/index.ts:72-76 | a 200 whose document has no `categories` fails with a validation message, not a fetch message |
| Registry.ParseManifest | packages/cli/src/utils/registry-providers/index.ts:76 | succeeds exactly when the text decodes to JSON of manifest shape, and then holds that JSON's values; a decoding error is passed on |
| Json.AsString | packages/cli/src/types.ts:4 | `v.string()`: accepts exactly a JSON string, and the input is the encoding of the result |
| Json.AsBool | packages/cli/src/types.ts:9 | `v.boolean()`: accepts exactly a JSON boolean, and the input is the encoding of the result |
| Json.AsObject | packages/cli/src/types.ts:3 | the object test of `v.object`: accepts exactly a JSON object, and the input is that object |
| Json.Items | packages/cli/src/types.ts:6 | a sequence is accepted exactly when every item is, and the result has one value per item, in order |
| Json.ArrayOf | packages/cli/src/types.ts:20 | accepts exactly arrays whose items all pass the item schema, keeping order and length |
| Json.RecordOf | packages/cli/src/types.ts:37-46 | accepts exactly objects whose values all pass the value schema, keeping the keys |
| Json.StringArray | packages/cli/src/types.ts:14 | accepts exactly arrays of strings and returns those strings in order |
| Json.StringRecord | packages/cli/src/types.ts:15 | accepts exactly string-to-string objects and returns the same mapping |
| Json.Required | packages/cli/src/types.ts:4-9 | a declared entry without `v.optional` must be present and pass its schema; the result is that schema's value |
| Json.Optional | packages/cli/src/types.ts:24 | an absent entry gives None, and a present one must pass its schema and gives Some of its value |
| Json.WithDefault | packages/cli/src/types.ts:10 | an absent entry gives the default, and a present one must pass its schema |
| Schema.ValidateBlock | packages/cli/src/types.ts:3-16 | accepts exactly objects with string name, category and directory, string-array dependency and file lists, boolean tests and subdirectory, an optional boolean list and a string-to-string `_imports_`; the block holds those values, with list true when it is omitted |
| Schema.Blocks | packages/cli/src/types.ts:20 | `v.array(blockSchema)`: accepts exactly an array of block-shaped items, reading one block per item in order |
| Schema.ValidateCategory | packages/cli/src/types.ts:18-21 | accepts exactly a string name with an array of valid blocks; the blocks are read in order |
| Schema.ValidateMeta | packages/cli/src/types.ts:23-35 | every field is optional, and a present field must have its declared type; absent stays absent and present values are kept |
| Schema.ValidatePeerDependency | packages/cli/src/types.ts:39-45 | accepts exactly a string or an object with string version and message; a string gives Version, an object gives Detailed |
| Schema.ValidatePeerDependencies | packages/cli/src/types.ts:37-46 | accepts exactly objects whose every value is a valid peer dependency, keeping the keys |
| Schema.ValidateConfigFile | packages/cli/src/types.ts:50-55 | requires string name and path; expectedPath stays absent when omitted; optional is false when omitted |
| Schema.ValidateManifestConfigFile | packages/cli/src/types.ts:59-63 | the config-file entries plus optional string-array dependencies and devDependencies, read as given |
| Schema.ValidateManifest | packages/cli/src/types.ts:65-70 | requires an array of valid categories; meta, peerDependencies and configFiles may be absent and then stay absent; categories and config files keep their order |
| Schema.ConfigFiles | packages/cli/src/types.ts:68 | `v.array(manifestConfigFileSchema)`: accepts exactly an array of manifest config files, reading one per item in order |
| Schema.Categories | packages/cli/src/types.ts:69 | `v.array(categorySchema)`: accepts exactly an array of category-shaped items, reading one category per item in order |
| SchemaLaws.BlockRoundTrip | packages/cli/src/types.ts:3-16 | validating an encoded block gives the block back, including list false, subdirectory true and a non-empty `_imports_` |
| SchemaLaws.CategoryRoundTrip | packages/cli/src/types.ts:18-21 | validating an encoded category gives it back, with its blocks in order |
| SchemaLaws.MetaRoundTrip | packages/cli/src/types.ts:23-35 | validating an encoded meta gives it back, absent fields included |
| SchemaLaws.ConfigFileRoundTrip | packages/cli/src/types.ts:50-55 | validating an encoded config file gives it back, absent expectedPath included |
| SchemaLaws.PeerDependencyRoundTrip | packages/cli/src/types.ts:39-45 | both forms of a peer dependency survive encoding and validation |
| SchemaLaws.PeerDependenciesRoundTrip | packages/cli/src/types.ts:37-46 | a peer-dependency mapping survives encoding and validation |
| SchemaLaws.ManifestConfigFileRoundTrip | packages/cli/src/types.ts:59-63 | a manifest config file survives encoding and validation |
| SchemaLaws.ManifestRoundTrip | packages/cli/src/types.ts:65-70 | validating an encoded manifest gives the manifest back |
| SchemaLaws.BlockReadUnique | packages/cli/src/types.ts:3-16 | a JSON object determines the block read from it, and holding one implies the block shape |
| SchemaLaws.ManifestReadUnique | packages/cli/src/types.ts:65-70 | a JSON document determines the manifest read from it, and holding one implies the manifest shape |
| SchemaLaws.BlockIgnoresUnknownKeys | packages/cli/src/types.ts:3 | entries under keys a block does not declare change nothing |
| SchemaLaws.CategoryIgnoresUnknownKeys | packages/cli/src/types.ts:18 | entries under keys a category does not declare change nothing |
| SchemaLaws.PeerDependencyIgnoresUnknownKeys | packages/cli/src/types.ts:41-44 | entries other than version and message in the object form of a peer dependency change nothing |
| SchemaLaws.MetaIgnoresUnknownKeys | packages/cli/src/types.ts:23 | entries under keys meta does not declare change nothing |
| SchemaLaws.ConfigFileIgnoresUnknownKeys | packages/cli/src/types.ts:50-63 | undeclared entries change nothing; in particular a plain config file does not carry dependencies or devDependencies |
| SchemaLaws.ManifestIgnoresUnknownKeys | packages/cli/src/types.ts:65 | unknown top-level manifest keys change nothing |
| SchemaLaws.BlockListDefault | packages/cli/src/types.ts:10 | removing `list` from an accepted block keeps it accepted and changes only list, to true |
| SchemaLaws.ConfigFileOptionalDefault | packages/cli/src/types.ts:54 | removing `optional` from an accepted config file keeps it accepted and changes only optional, to false |
| SchemaLaws.ManifestConfigFileExtendsConfigFile | packages/cli/src/types.ts:59-63 | a manifest config file is accepted exactly when it is a valid config file whose dependency lists, if present, are string arrays; its base part is the plain config file |
| SchemaLaws.SmallestManifest | packages/cli/src/types.ts:65-70 | `{"categories":[{"name":"utils","blocks":[]}]}` validates to one empty category with everything optional absent |
| SchemaLaws.ManifestNeedsCategories | packages/cli/src/types.ts:69 | a manifest without `categories` is rejected |

## Left out

- The concrete github, gitlab, bitbucket, azure and http providers are not part of this model. `matches`, `resolveRaw`, `authHeader` and `formatFetchError` are arbitrary functions in a provider record.
- A provider state is split into the provider and a provider-specific part. The provider's functions receive that part rather than the whole state, because Dafny cannot have a record of functions that take the record itself. The provider of a state is fixed, so nothing is lost.
- `formatFetchError` is taken to be total. A throw from it at index.ts:53 is inside the `try` and would be formatted again at line 63; a throw at line 63 would propagate out of `fetchRaw`.
- `resolveRaw` may reject. That call is outside the `try` at index.ts:34, so a rejection would propagate. The model takes `resolveRaw` to be total and does not claim `fetchRaw` handles that case.
- Promises, `async` and the real `fetch` and `Headers` are left out. The transport is a parameter, and headers are the list of appended pairs.
- `Headers.append` or `authHeader` throwing is left out. Both are inside the `try`, so a throw would become an Err; the model takes both to be total.
- The `verbose` callback's output is left out. The model also assumes it never throws. A throw at index.ts:49 is inside the `try` and would become an Err; one at line 36 would propagate.
- Thrown values are `unknown` in the source. They are modelled as strings, and `formatFetchError` receives that string.
- `status` is a natural number. Floating-point statuses do not occur in a fetch response.
- `parseManifest` is in packages/cli/src/utils/manifest.ts, which is not part of this model. `FetchManifest` takes it as a parameter. `ParseManifest` assumes it is JSON decoding followed by the schema. JSON text decoding is itself a parameter, and the wording of `IssueMessage` is this model's own.
- `MANIFEST_FILE` comes from packages/cli/src/constants.ts, which is not part of this model. It is taken to be "jsrepo-manifest.json", and no property depends on its value.
- These valibot behaviours are left out: accepting arrays where an object is expected (`typeof [] === 'object'`), special handling of keys such as `__proto__`, the issue messages, and collecting every issue instead of the first. The model accepts only JSON objects as objects and reports one issue.
- JSON objects, and so the `_imports_` and `peerDependencies` records, are maps: the insertion order of their keys is not kept. No behaviour modelled here depends on that order.
- JSON numbers are carried as integers. No schema accepts a number, so their value never matters.
- Unique block names within a category and unique category names within a manifest are not enforced by the schema, and are not stated.

