# S3 viewer backend: bucket catalog, credential resolution and access gating

This project models, in Dafny, the core of the Backstage S3 viewer plugin:

- the backend's bucket catalog;
- the credential providers that decide which buckets it contains;
- the permission filters that decide who sees which bucket;
- the shaping of key listings and object metadata;
- the builder that wires these together, and the plugin's set-once extension slots;
- the frontend's path helpers.

Every module carries the properties it guarantees.

Modules, one per source file (plus four helper modules):

| module | file | models |
|---|---|---|
| `BucketFilters` | bucket_filters.dfy | the catalog record and the `allOf`/`anyOf`/`not`/leaf filter evaluator |
| `PermissionRules` | permission_rules.dfy | the owner and name permission rules and their filter translations |
| `Platforms` | platforms.dfy | platforms, allow rules, resolved credentials, reading a platform entry |
| `AllowList` | allow_list.dfy | listing one platform's buckets and applying the allow rule |
| `ListingProviders` | listing_providers.dfy | the static-key (`config`) and IAM-role credential providers |
| `RadosGwProvider` | radosgw_provider.dfy | the RADOS gateway admin-API credential provider |
| `CombinedProvider` | combined_provider.dfy | the locator factory and the combining provider |
| `Catalog` | catalog.dfy | `S3BucketsProvider`: the refresh and the catalog queries |
| `S3Api` | s3_api.dfy | the S3 client: credential lookup, key listing, object metadata |
| `S3Builder` | s3_builder.dfy | request evaluation, bucket gating, the grouped-route filter, the builder |
| `ExtensionPoint` | extension_point.dfy | the plugin's four set-once slots and their forwarding |
| `UrlDirs` | url_dirs.dfy | the frontend's location and annotation helpers |
| `Wrappers`, `Seqs`, `Ordering`, `Text` | wrappers.dfy, seqs.dfy, ordering.dfy, text.dfy | Option/Result, gathering concurrent results, the default string sort, split/join |

## How the environment is represented

- S3, admin API and statistics calls become inputs.
  - Listing a platform's buckets is a `Result<ListBucketsOutput, string>`.
  - The three RADOS gateway admin requests are an `AdminApi` record of replies: success, non-ok status, or no response.
  - A bucket's ACL, statistics and lifecycle answers form a `BucketProbe`.
  - `listObjects` and `headObject` are function parameters.
- Completion order is an input. Where the source starts work concurrently with `Promise.all` and each task pushes into a shared array, the model takes the completion order as a permutation `order` of the task indices. The result is `Gather(blocks, order)`: each task's contribution, appended in completion order. Every such method also proves that, as a multiset, its result is the same whatever the order: the union of all contributions.
- Regular expressions are an oracle. An allow pattern `p` is tested as the JavaScript regular expression `^p$`. The model does not interpret regular expressions: `Regex` says whether a pattern compiles and whether a name matches it. A pattern that does not compile throws, as it does in JavaScript.
- Missing configuration keys are `None`. Reading a missing required key fails with the configuration reader's message naming the key.
- The permission framework's condition transformer is a parameter `transform: C -> Filter`.
- Injected components are named by identity. The builder's components are represented by where they come from: injected (an identity) or built (what they were built from).

## Model

| member | source | states |
|---|---|---|
| BucketFilters.Eval | plugins/s3-viewer-backend/dist/permissions/ListBucketsFilter.cjs.js:7-16 | the recursive evaluator of a present filter: `allOf` as every, `anyOf` as some, `not` as negation, a leaf as membership of the named string property in the values (definition; its meaning is stated by the lemmas below) |
| BucketFilters.Matches | plugins/s3-viewer-backend/dist/permissions/ListBucketsFilter.cjs.js:3-17 | `matches`: an absent filter passes everything, a present one is evaluated (definition) |
| BucketFilters.AbsentFilterMatchesAll | plugins/s3-viewer-backend/dist/permissions/ListBucketsFilter.cjs.js:4-6 | an absent filter lets every bucket through |
| BucketFilters.AllOfMatchesIffEvery | plugins/s3-viewer-backend/dist/permissions/ListBucketsFilter.cjs.js:7-9 | `allOf` matches iff every sub-filter matches; `allOf []` matches everything |
| BucketFilters.AnyOfMatchesIffSome | plugins/s3-viewer-backend/dist/permissions/ListBucketsFilter.cjs.js:10-12 | `anyOf` matches iff some sub-filter matches; `anyOf []` matches nothing |
| BucketFilters.NotInverts | plugins/s3-viewer-backend/dist/permissions/ListBucketsFilter.cjs.js:13-15 | `not f` matches exactly when `f` does not; double negation is the identity |
| BucketFilters.LeafMatchesIffListed | plugins/s3-viewer-backend/dist/permissions/ListBucketsFilter.cjs.js:16 | a leaf matches iff the bucket's value of the property is one of the values; no values never match |
| BucketFilters.DeMorgan | plugins/s3-viewer-backend/dist/permissions/ListBucketsFilter.cjs.js:7-15 | a negated `allOf` is an `anyOf` of negations and a negated `anyOf` an `allOf` of negations |
| BucketFilters.EvalReadsOnlyLeaves | plugins/s3-viewer-backend/dist/permissions/ListBucketsFilter.cjs.js:3-17 | evaluation depends only on the record properties the filter's leaves name |
| BucketFilters.SameStringsAgree | plugins/s3-viewer-backend/dist/permissions/ListBucketsFilter.cjs.js:16 | records with equal name, owner, endpoint and display name agree on every leaf |
| BucketFilters.StatsNeverFilter | plugins/s3-viewer-backend/dist/permissions/ListBucketsFilter.cjs.js:16 | object count, size and lifecycle policy never change whether a record matches |
| PermissionRules.OwnerApply | plugins/s3-viewer-backend/dist/permissions/rules.cjs.js:15 | IS_BUCKET_OWNER `apply`: the bucket's owner is one of the owners (definition) |
| PermissionRules.OwnerToQuery | plugins/s3-viewer-backend/dist/permissions/rules.cjs.js:16-19 | IS_BUCKET_OWNER `toQuery`: the leaf `owner` over the owners (definition) |
| PermissionRules.NamedApply | plugins/s3-viewer-backend/dist/permissions/rules.cjs.js:28 | IS_BUCKET_NAMED `apply`: the bucket's name is one of the names (definition) |
| PermissionRules.NamedToQuery | plugins/s3-viewer-backend/dist/permissions/rules.cjs.js:29-32 | IS_BUCKET_NAMED `toQuery`: the leaf `bucket` over the names (definition) |
| PermissionRules.OwnerRuleAgrees | plugins/s3-viewer-backend/dist/permissions/rules.cjs.js:15-19 | the owner rule's query is the leaf `owner` over the owners, and it decides every bucket as `apply` does |
| PermissionRules.NamedRuleAgrees | plugins/s3-viewer-backend/dist/permissions/rules.cjs.js:28-32 | the name rule's query is the leaf `bucket` over the names, and it decides every bucket as `apply` does |
| PermissionRules.EmptyParametersRejectAll | plugins/s3-viewer-backend/dist/permissions/rules.cjs.js:15-28 | with no owners or no names both rules, and their queries, reject every bucket |
| Platforms.ReadPlatform | plugins/s3-viewer-backend/dist/credentials-provider/ConfigCredentialsProvider.cjs.js:12-23 | a platform entry reads iff its required keys are present; the display name is the name, or the endpoint when the name is absent or empty; keys are read only by the key-reading variants |
| AllowList.PatternsFor | plugins/s3-viewer-backend/dist/credentials-provider/utils.cjs.js:15 | the patterns of the first rule whose platform is the display name, none when no rule names it |
| AllowList.AnyPatternMatches | plugins/s3-viewer-backend/dist/credentials-provider/utils.cjs.js:19-21 | true only if some pattern matches, false only if none does, an error only if some pattern does not compile |
| AllowList.FilterAllowed | plugins/s3-viewer-backend/dist/credentials-provider/utils.cjs.js:16-21 | when it succeeds, the listed names the rule admits, in order; without patterns every name; only an uncompilable pattern fails it |
| AllowList.KeepMembership | plugins/s3-viewer-backend/dist/credentials-provider/utils.cjs.js:16-21 | a name is kept iff it was listed and no pattern exists or some pattern matches it |
| AllowList.KeepDistributes | plugins/s3-viewer-backend/dist/credentials-provider/utils.cjs.js:14-22 | filtering commutes with concatenation, so the result is an order-preserving subsequence |
| AllowList.NamesOf | plugins/s3-viewer-backend/dist/credentials-provider/utils.cjs.js:14 | absent and empty names are dropped; every other listed name is kept |
| AllowList.NamedBuckets | plugins/s3-viewer-backend/dist/credentials-provider/utils.cjs.js:14-22 | the present, non-empty names of a listing, none when `Buckets` is absent (definition; see `NamesOf`) |
| AllowList.FetchBucketsForPlatform | plugins/s3-viewer-backend/dist/credentials-provider/utils.cjs.js:5-24 | `fetchBucketsForPlatform`: a failed listing propagates, otherwise the named buckets filtered by the platform's rule (definition; see `FetchedNames`) |
| AllowList.FetchedNames | plugins/s3-viewer-backend/dist/credentials-provider/utils.cjs.js:5-24 | a platform yields exactly the listed non-empty names its allow rule admits, in listed order |
| AllowList.NoRuleKeepsAll | plugins/s3-viewer-backend/dist/credentials-provider/utils.cjs.js:15-18 | with no rule for the display name every named bucket is kept |
| AllowList.MissingBucketsYieldNothing | plugins/s3-viewer-backend/dist/credentials-provider/utils.cjs.js:14-22 | a listing without `Buckets` yields an empty list and no error |
| AllowList.RuleFollowsDisplayName | plugins/s3-viewer-backend/dist/credentials-provider/utils.cjs.js:15 | the rule is chosen by display name: platforms sharing it filter alike whatever their endpoints |
| ListingProviders.FromConfig | plugins/s3-viewer-backend/dist/credentials-provider/ConfigCredentialsProvider.cjs.js:11-25 | `platforms` is required; the provider holds one platform per entry, read with keys for `config` and without for `iam-role`, and the given allow list |
| ListingProviders.GetBucketCredentials | plugins/s3-viewer-backend/dist/credentials-provider/ConfigCredentialsProvider.cjs.js:26-51 | the result is every platform's entries appended in completion order; as a multiset, the union of all platforms' entries |
| ListingProviders.PlatformContribution | plugins/s3-viewer-backend/dist/credentials-provider/ConfigCredentialsProvider.cjs.js:31-47 | a listed platform emits one entry per allowed bucket, in order, with its endpoint, display name, region and (static variant) keys; a failing one emits nothing |
| ListingProviders.BlockMembership | plugins/s3-viewer-backend/dist/credentials-provider/ConfigCredentialsProvider.cjs.js:31-47 | an entry is in one platform's block iff that platform's listing succeeded with the entry's bucket allowed and the entry is the platform's entry for it |
| ListingProviders.ResultMembership | plugins/s3-viewer-backend/dist/credentials-provider/ConfigCredentialsProvider.cjs.js:27-50 | an entry is in the result iff some platform's listing succeeded with that bucket allowed and the entry is that platform's entry for it |
| ListingProviders.IamRoleEntriesHaveNoKeys | plugins/s3-viewer-backend/dist/credentials-provider/IAMRoleCredentialsProvider.cjs.js:31-36 | the IAM-role variant never emits keys |
| ListingProviders.StaticEntriesCarryConfiguredKeys | plugins/s3-viewer-backend/dist/credentials-provider/ConfigCredentialsProvider.cjs.js:12-41 | every entry of a configured static-key provider carries the keys configured for its platform |
| ListingProviders.FailingPlatformIsolated | plugins/s3-viewer-backend/dist/credentials-provider/IAMRoleCredentialsProvider.cjs.js:25-44 | a failing listing removes exactly that platform's entries; the other platforms' entries are unchanged |
| RadosGwProvider.FromConfig | plugins/s3-viewer-backend/dist/credentials-provider/RadosGwCredentialsProvider.cjs.js:17-31 | `platforms` is required; each entry is read with keys, the display name defaulting to the endpoint |
| RadosGwProvider.FetchBuckets | plugins/s3-viewer-backend/dist/credentials-provider/RadosGwCredentialsProvider.cjs.js:91-110 | `fetchBuckets`: the bucket list reply, failing with the bucket-listing message (definition; see `NonOkStatusReported`) |
| RadosGwProvider.GetBucketOwner | plugins/s3-viewer-backend/dist/credentials-provider/RadosGwCredentialsProvider.cjs.js:111-133 | `getBucketOwner`: the owner reply, failing with the bucket-listing message (definition; see `NonOkStatusReported`) |
| RadosGwProvider.FetchUserInfo | plugins/s3-viewer-backend/dist/credentials-provider/RadosGwCredentialsProvider.cjs.js:134-153 | `fetchUserInfo`: the user's keys, failing with the user-info message (definition; see `NonOkStatusReported`) |
| RadosGwProvider.AllowedAdminBuckets | plugins/s3-viewer-backend/dist/credentials-provider/RadosGwCredentialsProvider.cjs.js:43-53 | the gateway's bucket names filtered by the platform's allow rule, in listed order (definition) |
| RadosGwProvider.ResolveBucket | plugins/s3-viewer-backend/dist/credentials-provider/RadosGwCredentialsProvider.cjs.js:55-80 | one per-bucket chain: owner, owner's keys, then that user's key entry (definition; see `ChainOutcome`) |
| RadosGwProvider.Receive | plugins/s3-viewer-backend/dist/credentials-provider/RadosGwCredentialsProvider.cjs.js:103-109 | only a successful reply yields its body; a non-ok reply fails with the call's message followed by the status text |
| RadosGwProvider.NonOkStatusReported | plugins/s3-viewer-backend/dist/credentials-provider/RadosGwCredentialsProvider.cjs.js:104-151 | each of the three admin calls reports a non-ok reply with its own message and the status text |
| RadosGwProvider.FindOwnerKey | plugins/s3-viewer-backend/dist/credentials-provider/RadosGwCredentialsProvider.cjs.js:66 | the first key entry whose user is exactly the owner, or none iff no entry has that user |
| RadosGwProvider.ChainOutcome | plugins/s3-viewer-backend/dist/credentials-provider/RadosGwCredentialsProvider.cjs.js:55-80 | a bucket's chain succeeds iff both admin calls do; it yields nothing iff the owner has no key entry, otherwise the bucket on this platform with that entry's keys |
| RadosGwProvider.ResolveAllMeaning | plugins/s3-viewer-backend/dist/credentials-provider/RadosGwCredentialsProvider.cjs.js:54-81 | a platform's run records no failure iff every chain succeeds, and then pushes every resolvable entry; otherwise the reported error is that of the first failing chain and the entries are those of the chains before it |
| RadosGwProvider.FailureSticks | plugins/s3-viewer-backend/dist/credentials-provider/RadosGwCredentialsProvider.cjs.js:54-86 | once a chain has failed, later chains change nothing |
| RadosGwProvider.ChainStep | plugins/s3-viewer-backend/dist/credentials-provider/RadosGwCredentialsProvider.cjs.js:54-81 | one more chain extends the run by exactly one step |
| RadosGwProvider.RunChains | plugins/s3-viewer-backend/dist/credentials-provider/RadosGwCredentialsProvider.cjs.js:54-81 | the per-bucket loop pushes, after what was already there, exactly the entries of the platform's run |
| RadosGwProvider.GetBucketCredentials | plugins/s3-viewer-backend/dist/credentials-provider/RadosGwCredentialsProvider.cjs.js:32-90 | as a multiset, the union of every platform's pushed entries; as a sequence, each platform's entries kept together, platforms in the order they finish |
| RadosGwProvider.EmittedFrom | plugins/s3-viewer-backend/dist/credentials-provider/RadosGwCredentialsProvider.cjs.js:54-81 | every entry a platform pushes is the entry of one of its chains |
| RadosGwProvider.ResolvableMembership | plugins/s3-viewer-backend/dist/credentials-provider/RadosGwCredentialsProvider.cjs.js:55-80 | an entry is resolvable iff some chain succeeds with exactly that entry |
| RadosGwProvider.EntriesUseOwnerKeys | plugins/s3-viewer-backend/dist/credentials-provider/RadosGwCredentialsProvider.cjs.js:43-79 | every emitted entry names an allowed bucket, carries its platform's endpoint, display name and region, and the keys of a key entry whose user is exactly the bucket's owner |
| RadosGwProvider.CompletePlatform | plugins/s3-viewer-backend/dist/credentials-provider/RadosGwCredentialsProvider.cjs.js:54-81 | when every admin call succeeds a platform contributes the resolvable entries of all its allowed buckets |
| RadosGwProvider.FailingPlatformIsolated | plugins/s3-viewer-backend/dist/credentials-provider/RadosGwCredentialsProvider.cjs.js:82-86 | a platform whose bucket listing fails removes exactly its own entries; the others are unchanged |
| CombinedProvider.ReadAllowEntry | plugins/s3-viewer-backend/dist/credentials-provider/index.cjs.js:26-29 | an allow entry reads iff platform and buckets are present, into the rule with those values |
| CombinedProvider.AllowListOf | plugins/s3-viewer-backend/dist/credentials-provider/index.cjs.js:24-30 | one rule per `s3.allowedBuckets` entry, in order; none when the section is absent |
| CombinedProvider.CollectAllowedBuckets | plugins/s3-viewer-backend/dist/credentials-provider/index.cjs.js:24-30 | the pushing loop builds exactly the allow list |
| CombinedProvider.ReadLocator | plugins/s3-viewer-backend/dist/credentials-provider/index.cjs.js:31-54 | a missing type fails naming `type`; `config`, `radosgw-admin` and `iam-role` succeed exactly when the matching provider reads from the entry's platforms, and then give that very provider with the shared allow list, or otherwise its error; any other type fails with `Unsupported s3.bucketLocatorMethods: "<type>"` |
| CombinedProvider.CombinedFromConfig | plugins/s3-viewer-backend/dist/credentials-provider/index.cjs.js:23-57 | one provider per locator entry, in order, each the one `ReadLocator` reads from its entry with the shared allow list; it fails, with the first error, iff the allow list, the locator list or some locator fails |
| CombinedProvider.GetCombinedCredentialsProvider | plugins/s3-viewer-backend/dist/credentials-provider/index.cjs.js:23-57 | the method collecting the allow list with its loop builds exactly `CombinedFromConfig` of the configuration |
| CombinedProvider.SharedAllowList | plugins/s3-viewer-backend/dist/credentials-provider/index.cjs.js:35-50 | every provider receives the same allow list |
| CombinedProvider.Combine | plugins/s3-viewer-backend/dist/credentials-provider/index.cjs.js:12-20 | succeeds iff every provider does, with their results concatenated in provider order; otherwise the first failure |
| CombinedProvider.Query | plugins/s3-viewer-backend/dist/credentials-provider/index.cjs.js:13-15 | each locator answers with its own provider's result |
| CombinedProvider.CombineSuccesses | plugins/s3-viewer-backend/dist/credentials-provider/index.cjs.js:12-20 | when every provider succeeds, the combined result is their results concatenated in provider order |
| CombinedProvider.GetBucketCredentials | plugins/s3-viewer-backend/dist/credentials-provider/index.cjs.js:11-21 | the built-in providers never fail, so the combined call succeeds with their results concatenated in provider order |
| CombinedProvider.FirstFailureWins | plugins/s3-viewer-backend/dist/credentials-provider/index.cjs.js:16-20 | the first failing provider fails the combined call with its own error |
| Catalog.Inspect | plugins/s3-viewer-backend/dist/service/S3BucketsProvider.cjs.js:58-89 | the record one credential contributes (definition; its meaning is stated by `InspectPolicy`) |
| Catalog.InspectPolicy | plugins/s3-viewer-backend/dist/service/S3BucketsProvider.cjs.js:58-89 | a failed ACL drops the bucket; otherwise one record copying name, endpoint and display name, owner's display name or "", statistics or 0/0, lifecycle rules or none |
| Catalog.Matching | plugins/s3-viewer-backend/dist/service/S3BucketsProvider.cjs.js:103 | exactly the records that pass the filter |
| Catalog.OnEndpoint | plugins/s3-viewer-backend/dist/service/S3BucketsProvider.cjs.js:106 | exactly the records whose endpoint or display name is the key |
| Catalog.MatchingCounts | plugins/s3-viewer-backend/dist/service/S3BucketsProvider.cjs.js:103 | every passing record is kept exactly as often as it occurs, so duplicates survive; every other record is dropped |
| Catalog.OnEndpointCounts | plugins/s3-viewer-backend/dist/service/S3BucketsProvider.cjs.js:106 | every record on the endpoint or display name is kept exactly as often as it occurs; every other record is dropped |
| Catalog.BucketsProvider.constructor | plugins/s3-viewer-backend/dist/service/S3BucketsProvider.cjs.js:15-16 | a new catalog has no records and no credentials |
| Catalog.BucketsProvider.FetchBuckets | plugins/s3-viewer-backend/dist/service/S3BucketsProvider.cjs.js:44-101 | a failing credentials provider leaves the catalog unchanged; otherwise every credential is stored and the records are the inspectable buckets' in completion order, keeping the catalog valid |
| Catalog.BucketsProvider.InspectBucket | plugins/s3-viewer-backend/dist/service/S3BucketsProvider.cjs.js:58-89 | one bucket's record is built as the refresh policy says |
| Catalog.BucketsProvider.GetAllBuckets | plugins/s3-viewer-backend/dist/service/S3BucketsProvider.cjs.js:102-104 | sorted, and a permutation of the names of exactly the matching records, duplicates kept |
| Catalog.BucketsProvider.GetBucketsByEndpoint | plugins/s3-viewer-backend/dist/service/S3BucketsProvider.cjs.js:105-107 | sorted, and a permutation of the names of the matching records on that endpoint or display name |
| Catalog.BucketsProvider.GetGroupedBuckets | plugins/s3-viewer-backend/dist/service/S3BucketsProvider.cjs.js:108-123 | keys are exactly the matching records' display names; each group is sorted and duplicate-free and holds exactly the names of the matching records under that key |
| Catalog.BucketsProvider.GetBucketInfo | plugins/s3-viewer-backend/dist/service/S3BucketsProvider.cjs.js:124-128 | the first record with that name on that endpoint or display name; none iff there is none |
| Catalog.BucketsProvider.GetCredentialsForBucket | plugins/s3-viewer-backend/dist/service/S3BucketsProvider.cjs.js:129-133 | the first stored credential with that name on that endpoint or display name; none iff there is none |
| Catalog.GroupByEndpointName | plugins/s3-viewer-backend/dist/service/S3BucketsProvider.cjs.js:109-118 | the first pass's loop builds exactly the groups of `Grouped`, record by record |
| Catalog.GroupedKeys | plugins/s3-viewer-backend/dist/service/S3BucketsProvider.cjs.js:109-118 | a display name has a group iff some record carries it |
| Catalog.GroupedContents | plugins/s3-viewer-backend/dist/service/S3BucketsProvider.cjs.js:109-118 | a group holds exactly the names of the records under its display name |
| Catalog.GroupedDistinct | plugins/s3-viewer-backend/dist/service/S3BucketsProvider.cjs.js:112-114 | no group holds a name twice |
| Catalog.SortGroups | plugins/s3-viewer-backend/dist/service/S3BucketsProvider.cjs.js:119-121 | the second pass: the same keys, each group sorted and a permutation of the original |
| Catalog.GatheredAreCredentialed | plugins/s3-viewer-backend/dist/service/S3BucketsProvider.cjs.js:47-99 | every record a refresh gathers comes from one of its credentials |
| Catalog.OnEndpointSubMultiset | plugins/s3-viewer-backend/dist/service/S3BucketsProvider.cjs.js:106 | restricting to an endpoint only removes names |
| Catalog.ByEndpointWithinAll | plugins/s3-viewer-backend/dist/service/S3BucketsProvider.cjs.js:102-107 | the by-endpoint listing is a sub-multiset of the full listing |
| Catalog.InfoImpliesCredentials | plugins/s3-viewer-backend/dist/service/S3BucketsProvider.cjs.js:124-133 | in a valid catalog, a bucket that can be described has a stored credential |
| Catalog.DroppedBucketKeepsCredentials | plugins/s3-viewer-backend/dist/service/S3BucketsProvider.cjs.js:91-99 | a bucket whose ACL fails cannot be described but its credential is still found |
| Catalog.AclFailureIsolated | plugins/s3-viewer-backend/dist/service/S3BucketsProvider.cjs.js:48-97 | a failing ACL removes exactly that bucket's record; the others are unchanged |
| S3Api.Drop | plugins/s3-viewer-backend/dist/service/S3Api.cjs.js:46 | `substring(n)`: the suffix after n characters, empty past the end |
| S3Api.StripFolderRestores | plugins/s3-viewer-backend/dist/service/S3Api.cjs.js:46-52 | for a key inside the folder, the folder followed by the stripped name is the key |
| S3Api.FolderEntries | plugins/s3-viewer-backend/dist/service/S3Api.cjs.js:45-48 | the common prefixes made relative to the folder, empty names dropped, as folder entries (definition; see `FolderEntriesMembership`) |
| S3Api.FileEntries | plugins/s3-viewer-backend/dist/service/S3Api.cjs.js:49-56 | one file entry per object with a non-empty key, made relative to the folder, in listed order (definition; see `FileEntriesMembership` and `PushFileEntries`) |
| S3Api.FolderEntriesMembership | plugins/s3-viewer-backend/dist/service/S3Api.cjs.js:45-48 | a folder entry is listed iff some common prefix, stripped of the folder, is its non-empty name |
| S3Api.FileEntriesMembership | plugins/s3-viewer-backend/dist/service/S3Api.cjs.js:49-56 | a file entry is listed iff some object has a non-empty key that, stripped of the folder, is its name |
| S3Api.Page | plugins/s3-viewer-backend/dist/service/S3Api.cjs.js:57-65 | the page answered for a listing: the total, the folder then file entries, and the next marker (definition; see `ListBucketKeys`) |
| S3Api.Total | plugins/s3-viewer-backend/dist/service/S3Api.cjs.js:57-62 | the catalog's count, or the page's key count when that is 0, plus one when truncated; none for an uncatalogued bucket |
| S3Api.TotalObjects | plugins/s3-viewer-backend/dist/service/S3Api.cjs.js:57-62 | the reassigning computation yields that total |
| S3Api.Etag | plugins/s3-viewer-backend/dist/service/S3Api.cjs.js:78 | no quote remains and every other character is kept as often as it occurs; "" when absent (with `Text.WithoutDistributes` and `Text.WithoutSingle` this fixes the text and its order) |
| Text.WithoutDistributes | plugins/s3-viewer-backend/dist/service/S3Api.cjs.js:78 | removing the quotes commutes with concatenation, so the kept characters stay in order |
| Text.WithoutSingle | plugins/s3-viewer-backend/dist/service/S3Api.cjs.js:78 | a single character is dropped when it is a quote and kept otherwise |
| S3Api.EtagUnquotes | plugins/s3-viewer-backend/dist/service/S3Api.cjs.js:78 | an ETag quoted as S3 sends it comes back as the bare text between the quotes |
| S3Api.DownloadName | plugins/s3-viewer-backend/dist/service/S3Api.cjs.js:82 | `key.split("/").pop() || key` (definition; its meaning is stated by `DownloadNameMeaning`) |
| S3Api.DownloadNameMeaning | plugins/s3-viewer-backend/dist/service/S3Api.cjs.js:82 | the download name is the text after the key's last `/`, or the whole key when that is empty or there is no `/` |
| S3Api.S3Client.constructor | plugins/s3-viewer-backend/dist/service/S3Api.cjs.js:15-18 | the client keeps the catalog it is given |
| S3Api.S3Client.GetS3Client | plugins/s3-viewer-backend/dist/service/S3Api.cjs.js:19-32 | fails with `No credentials stored for endpoint/bucket` iff there is no stored credential; otherwise opens at that credential's endpoint and region with its keys |
| S3Api.S3Client.ListBucketKeys | plugins/s3-viewer-backend/dist/service/S3Api.cjs.js:33-66 | lists `folder + prefix` with delimiter `/`; folders then files, the total, and `next` the NextMarker; listing errors name status code and code |
| S3Api.S3Client.HeadObject | plugins/s3-viewer-backend/dist/service/S3Api.cjs.js:67-85 | succeeds iff the credential lookup and the head request both do; then name and bucket as asked, the etag `Etag` of the returned ETag, the length as returned, content type defaulting to "", the download name of the key; errors name status code and code |
| S3Api.CollectKeys | plugins/s3-viewer-backend/dist/service/S3Api.cjs.js:45-56 | the pushing loop yields the folder entries followed by the file entries |
| S3Api.PushFileEntries | plugins/s3-viewer-backend/dist/service/S3Api.cjs.js:49-56 | the `forEach` leaves the entries it started with, followed by one file entry per object with a non-empty key, in order |
| S3Api.FileEntriesSnoc | plugins/s3-viewer-backend/dist/service/S3Api.cjs.js:49-56 | one more object appends its file entry, if it has one |
| S3Api.FoldersPrecedeFiles | plugins/s3-viewer-backend/dist/service/S3Api.cjs.js:45-56 | every folder entry of a page comes before every file entry |
| S3Builder.EvaluateRequest | plugins/s3-viewer-backend/dist/service/S3Builder.cjs.js:137-148 | fails with NotAllowed "Unauthorized" exactly when the decision is a denial; otherwise answers the decision |
| S3Builder.GetBucketFilter | plugins/s3-viewer-backend/dist/service/S3Builder.cjs.js:156-161 | a filter exactly for a conditional decision, the transformation of its conditions |
| S3Builder.RequireBucketPermission | plugins/s3-viewer-backend/dist/service/S3Builder.cjs.js:172-181 | NotFound when the catalog lacks the bucket, checked first; then it passes iff the bucket matches the decision's filter |
| S3Builder.BucketRoute | plugins/s3-viewer-backend/dist/service/S3Builder.cjs.js:256-274 | the single-bucket route answers only the catalog's record for that bucket |
| S3Builder.BucketRouteAgrees | plugins/s3-viewer-backend/dist/service/S3Builder.cjs.js:256-274 | the single-bucket route's inline check decides exactly as `requireBucketPermission` |
| S3Builder.GroupedRouteFilter | plugins/s3-viewer-backend/dist/service/S3Builder.cjs.js:237-249 | the grouped route's filter: the name parameter as a nested `allOf` when non-empty, then the permission filter when present, under one `allOf` (definition; see `GroupedRouteFilterMeaning`) |
| S3Builder.GroupedRouteFilterMeaning | plugins/s3-viewer-backend/dist/service/S3Builder.cjs.js:237-249 | a bucket passes the grouped route's filter iff it has the requested name (if any) and passes the permission filter (if any); with neither, every bucket passes |
| S3Builder.ChooseSchedule | plugins/s3-viewer-backend/dist/service/S3Builder.cjs.js:44-47 | the configured schedule wins; else a refresh interval as frequency and timeout; else none |
| S3Builder.Builder.constructor | plugins/s3-viewer-backend/dist/service/S3Builder.cjs.js:24-31 | a new builder has nothing injected |
| S3Builder.Builder.SetClient | plugins/s3-viewer-backend/dist/service/S3Builder.cjs.js:77-80 | overwrites the client only |
| S3Builder.Builder.SetCredentialsProvider | plugins/s3-viewer-backend/dist/service/S3Builder.cjs.js:87-90 | overwrites the credentials provider only |
| S3Builder.Builder.SetBucketsProvider | plugins/s3-viewer-backend/dist/service/S3Builder.cjs.js:97-100 | overwrites the catalog only |
| S3Builder.Builder.SetBucketStatsProvider | plugins/s3-viewer-backend/dist/service/S3Builder.cjs.js:107-110 | overwrites the statistics provider only |
| S3Builder.Builder.SetRefreshInterval | plugins/s3-viewer-backend/dist/service/S3Builder.cjs.js:121-127 | overwrites the refresh interval only |
| S3Builder.Builder.Build | plugins/s3-viewer-backend/dist/service/S3Builder.cjs.js:35-70 | without `s3` nothing is built; injected components are kept and defaults fill the gaps; a catalog is created with the chosen schedule and the statistics provider; an injected credentials provider means the build cannot fail; without one the build fails exactly when `CombinedFromConfig` of the configuration fails, with its error, and the created catalog uses that provider |
| ExtensionPoint.ExtensionSlots.constructor | plugins/s3-viewer-backend/dist/service/plugin.cjs.js:10-13 | all four slots start empty |
| ExtensionPoint.ExtensionSlots.SetClient | plugins/s3-viewer-backend/dist/service/plugin.cjs.js:15-20 | the first call stores the client; a second fails with "A S3 client has been already set" and changes nothing; other slots never change |
| ExtensionPoint.ExtensionSlots.SetCredentialsProvider | plugins/s3-viewer-backend/dist/service/plugin.cjs.js:21-26 | the same for the credentials provider and its message |
| ExtensionPoint.ExtensionSlots.SetBucketsProvider | plugins/s3-viewer-backend/dist/service/plugin.cjs.js:27-32 | the same for the catalog and its message |
| ExtensionPoint.ExtensionSlots.SetBucketStatsProvider | plugins/s3-viewer-backend/dist/service/plugin.cjs.js:33-38 | the same for the statistics provider and its message |
| ExtensionPoint.ExtensionSlots.Configure | plugins/s3-viewer-backend/dist/service/plugin.cjs.js:52-64 | a new builder receives exactly the filled slots |
| ExtensionPoint.ExtensionSlots.Init | plugins/s3-viewer-backend/dist/service/plugin.cjs.js:51-65 | the routes use the injected client and catalog when filled, defaults otherwise; an injected credentials provider means start-up cannot fail; without one start-up fails exactly when `CombinedFromConfig` of the configuration fails, with its error, and a created catalog uses that provider |
| UrlDirs.GetPathFromUrlDir | plugins/s3-viewer/dist/utils.esm.js:21-26 | "" for an empty location or one ending in `/`, the location itself otherwise |
| UrlDirs.GetFolderFromUrlDir | plugins/s3-viewer/dist/utils.esm.js:27-36 | `getFolderFromUrlDir` (definition; its meaning is stated by `FolderIsPrefix` and `FileLocationSplits`) |
| UrlDirs.FolderIsPrefix | plugins/s3-viewer/dist/utils.esm.js:27-36 | the folder is a prefix of the location and is "" or ends in `/`; a folder location other than `/` is its own folder; the empty location and `/` give "" |
| UrlDirs.FileLocationSplits | plugins/s3-viewer/dist/utils.esm.js:34-35 | for an object location, the folder is everything up to the last `/`, the rest holds no `/`, and the folder is "" exactly when no `/` follows the first character (an object at the root, with or without a leading `/`) |
| UrlDirs.ExtractBucketAndPath | plugins/s3-viewer/dist/utils.esm.js:38-41 | `extractBucketAndPath` (definition; its meaning is stated by `ExtractBucketAndPathMeaning`) |
| UrlDirs.ExtractBucketAndPathMeaning | plugins/s3-viewer/dist/utils.esm.js:38-41 | the bucket is the text before the first `:` and the path the text up to the next `:` or the end, anything from a second `:` on being dropped; no `:` gives the input with path ""; a colon-free bucket and path joined by `:` come back |

## Left out

- HTTP routing. The router bodies, cookie issuance, response headers and object streaming are not modelled. Only their decision logic is: request evaluation, bucket gating and the grouped-route filter.
- Authentication middleware and the permission framework. The identity, JWT and cookie handling are not part of this model. The condition transformer (`transformConditions`) is a parameter.
- The S3 SDK, HTTP fetches, Signature Version 4 signing and the scheduler are foreign code. Their answers are inputs.
- Refresh scheduling. The catalog's start-up refresh, its scheduled repetition (`start()`) and the created catalog's first refresh are not modelled.
- Logging. Every logger call is omitted, including the deprecation warning of `setRefreshInterval`.
- Excluded helpers. `humanFileSize` (floating point), date formatting (`lastModified`), `getDownloadUrl`, `streamObject` and `isS3ViewerBucketAvailable` are not modelled.
- Ordering.Sort: sort order. The model compares characters by their code. JavaScript's default sort compares UTF-16 code units, and the two orders differ outside the Basic Multilingual Plane.
- Catalog.BucketsProvider.GetGroupedBuckets: plain-object keys.
  - The model uses a map. The source groups into a plain JavaScript object, and its key order is not modelled.
  - A display name that is an inherited property name, such as `constructor`, behaves differently there.
- S3Builder.Builder.Build: components by provenance. The catalog and client that the build creates are described by what they are created from (`CatalogSource`, `ClientSource`), not as running objects. The built router itself is not modelled.
- RadosGwProvider.GetBucketCredentials: per-bucket chains run in order.
  - The model runs a platform's per-bucket chains one after another in listed order. In the source they run concurrently.
  - The model proves that, without a failure, a platform contributes every resolvable entry. With a failing chain the model keeps the entries of the buckets listed before it.
  - Under real concurrency any subset of the other chains' entries may have been pushed. Chains still running may even push after the call has returned.
  - The model keeps each platform's entries together. In the source every chain pushes on its own, so entries of different platforms interleave: platform A with buckets a1 and a2 and platform B with b1 can give [a1, b1, a2]. Only the multiset statement describes the source's result.
- RadosGwProvider: admin replies. A bucket reply without `owner` and a user reply without `keys` are not modelled: the admin replies are already parsed bodies.
- Platforms.MissingKey: error text. The message names the key (`endpoint`, `platforms`, ...), not the full configuration path the configuration reader prints. Values of the wrong type are not modelled.
- CombinedProvider.Combine: which failure wins. The model gives the first failure in provider order. `Promise.all` rejects with the first failure in time. The three built-in providers never fail, so `CombinedProvider.GetBucketCredentials` is unaffected.
- AllowList.AnyPatternMatches: pattern text. A pattern is matched as the text `^p$`. A pattern with a top-level `|` therefore anchors only its outer alternatives; the regex oracle leaves this to the caller.
- S3Api: number formats. `statusCode` in the error messages is taken as already printed text. Numeric formatting of the object count is not modelled.
- S3Builder.GroupedRouteFilter: repeated parameter. A `bucketName` query parameter given more than once (an array, printed comma-separated) is not modelled.
- ExtensionPoint.ExtensionSlots: null values.
  - The model does not distinguish `null` from `undefined`.
  - A setter given `null` fills its slot in the source, but `init` does not forward it.
- S3Builder.EvaluateRequest: one decision. The model takes the single decision for the single permission asked, not the framework's decision list.
