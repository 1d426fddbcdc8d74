/** The two credential providers that find buckets by listing each platform
    with the S3 API: the static-key variant
    (plugins/s3-viewer-backend/dist/credentials-provider/ConfigCredentialsProvider.cjs.js)
    and the ambient IAM-role variant
    (plugins/s3-viewer-backend/dist/credentials-provider/IAMRoleCredentialsProvider.cjs.js).
    They differ only in whether platforms and entries carry keys.

    The platforms are listed concurrently and each pushes its entries into
    one shared array when its listing completes. The model takes the
    completion order as the `order` argument, a permutation of the platform
    indices, and each platform's listing response (or failure) as
    `listings`. */
module ListingProviders {
  import opened Wrappers
  import opened Seqs
  import opened Platforms
  import opened AllowList

  datatype Kind = StaticKeys | IamRole

  datatype ListingProvider = ListingProvider(kind: Kind, platforms: seq<Platform>, allowedBuckets: seq<AllowRule>)

  /** Whether platforms of this kind are read with static keys. */
  predicate ReadsKeys(kind: Kind) {
    kind == StaticKeys
  }

  /** `fromConfig`: the `platforms` array is required and every entry is read. */
  function FromConfig(kind: Kind, entries: Option<seq<PlatformEntry>>, allowed: seq<AllowRule>): (r: Result<ListingProvider, string>)
    ensures entries.None? ==> r == Err(MissingKey("platforms"))
    ensures r.Ok? <==> entries.Some? && forall i :: 0 <= i < |entries.value| ==> ReadPlatform(entries.value[i], ReadsKeys(kind)).Ok?
    ensures r.Ok? ==> r.value.kind == kind && r.value.allowedBuckets == allowed
                      && |r.value.platforms| == |entries.value|
                      && forall i :: 0 <= i < |entries.value| ==> r.value.platforms[i] == ReadPlatform(entries.value[i], ReadsKeys(kind)).value
  {
    if entries.None? then Err(MissingKey("platforms"))
    else match MapResults(entries.value, (e: PlatformEntry) => ReadPlatform(e, ReadsKeys(kind)))
      case Err(e) => Err(e)
      case Ok(ps) => Ok(ListingProvider(kind, ps, allowed))
  }

  /** The entry emitted for one allowed bucket of a platform. */
  function Entry(kind: Kind, p: Platform, bucket: string): BucketCredential {
    BucketCredential(bucket, if ReadsKeys(kind) then p.credentials else None, p.endpoint, p.endpointName, p.region)
  }

  /** What platform `i` pushes: one entry per allowed bucket, or nothing when
      its listing throws (the error is logged and swallowed). */
  function PlatformBlock(prov: ListingProvider, i: nat, listing: Result<ListBucketsOutput, string>, rx: Regex): seq<BucketCredential>
    requires i < |prov.platforms|
  {
    match FetchBucketsForPlatform(prov.platforms[i], prov.allowedBuckets, listing, rx)
    case Err(_) => []
    case Ok(buckets) => seq(|buckets|, j requires 0 <= j < |buckets| => Entry(prov.kind, prov.platforms[i], buckets[j]))
  }

  function Blocks(prov: ListingProvider, listings: seq<Result<ListBucketsOutput, string>>, rx: Regex): (r: seq<seq<BucketCredential>>)
    requires |listings| == |prov.platforms|
    ensures |r| == |listings|
  {
    seq(|listings|, i requires 0 <= i < |listings| => PlatformBlock(prov, i, listings[i], rx))
  }

  /** `getBucketCredentials`: each platform, in completion order, appends its
      entries. As a multiset the result is the union of every platform's
      entries, whatever the order. */
  method GetBucketCredentials(prov: ListingProvider, listings: seq<Result<ListBucketsOutput, string>>,
                              order: seq<nat>, rx: Regex) returns (creds: seq<BucketCredential>)
    requires |listings| == |prov.platforms|
    requires IsSchedule(order, |prov.platforms|)
    ensures InRange(order, |prov.platforms|) && creds == Gather(Blocks(prov, listings, rx), order)
    ensures multiset(creds) == multiset(Flatten(Blocks(prov, listings, rx)))
  {
    ScheduleInRange(order, |prov.platforms|);
    ghost var blocks := Blocks(prov, listings, rx);
    creds := [];
    var k := 0;
    while k < |order|
      invariant 0 <= k <= |order|
      invariant creds == Gather(blocks, order[..k])
    {
      var i := order[k];
      GatherStep(blocks, order, k);
      assert blocks[i] == PlatformBlock(prov, i, listings[i], rx);
      var platform := prov.platforms[i];
      match FetchBucketsForPlatform(platform, prov.allowedBuckets, listings[i], rx) {
        case Err(_) =>
        case Ok(buckets) =>
          var pushed := seq(|buckets|, j requires 0 <= j < |buckets| => Entry(prov.kind, platform, buckets[j]));
          creds := creds + pushed;
      }
      k := k + 1;
    }
    assert order[..k] == order;
    ScheduleGathersAll(blocks, order);
  }

  /** A platform whose listing succeeds emits exactly one entry per allowed
      bucket, in order, carrying the platform's endpoint, display name and
      region, and its static keys for the static-key variant or no keys for
      the IAM-role variant; a failing platform emits nothing. */
  lemma PlatformContribution(prov: ListingProvider, i: nat, listing: Result<ListBucketsOutput, string>, rx: Regex)
    requires i < |prov.platforms|
    ensures var p := prov.platforms[i];
            var fetched := FetchBucketsForPlatform(p, prov.allowedBuckets, listing, rx);
            var block := PlatformBlock(prov, i, listing, rx);
            && (fetched.Err? ==> block == [])
            && (fetched.Ok? ==>
                  |block| == |fetched.value|
                  && forall j :: 0 <= j < |block| ==>
                       block[j].bucket == fetched.value[j]
                       && block[j].endpoint == p.endpoint
                       && block[j].endpointName == p.endpointName
                       && block[j].region == p.region
                       && block[j].credentials == (if prov.kind == StaticKeys then p.credentials else None))
  {
  }

  /** Platform `i`'s listing succeeded with `x`'s bucket allowed, and `x`
      is that platform's entry for it. */
  predicate EmittedBy(prov: ListingProvider, i: nat, listing: Result<ListBucketsOutput, string>, rx: Regex, x: BucketCredential)
    requires i < |prov.platforms|
  {
    && FetchBucketsForPlatform(prov.platforms[i], prov.allowedBuckets, listing, rx).Ok?
    && x.bucket in FetchBucketsForPlatform(prov.platforms[i], prov.allowedBuckets, listing, rx).value
    && x == Entry(prov.kind, prov.platforms[i], x.bucket)
  }

  /** An entry is in one platform's block iff that platform emits it. */
  lemma BlockMembership(prov: ListingProvider, i: nat, listing: Result<ListBucketsOutput, string>, rx: Regex, x: BucketCredential)
    requires i < |prov.platforms|
    ensures x in PlatformBlock(prov, i, listing, rx) <==> EmittedBy(prov, i, listing, rx, x)
  {
    var block := PlatformBlock(prov, i, listing, rx);
    if x in block {
      var j :| 0 <= j < |block| && block[j] == x;
    }
    if EmittedBy(prov, i, listing, rx, x) {
      var bs := FetchBucketsForPlatform(prov.platforms[i], prov.allowedBuckets, listing, rx).value;
      var j :| 0 <= j < |bs| && bs[j] == x.bucket;
      assert block[j] == x;
    }
  }

  /** Membership in the result: an entry is emitted iff some platform's
      listing succeeded with that bucket allowed. */
  lemma ResultMembership(prov: ListingProvider, listings: seq<Result<ListBucketsOutput, string>>, rx: Regex, x: BucketCredential)
    requires |listings| == |prov.platforms|
    ensures x in Flatten(Blocks(prov, listings, rx))
        <==> exists i :: 0 <= i < |listings| && EmittedBy(prov, i, listings[i], rx, x)
  {
    var blocks := Blocks(prov, listings, rx);
    FlattenMembership(blocks, x);
    if x in Flatten(blocks) {
      var i :| 0 <= i < |blocks| && x in blocks[i];
      BlockMembership(prov, i, listings[i], rx, x);
    }
    if exists i :: 0 <= i < |listings| && EmittedBy(prov, i, listings[i], rx, x) {
      var i :| 0 <= i < |listings| && EmittedBy(prov, i, listings[i], rx, x);
      BlockMembership(prov, i, listings[i], rx, x);
      assert x in blocks[i];
    }
  }

  /** The IAM-role variant never hands out keys. */
  lemma {:induction false} IamRoleEntriesHaveNoKeys(prov: ListingProvider, listings: seq<Result<ListBucketsOutput, string>>, rx: Regex, x: BucketCredential)
    requires |listings| == |prov.platforms| && prov.kind == IamRole
    requires x in Flatten(Blocks(prov, listings, rx))
    ensures x.credentials.None?
  {
    ResultMembership(prov, listings, rx, x);
  }

  /** A static-key provider read from configuration hands out, with each
      entry, the keys configured for that entry's platform. */
  lemma {:induction false} StaticEntriesCarryConfiguredKeys(entries: seq<PlatformEntry>, allowed: seq<AllowRule>,
                                         listings: seq<Result<ListBucketsOutput, string>>, rx: Regex, x: BucketCredential)
    requires FromConfig(StaticKeys, Some(entries), allowed).Ok?
    requires |listings| == |entries|
    requires x in Flatten(Blocks(FromConfig(StaticKeys, Some(entries), allowed).value, listings, rx))
    ensures exists i :: 0 <= i < |entries| && entries[i].endpoint == Some(x.endpoint)
                        && x.credentials == Some(AccessKey(entries[i].accessKeyId.value, entries[i].secretAccessKey.value))
  {
    var prov := FromConfig(StaticKeys, Some(entries), allowed).value;
    ResultMembership(prov, listings, rx, x);
    var i :| 0 <= i < |listings| && EmittedBy(prov, i, listings[i], rx, x);
    assert prov.platforms[i] == ReadPlatform(entries[i], true).value;
  }

  /** A platform whose listing fails removes exactly its own entries: the
      other platforms' entries are the same as before. */
  lemma FailingPlatformIsolated(prov: ListingProvider, listings: seq<Result<ListBucketsOutput, string>>, rx: Regex, i: nat, e: string)
    requires |listings| == |prov.platforms| && i < |listings|
    ensures multiset(Flatten(Blocks(prov, listings[i := Err(e)], rx))) + multiset(PlatformBlock(prov, i, listings[i], rx))
         == multiset(Flatten(Blocks(prov, listings, rx)))
  {
    var blocks := Blocks(prov, listings, rx);
    assert Blocks(prov, listings[i := Err(e)], rx) == blocks[i := []];
    FlattenReplace(blocks, i, []);
  }
}
