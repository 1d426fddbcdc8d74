/** The credential provider that asks a RADOS gateway's admin API which
    buckets exist, who owns each one and which keys that owner has
    (plugins/s3-viewer-backend/dist/credentials-provider/RadosGwCredentialsProvider.cjs.js).

    The three admin requests are not modelled as HTTP: `AdminApi` supplies,
    per platform, each request's reply. Platforms are handled concurrently;
    the model takes their completion order as `order`. Within one platform
    the per-bucket chains are taken one after another in listed order, and
    the first chain that throws ends the platform (see README). */
module RadosGwProvider {
  import opened Wrappers
  import opened Seqs
  import opened Platforms
  import opened AllowList

  /** A reply of the admin API: a parsed body, a non-ok status, or no response. */
  datatype HttpReply<T> = Success(body: T) | NotOk(statusText: string) | NetworkError(reason: string)

  /** One entry of a user's `keys` array. */
  datatype AdminKey = AdminKey(user: string, accessKey: string, secretKey: string)

  /** The replies of one platform's admin API. */
  datatype AdminApi = AdminApi(
    bucketList: HttpReply<seq<string>>,
    bucketOwner: string -> HttpReply<string>,
    userKeys: string -> HttpReply<seq<AdminKey>>)

  datatype RadosGwCredentialsProvider = RadosGwCredentialsProvider(platforms: seq<Platform>, allowedBuckets: seq<AllowRule>)

  const BucketsFailure := "Error fetching buckets from radosgw: "
  const UserFailure := "Error fetching user info from radosgw: "

  /** `fromConfig`: the same platform reading as the static-key provider. */
  function FromConfig(entries: Option<seq<PlatformEntry>>, allowed: seq<AllowRule>): (r: Result<RadosGwCredentialsProvider, string>)
    ensures entries.None? ==> r == Err(MissingKey("platforms"))
    ensures r.Ok? <==> entries.Some? && forall i :: 0 <= i < |entries.value| ==> ReadPlatform(entries.value[i], true).Ok?
    ensures r.Ok? ==> r.value.allowedBuckets == allowed && |r.value.platforms| == |entries.value|
                      && forall i :: 0 <= i < |entries.value| ==> r.value.platforms[i] == ReadPlatform(entries.value[i], true).value
  {
    if entries.None? then Err(MissingKey("platforms"))
    else match MapResults(entries.value, (e: PlatformEntry) => ReadPlatform(e, true))
      case Err(e) => Err(e)
      case Ok(ps) => Ok(RadosGwCredentialsProvider(ps, allowed))
  }

  /** A reply as the helpers see it: a non-ok status throws `failure`
      followed by the status text. */
  function Receive<T>(reply: HttpReply<T>, failure: string): (r: Result<T, string>)
    ensures r.Ok? <==> reply.Success?
    ensures r.Ok? ==> r.value == reply.body
    ensures reply.NotOk? ==> r == Err(failure + reply.statusText)
    ensures reply.NetworkError? ==> r == Err(reply.reason)
  {
    match reply
    case Success(b) => Ok(b)
    case NotOk(st) => Err(failure + st)
    case NetworkError(e) => Err(e)
  }

  /** `fetchBuckets`: the names of every bucket on the gateway. */
  function FetchBuckets(api: AdminApi): Result<seq<string>, string> {
    Receive(api.bucketList, BucketsFailure)
  }

  /** `getBucketOwner`; its failure message is the bucket-listing one. */
  function GetBucketOwner(api: AdminApi, bucket: string): Result<string, string> {
    Receive(api.bucketOwner(bucket), BucketsFailure)
  }

  /** `fetchUserInfo`: the owner's `keys`. */
  function FetchUserInfo(api: AdminApi, user: string): Result<seq<AdminKey>, string> {
    Receive(api.userKeys(user), UserFailure)
  }

  /** A non-ok reply of any of the three admin calls throws an error naming
      the call and ending with the status text. */
  lemma NonOkStatusReported(api: AdminApi, bucket: string, user: string)
    ensures api.bucketList.NotOk? ==>
              FetchBuckets(api) == Err(BucketsFailure + api.bucketList.statusText)
    ensures api.bucketOwner(bucket).NotOk? ==>
              GetBucketOwner(api, bucket) == Err(BucketsFailure + api.bucketOwner(bucket).statusText)
    ensures api.userKeys(user).NotOk? ==>
              FetchUserInfo(api, user) == Err(UserFailure + api.userKeys(user).statusText)
  {
  }

  /** `keys.find(k => k.user === owner)`. */
  function FindOwnerKey(keys: seq<AdminKey>, owner: string): (r: Option<AdminKey>)
    ensures r.Some? ==> r.value.user == owner
                        && exists i :: 0 <= i < |keys| && keys[i] == r.value && forall j :: 0 <= j < i ==> keys[j].user != owner
    ensures r.None? <==> forall i :: 0 <= i < |keys| ==> keys[i].user != owner
  {
    match FirstIndex(keys, (k: AdminKey) => k.user == owner)
    case None => None
    case Some(i) => Some(keys[i])
  }

  /** The bucket names of the platform that pass its allow rule, in listed
      order; the rule is the one every provider applies. */
  function AllowedAdminBuckets(p: Platform, rules: seq<AllowRule>, api: AdminApi, rx: Regex): Result<seq<string>, string> {
    match FetchBuckets(api)
    case Err(e) => Err(e)
    case Ok(names) => FilterAllowed(names, PatternsFor(rules, p.endpointName), rx)
  }

  /** One per-bucket chain: owner, then the owner's keys, then the key
      entry of that very user. No such entry: nothing, and no error. */
  function ResolveBucket(api: AdminApi, p: Platform, bucket: string): Result<Option<BucketCredential>, string> {
    match GetBucketOwner(api, bucket)
    case Err(e) => Err(e)
    case Ok(owner) =>
      match FetchUserInfo(api, owner)
      case Err(e) => Err(e)
      case Ok(keys) =>
        match FindOwnerKey(keys, owner)
        case None => Ok(None)
        case Some(k) =>
          Ok(Some(BucketCredential(bucket, Some(AccessKey(k.accessKey, k.secretKey)), p.endpoint, p.endpointName, p.region)))
  }

  /** A chain succeeds iff both admin calls do; it yields nothing iff the
      owner has no key entry of their own, and otherwise an entry for the
      bucket on this platform with the keys of such an entry. */
  lemma ChainOutcome(api: AdminApi, p: Platform, bucket: string)
    ensures var r := ResolveBucket(api, p, bucket);
            r.Ok? <==> GetBucketOwner(api, bucket).Ok? && FetchUserInfo(api, GetBucketOwner(api, bucket).value).Ok?
    ensures var r := ResolveBucket(api, p, bucket);
            r.Ok? ==>
              var owner := GetBucketOwner(api, bucket).value;
              var keys := FetchUserInfo(api, owner).value;
              && (r.value.None? <==> forall k :: k in keys ==> k.user != owner)
              && (r.value.Some? ==>
                    exists k :: k in keys && k.user == owner
                                && r.value.value == BucketCredential(bucket, Some(AccessKey(k.accessKey, k.secretKey)),
                                                                     p.endpoint, p.endpointName, p.region))
  {
    var r := ResolveBucket(api, p, bucket);
    if r.Ok? {
      var owner := GetBucketOwner(api, bucket).value;
      var keys := FetchUserInfo(api, owner).value;
      var found := FindOwnerKey(keys, owner);
      if found.None? {
        forall k | k in keys ensures k.user != owner {
          var i :| 0 <= i < |keys| && keys[i] == k;
        }
      } else {
        var i :| 0 <= i < |keys| && keys[i] == found.value;
        assert keys[i] in keys;
      }
    }
  }

  /** What one chain comes to: an error, nothing (the owner has no key
      entry of their own), or the bucket's entry. */
  type ChainResult = Result<Option<BucketCredential>, string>

  /** The chains' outcomes for the buckets, in listed order. */
  function Outcomes(api: AdminApi, p: Platform, buckets: seq<string>): (r: seq<ChainResult>)
    ensures |r| == |buckets|
  {
    seq(|buckets|, j requires 0 <= j < |buckets| => ResolveBucket(api, p, buckets[j]))
  }

  /** The entry a chain outcome carries, if any. */
  function EntryOf(o: ChainResult): seq<BucketCredential> {
    match o
    case Ok(Some(c)) => [c]
    case _ => []
  }

  /** Reference: the entries of the chains that succeed with a key, in
      listed order, failing chains skipped. */
  function Resolvable(outs: seq<ChainResult>): seq<BucketCredential> {
    if |outs| == 0 then [] else Resolvable(outs[..|outs| - 1]) + EntryOf(outs[|outs| - 1])
  }

  /** What a platform's chains push before the first one throws. */
  datatype ChainRun = ChainRun(entries: seq<BucketCredential>, failure: Option<string>)

  /** One more chain: nothing once a chain has failed; otherwise its error
      is recorded or its entry pushed. */
  function Step(prev: ChainRun, o: ChainResult): ChainRun {
    if prev.failure.Some? then prev
    else match o
      case Err(e) => ChainRun(prev.entries, Some(e))
      case Ok(None) => prev
      case Ok(Some(c)) => ChainRun(prev.entries + [c], None)
  }

  /** The chains run in listed order up to the first failure. */
  function ResolveAll(outs: seq<ChainResult>): ChainRun {
    if |outs| == 0 then ChainRun([], None) else Step(ResolveAll(outs[..|outs| - 1]), outs[|outs| - 1])
  }

  predicate AllSucceed(outs: seq<ChainResult>) {
    forall j :: 0 <= j < |outs| ==> outs[j].Ok?
  }

  /** Chain `f` is the first to fail, with error `e`. */
  predicate FirstFailureAt(outs: seq<ChainResult>, f: nat, e: string) {
    f < |outs| && outs[f] == Err(e) && AllSucceed(outs[..f])
  }

  /** Without a failure a platform pushes every resolvable entry; with one,
      the resolvable entries of the chains before the first failing chain,
      whose error is the one reported. */
  lemma {:induction false} ResolveAllMeaning(outs: seq<ChainResult>)
    ensures ResolveAll(outs).failure.None? <==> AllSucceed(outs)
    ensures ResolveAll(outs).failure.None? ==> ResolveAll(outs).entries == Resolvable(outs)
    ensures ResolveAll(outs).failure.Some? ==>
              exists f: nat :: FirstFailureAt(outs, f, ResolveAll(outs).failure.value) && ResolveAll(outs).entries == Resolvable(outs[..f])
  {
    if |outs| > 0 {
      var n := |outs| - 1;
      var front := outs[..n];
      ResolveAllMeaning(front);
      var prev := ResolveAll(front);
      assert ResolveAll(outs) == Step(prev, outs[n]);
      assert Resolvable(outs) == Resolvable(front) + EntryOf(outs[n]);
      if prev.failure.Some? {
        var f: nat :| FirstFailureAt(front, f, prev.failure.value) && prev.entries == Resolvable(front[..f]);
        assert front[..f] == outs[..f];
        assert outs[f] == front[f];
        assert FirstFailureAt(outs, f, prev.failure.value);
      } else {
        AllSucceedSnoc(front, outs[n]);
        assert outs == front + [outs[n]];
        if outs[n].Err? {
          assert FirstFailureAt(outs, n, outs[n].error);
        }
      }
    }
  }

  lemma AllSucceedSnoc(outs: seq<ChainResult>, o: ChainResult)
    ensures AllSucceed(outs + [o]) <==> AllSucceed(outs) && o.Ok?
  {
    if AllSucceed(outs) && o.Ok? {
      forall j | 0 <= j < |outs + [o]| ensures (outs + [o])[j].Ok? {
        if j < |outs| {
          assert (outs + [o])[j] == outs[j];
        }
      }
    }
    if AllSucceed(outs + [o]) {
      forall j | 0 <= j < |outs| ensures outs[j].Ok? {
        assert (outs + [o])[j] == outs[j];
      }
      assert (outs + [o])[|outs|] == o;
    }
  }

  /** The run over one more chain is one more step. */
  lemma ChainStep(outs: seq<ChainResult>, j: nat)
    requires j < |outs|
    ensures ResolveAll(outs[..j + 1]) == Step(ResolveAll(outs[..j]), outs[j])
  {
    var p := outs[..j + 1];
    assert p[..|p| - 1] == outs[..j];
    assert p[|p| - 1] == outs[j];
  }

  /** Once a chain has failed, later chains change nothing. */
  lemma {:induction false} FailureSticks(outs: seq<ChainResult>, j: nat)
    requires j <= |outs| && ResolveAll(outs[..j]).failure.Some?
    ensures ResolveAll(outs) == ResolveAll(outs[..j])
    decreases |outs| - j
  {
    if j < |outs| {
      ChainStep(outs, j);
      FailureSticks(outs, j + 1);
    } else {
      assert outs[..j] == outs;
    }
  }

  /** Entries of a platform are the entries of successful chains. */
  lemma {:induction false} ResolvableMembership(outs: seq<ChainResult>, x: BucketCredential)
    ensures x in Resolvable(outs) <==> exists j :: 0 <= j < |outs| && outs[j] == Ok(Some(x))
  {
    if |outs| > 0 {
      var n := |outs| - 1;
      var front := outs[..n];
      ResolvableMembership(front, x);
      assert Resolvable(outs) == Resolvable(front) + EntryOf(outs[n]);
      assert x in EntryOf(outs[n]) <==> outs[n] == Ok(Some(x));
      if exists j :: 0 <= j < |outs| && outs[j] == Ok(Some(x)) {
        var j :| 0 <= j < |outs| && outs[j] == Ok(Some(x));
        if j < n {
          assert front[j] == outs[j];
        }
      }
      if exists j :: 0 <= j < n && front[j] == Ok(Some(x)) {
        var j :| 0 <= j < n && front[j] == Ok(Some(x));
        assert outs[j] == front[j];
      }
    }
  }

  /** What platform `i` leaves in the shared array. */
  function PlatformEntries(prov: RadosGwCredentialsProvider, i: nat, api: AdminApi, rx: Regex): seq<BucketCredential>
    requires i < |prov.platforms|
  {
    match AllowedAdminBuckets(prov.platforms[i], prov.allowedBuckets, api, rx)
    case Err(_) => []
    case Ok(buckets) => ResolveAll(Outcomes(api, prov.platforms[i], buckets)).entries
  }

  function Blocks(prov: RadosGwCredentialsProvider, apis: seq<AdminApi>, rx: Regex): (r: seq<seq<BucketCredential>>)
    requires |apis| == |prov.platforms|
    ensures |r| == |apis|
  {
    seq(|apis|, i requires 0 <= i < |apis| => PlatformEntries(prov, i, apis[i], rx))
  }

  /** The per-bucket chains of one platform, taken in listed order: each
      pushes the owner's entry when there is one, and the first that throws
      ends the platform. */
  method RunChains(start: seq<BucketCredential>, api: AdminApi, platform: Platform, buckets: seq<string>)
    returns (creds: seq<BucketCredential>)
    ensures creds == start + ResolveAll(Outcomes(api, platform, buckets)).entries
  {
    ghost var outs := Outcomes(api, platform, buckets);
    creds := start;
    var j := 0;
    while j < |buckets|
      invariant 0 <= j <= |buckets|
      invariant ResolveAll(outs[..j]).failure.None?
      invariant creds == start + ResolveAll(outs[..j]).entries
    {
      var outcome := ResolveBucket(api, platform, buckets[j]);
      assert outcome == outs[j];
      ChainStep(outs, j);
      match outcome {
        case Err(_) =>
          FailureSticks(outs, j + 1);
          return;
        case Ok(None) =>
        case Ok(Some(c)) =>
          creds := creds + [c];
      }
      j := j + 1;
    }
    assert outs[..j] == outs;
  }

  /** `getBucketCredentials`: platforms complete in `order`; each one lists
      and filters its buckets, then runs the per-bucket chains, pushing an
      entry for every owner key found. A failure is logged and ends that
      platform only. */
  method GetBucketCredentials(prov: RadosGwCredentialsProvider, apis: seq<AdminApi>, order: seq<nat>, rx: Regex)
    returns (creds: seq<BucketCredential>)
    requires |apis| == |prov.platforms|
    requires IsSchedule(order, |prov.platforms|)
    ensures InRange(order, |prov.platforms|) && creds == Gather(Blocks(prov, apis, rx), order)
    ensures multiset(creds) == multiset(Flatten(Blocks(prov, apis, rx)))
  {
    ScheduleInRange(order, |prov.platforms|);
    ghost var blocks := Blocks(prov, apis, rx);
    creds := [];
    var k := 0;
    while k < |order|
      invariant 0 <= k <= |order|
      invariant creds == Gather(blocks, order[..k])
    {
      var i := order[k];
      GatherStep(blocks, order, k);
      assert blocks[i] == PlatformEntries(prov, i, apis[i], rx);
      match AllowedAdminBuckets(prov.platforms[i], prov.allowedBuckets, apis[i], rx) {
        case Err(_) =>
        case Ok(buckets) =>
          creds := RunChains(creds, apis[i], prov.platforms[i], buckets);
      }
      k := k + 1;
    }
    assert order[..k] == order;
    ScheduleGathersAll(blocks, order);
  }

  /** Every emitted entry names an allowed bucket of its platform, carries
      that platform's endpoint, display name and region, and the keys of the
      key entry whose user is exactly the bucket's owner. */
  lemma EntriesUseOwnerKeys(prov: RadosGwCredentialsProvider, i: nat, api: AdminApi, rx: Regex, x: BucketCredential)
    requires i < |prov.platforms|
    requires x in PlatformEntries(prov, i, api, rx)
    ensures var p := prov.platforms[i];
            && AllowedAdminBuckets(p, prov.allowedBuckets, api, rx).Ok?
            && x.bucket in AllowedAdminBuckets(p, prov.allowedBuckets, api, rx).value
            && x.endpoint == p.endpoint && x.endpointName == p.endpointName && x.region == p.region
    ensures GetBucketOwner(api, x.bucket).Ok? && FetchUserInfo(api, GetBucketOwner(api, x.bucket).value).Ok?
    ensures var owner := GetBucketOwner(api, x.bucket).value;
            exists k :: k in FetchUserInfo(api, owner).value && k.user == owner
                        && x.credentials == Some(AccessKey(k.accessKey, k.secretKey))
  {
    var p := prov.platforms[i];
    var buckets := AllowedAdminBuckets(p, prov.allowedBuckets, api, rx).value;
    var outs := Outcomes(api, p, buckets);
    var j := EmittedFrom(outs, x);
    assert outs[j] == ResolveBucket(api, p, buckets[j]);
    assert buckets[j] in buckets;
    ChainOutcome(api, p, buckets[j]);
  }

  /** An entry a platform's run pushes is the entry of one of its chains. */
  lemma EmittedFrom(outs: seq<ChainResult>, x: BucketCredential) returns (j: nat)
    requires x in ResolveAll(outs).entries
    ensures j < |outs| && outs[j] == Ok(Some(x))
  {
    ResolveAllMeaning(outs);
    var run := ResolveAll(outs);
    if run.failure.None? {
      ResolvableMembership(outs, x);
      j :| 0 <= j < |outs| && outs[j] == Ok(Some(x));
    } else {
      var f: nat :| FirstFailureAt(outs, f, run.failure.value) && run.entries == Resolvable(outs[..f]);
      ResolvableMembership(outs[..f], x);
      j :| 0 <= j < f && outs[..f][j] == Ok(Some(x));
    }
  }

  /** When every admin call of a platform succeeds, it contributes the
      resolvable entry of each allowed bucket, and nothing else. */
  lemma CompletePlatform(prov: RadosGwCredentialsProvider, i: nat, api: AdminApi, rx: Regex)
    requires i < |prov.platforms|
    requires AllowedAdminBuckets(prov.platforms[i], prov.allowedBuckets, api, rx).Ok?
    requires forall b :: b in AllowedAdminBuckets(prov.platforms[i], prov.allowedBuckets, api, rx).value ==>
               api.bucketOwner(b).Success? && api.userKeys(api.bucketOwner(b).body).Success?
    ensures var buckets := AllowedAdminBuckets(prov.platforms[i], prov.allowedBuckets, api, rx).value;
            PlatformEntries(prov, i, api, rx) == Resolvable(Outcomes(api, prov.platforms[i], buckets))
  {
    var buckets := AllowedAdminBuckets(prov.platforms[i], prov.allowedBuckets, api, rx).value;
    var outs := Outcomes(api, prov.platforms[i], buckets);
    ResolveAllMeaning(outs);
    forall j | 0 <= j < |outs| ensures outs[j].Ok? {
      assert buckets[j] in buckets;
      assert outs[j] == ResolveBucket(api, prov.platforms[i], buckets[j]);
    }
  }

  /** A platform whose bucket listing fails removes exactly its own entries:
      the other platforms' entries are the same as before. */
  lemma FailingPlatformIsolated(prov: RadosGwCredentialsProvider, apis: seq<AdminApi>, rx: Regex, i: nat, failed: AdminApi)
    requires |apis| == |prov.platforms| && i < |apis|
    requires failed.bucketList.NotOk? || failed.bucketList.NetworkError?
    ensures multiset(Flatten(Blocks(prov, apis[i := failed], rx))) + multiset(PlatformEntries(prov, i, apis[i], rx))
         == multiset(Flatten(Blocks(prov, apis, rx)))
  {
    var blocks := Blocks(prov, apis, rx);
    assert Blocks(prov, apis[i := failed], rx) == blocks[i := []];
    FlattenReplace(blocks, i, []);
  }
}
