/** The bucket catalog
    (plugins/s3-viewer-backend/dist/service/S3BucketsProvider.cjs.js): the
    detail records of the buckets the backend can show, and the credentials
    they were found with, replaced together by every refresh and queried by
    the routes.

    The S3 calls a refresh makes per bucket (ACL, statistics, lifecycle) are
    not modelled: `BucketProbe` supplies their outcomes. The buckets are
    probed concurrently and each pushes its record when its probes complete;
    the model takes that completion order as `order`. */
module Catalog {
  import opened Wrappers
  import opened Seqs
  import opened Ordering
  import opened Platforms
  import opened BucketFilters

  /** What a statistics provider reports for one bucket. */
  datatype BucketStats = BucketStats(objects: int, size: int)

  /** The outcomes of one bucket's probes: the ACL owner's display name
      (absent when the ACL has no owner), the statistics, and the lifecycle
      rules (absent when the configuration has no `Rules`). */
  datatype BucketProbe = BucketProbe(
    acl: Result<Option<string>, string>,
    stats: Result<BucketStats, string>,
    lifecycle: Result<Option<seq<LifecycleRule>>, string>)

  /** The record one credential contributes: none when its ACL cannot be
      read, otherwise one with the owner's display name or `""`, the
      statistics when a statistics provider is installed and answers (0 and
      0 otherwise), and the lifecycle rules when they can be read (none
      otherwise). */
  function Inspect(hasStats: bool, cred: BucketCredential, probe: BucketProbe): seq<BucketDetails> {
    if probe.acl.Err? then []
    else
      var stats := if hasStats && probe.stats.Ok? then probe.stats.value else BucketStats(0, 0);
      var policy := if probe.lifecycle.Ok? && probe.lifecycle.value.Some? then probe.lifecycle.value.value else [];
      [BucketDetails(cred.bucket, probe.acl.value.GetOr(""), stats.objects, stats.size,
                     cred.endpoint, cred.endpointName, policy)]
  }

  function DetailBlocks(hasStats: bool, creds: seq<BucketCredential>, probes: seq<BucketProbe>): (r: seq<seq<BucketDetails>>)
    requires |probes| == |creds|
    ensures |r| == |creds|
  {
    seq(|creds|, i requires 0 <= i < |creds| => Inspect(hasStats, creds[i], probes[i]))
  }

  /** The per-bucket policy of a refresh, field by field. */
  lemma InspectPolicy(hasStats: bool, cred: BucketCredential, probe: BucketProbe)
    ensures probe.acl.Err? <==> Inspect(hasStats, cred, probe) == []
    ensures probe.acl.Ok? ==>
              var d := Inspect(hasStats, cred, probe)[0];
              && |Inspect(hasStats, cred, probe)| == 1
              && d.bucket == cred.bucket && d.endpoint == cred.endpoint && d.endpointName == cred.endpointName
              && (probe.acl.value.None? ==> d.owner == "")
              && (probe.acl.value.Some? ==> d.owner == probe.acl.value.value)
              && (!hasStats || probe.stats.Err? ==> d.objects == 0 && d.size == 0)
              && (hasStats && probe.stats.Ok? ==> d.objects == probe.stats.value.objects && d.size == probe.stats.value.size)
              && (probe.lifecycle.Err? || probe.lifecycle.value.None? ==> d.policy == [])
              && (probe.lifecycle.Ok? && probe.lifecycle.value.Some? ==> d.policy == probe.lifecycle.value.value)
  {
  }

  /** The catalog entries that pass `filter`, in catalog order. */
  function Matching(bs: seq<BucketDetails>, filter: Option<Filter>): (r: seq<BucketDetails>)
    ensures forall b :: b in r <==> b in bs && Matches(b, filter)
  {
    if |bs| == 0 then []
    else (if Matches(bs[0], filter) then [bs[0]] else []) + Matching(bs[1..], filter)
  }

  /** The entries whose endpoint or display name is `endpoint`. */
  function OnEndpoint(bs: seq<BucketDetails>, endpoint: string): (r: seq<BucketDetails>)
    ensures forall b :: b in r <==> b in bs && (b.endpoint == endpoint || b.endpointName == endpoint)
  {
    if |bs| == 0 then []
    else (if bs[0].endpoint == endpoint || bs[0].endpointName == endpoint then [bs[0]] else []) + OnEndpoint(bs[1..], endpoint)
  }

  /** `Matching` keeps every passing entry as often as it occurs, so
      duplicates survive, and drops every other entry. */
  lemma {:induction false} MatchingCounts(bs: seq<BucketDetails>, filter: Option<Filter>, b: BucketDetails)
    ensures multiset(Matching(bs, filter))[b] == if Matches(b, filter) then multiset(bs)[b] else 0
  {
    if |bs| > 0 {
      assert bs == [bs[0]] + bs[1..];
      MatchingCounts(bs[1..], filter, b);
    }
  }

  /** `OnEndpoint` keeps every entry on the endpoint as often as it occurs
      and drops every other entry. */
  lemma {:induction false} OnEndpointCounts(bs: seq<BucketDetails>, endpoint: string, b: BucketDetails)
    ensures multiset(OnEndpoint(bs, endpoint))[b] ==
            if b.endpoint == endpoint || b.endpointName == endpoint then multiset(bs)[b] else 0
  {
    if |bs| > 0 {
      assert bs == [bs[0]] + bs[1..];
      OnEndpointCounts(bs[1..], endpoint, b);
    }
  }

  function BucketNames(bs: seq<BucketDetails>): (r: seq<string>)
    ensures |r| == |bs| && forall i :: 0 <= i < |bs| ==> r[i] == bs[i].bucket
  {
    seq(|bs|, i requires 0 <= i < |bs| => bs[i].bucket)
  }

  /** Whether an entry answers a lookup of (`endpoint`, `bucket`): the
      endpoint may be given as the endpoint or as its display name. */
  predicate Locates(bucket: string, endpoint: string, endpointName: string, qEndpoint: string, qBucket: string) {
    bucket == qBucket && (endpoint == qEndpoint || endpointName == qEndpoint)
  }

  class BucketsProvider {
    /** Whether a bucket statistics provider is installed. */
    const hasStats: bool
    var buckets: seq<BucketDetails>
    var bucketCreds: seq<BucketCredential>

    /** Every catalogued bucket was found with a stored credential. */
    ghost predicate Valid()
      reads this
    {
      forall b :: b in buckets ==>
        exists c :: c in bucketCreds && c.bucket == b.bucket && c.endpoint == b.endpoint && c.endpointName == b.endpointName
    }

    constructor(hasStats: bool)
      ensures this.hasStats == hasStats
      ensures buckets == [] && bucketCreds == []
      ensures Valid()
    {
      this.hasStats := hasStats;
      buckets := [];
      bucketCreds := [];
    }

    /** `fetchBuckets`. When the credentials provider fails, the call fails
        and the catalog is unchanged. Otherwise every credential is kept,
        whether or not its bucket could be inspected, and the records are
        those of the inspectable buckets, in completion order. */
    method FetchBuckets(credentials: Result<seq<BucketCredential>, string>, probes: seq<BucketProbe>, order: seq<nat>)
      returns (outcome: Outcome<string>)
      requires credentials.Ok? ==> |probes| == |credentials.value| && IsSchedule(order, |credentials.value|)
      requires Valid()
      modifies this
      ensures Valid()
      ensures credentials.Err? ==>
                outcome == Fail(credentials.error) && buckets == old(buckets) && bucketCreds == old(bucketCreds)
      ensures credentials.Ok? ==>
                && outcome == Pass
                && bucketCreds == credentials.value
                && InRange(order, |credentials.value|)
                && buckets == Gather(DetailBlocks(hasStats, credentials.value, probes), order)
      ensures credentials.Ok? ==>
                multiset(buckets) == multiset(Flatten(DetailBlocks(hasStats, credentials.value, probes)))
    {
      if credentials.Err? {
        return Fail(credentials.error);
      }
      var creds := credentials.value;
      ScheduleInRange(order, |creds|);
      ghost var blocks := DetailBlocks(hasStats, creds, probes);
      var bucketDetails: seq<BucketDetails> := [];
      var k := 0;
      while k < |order|
        invariant 0 <= k <= |order|
        invariant bucketDetails == Gather(blocks, order[..k])
      {
        var i := order[k];
        GatherStep(blocks, order, k);
        var found := InspectBucket(creds[i], probes[i]);
        bucketDetails := bucketDetails + found;
        assert blocks[i] == found;
        k := k + 1;
      }
      assert order[..k] == order;
      ScheduleGathersAll(blocks, order);
      GatheredAreCredentialed(hasStats, creds, probes, order);
      buckets := bucketDetails;
      bucketCreds := creds;
      return Pass;
    }

    /** One bucket's probes: the record is built with defaults, then
        completed from the statistics and lifecycle answers. */
    method InspectBucket(c: BucketCredential, probe: BucketProbe) returns (found: seq<BucketDetails>)
      ensures found == Inspect(hasStats, c, probe)
    {
      if probe.acl.Err? {
        return [];
      }
      var details := BucketDetails(c.bucket, probe.acl.value.GetOr(""), 0, 0, c.endpoint, c.endpointName, []);
      if hasStats && probe.stats.Ok? {
        details := details.(objects := probe.stats.value.objects, size := probe.stats.value.size);
      }
      if probe.lifecycle.Ok? && probe.lifecycle.value.Some? {
        details := details.(policy := probe.lifecycle.value.value);
      }
      return [details];
    }

    /** `getAllBuckets`: the names of exactly the entries that pass the
        filter, duplicates kept, in sorted order. */
    function GetAllBuckets(filter: Option<Filter>): (r: seq<string>)
      reads this
      ensures Sorted(r)
      ensures multiset(r) == multiset(BucketNames(Matching(buckets, filter)))
      ensures forall x :: x in r <==> exists b :: b in buckets && Matches(b, filter) && b.bucket == x
    {
      var names := BucketNames(Matching(buckets, filter));
      var r := Sort(names);
      assert forall x :: x in r <==> x in multiset(names);
      r
    }

    /** `getBucketsByEndpoint`: the same, restricted to the entries whose
        endpoint or display name is `endpoint`. */
    function GetBucketsByEndpoint(endpoint: string, filter: Option<Filter>): (r: seq<string>)
      reads this
      ensures Sorted(r)
      ensures multiset(r) == multiset(BucketNames(OnEndpoint(Matching(buckets, filter), endpoint)))
      ensures forall x :: x in r <==> exists b :: b in buckets && Matches(b, filter)
                                                 && (b.endpoint == endpoint || b.endpointName == endpoint) && b.bucket == x
    {
      var names := BucketNames(OnEndpoint(Matching(buckets, filter), endpoint));
      var r := Sort(names);
      assert forall x :: x in r <==> x in multiset(names);
      r
    }

    /** `getGroupedBuckets`: matching bucket names grouped under their
        platform's display name, each group duplicate-free and sorted. */
    method GetGroupedBuckets(filter: Option<Filter>) returns (grouped: map<string, seq<string>>)
      ensures forall k :: k in grouped <==> exists b :: b in buckets && Matches(b, filter) && b.endpointName == k
      ensures forall k :: k in grouped ==> Sorted(grouped[k]) && Distinct(grouped[k])
      ensures forall b :: b in buckets && Matches(b, filter) ==> b.endpointName in grouped && b.bucket in grouped[b.endpointName]
      ensures forall k, x :: k in grouped && x in grouped[k] ==>
                exists b :: b in buckets && Matches(b, filter) && b.endpointName == k && b.bucket == x
    {
      var ms := Matching(buckets, filter);
      var groups := GroupByEndpointName(ms);
      grouped := SortGroups(groups);
      forall k | k in grouped ensures Sorted(grouped[k]) && Distinct(grouped[k]) {
        GroupedDistinct(ms, k);
        SortKeepsDistinct(groups[k], grouped[k]);
      }
      forall k | k in grouped ensures exists b :: b in buckets && Matches(b, filter) && b.endpointName == k {
        GroupedKeys(ms, k);
        var b :| b in ms && b.endpointName == k;
        assert b in buckets && Matches(b, filter);
      }
      forall k, x | k in grouped && x in grouped[k]
        ensures exists b :: b in buckets && Matches(b, filter) && b.endpointName == k && b.bucket == x
      {
        assert x in multiset(grouped[k]);
        GroupedContents(ms, k, x);
        var b :| b in ms && b.endpointName == k && b.bucket == x;
        assert b in buckets && Matches(b, filter);
      }
      forall b | b in buckets && Matches(b, filter)
        ensures b.endpointName in grouped && b.bucket in grouped[b.endpointName]
      {
        assert b in ms;
        GroupedKeys(ms, b.endpointName);
        GroupedContents(ms, b.endpointName, b.bucket);
        assert b.bucket in multiset(grouped[b.endpointName]);
      }
      forall k | exists b :: b in buckets && Matches(b, filter) && b.endpointName == k
        ensures k in grouped
      {
        var b :| b in buckets && Matches(b, filter) && b.endpointName == k;
        assert b in ms;
        GroupedKeys(ms, k);
      }
    }

    /** `getBucketInfo`: the first catalogued record for the bucket on that
        endpoint, or nothing. */
    function GetBucketInfo(endpoint: string, bucket: string): (r: Option<BucketDetails>)
      reads this
      ensures r.Some? ==> exists i :: 0 <= i < |buckets| && buckets[i] == r.value
                            && Locates(r.value.bucket, r.value.endpoint, r.value.endpointName, endpoint, bucket)
                            && forall j :: 0 <= j < i ==> !Locates(buckets[j].bucket, buckets[j].endpoint, buckets[j].endpointName, endpoint, bucket)
      ensures r.None? <==> forall b :: b in buckets ==> !Locates(b.bucket, b.endpoint, b.endpointName, endpoint, bucket)
    {
      match FirstIndex(buckets, (b: BucketDetails) => Locates(b.bucket, b.endpoint, b.endpointName, endpoint, bucket))
      case None => None
      case Some(i) => Some(buckets[i])
    }

    /** `getCredentialsForBucket`: the first stored credential for the
        bucket on that endpoint, or nothing. */
    function GetCredentialsForBucket(endpoint: string, bucket: string): (r: Option<BucketCredential>)
      reads this
      ensures r.Some? ==> exists i :: 0 <= i < |bucketCreds| && bucketCreds[i] == r.value
                            && Locates(r.value.bucket, r.value.endpoint, r.value.endpointName, endpoint, bucket)
                            && forall j :: 0 <= j < i ==> !Locates(bucketCreds[j].bucket, bucketCreds[j].endpoint, bucketCreds[j].endpointName, endpoint, bucket)
      ensures r.None? <==> forall c :: c in bucketCreds ==> !Locates(c.bucket, c.endpoint, c.endpointName, endpoint, bucket)
    {
      match FirstIndex(bucketCreds, (c: BucketCredential) => Locates(c.bucket, c.endpoint, c.endpointName, endpoint, bucket))
      case None => None
      case Some(i) => Some(bucketCreds[i])
    }
  }

  /** One record's step of the first pass of `getGroupedBuckets`: its
      display name gets a group if it has none, and its name is appended to
      that group unless already there. */
  function AddToGroup(groups: map<string, seq<string>>, b: BucketDetails): map<string, seq<string>> {
    var g := if b.endpointName in groups then groups[b.endpointName] else [];
    groups[b.endpointName := if b.bucket in g then g else g + [b.bucket]]
  }

  /** The groups after the first pass over `ms`. */
  function Grouped(ms: seq<BucketDetails>): map<string, seq<string>> {
    if |ms| == 0 then map[] else AddToGroup(Grouped(ms[..|ms| - 1]), ms[|ms| - 1])
  }

  lemma GroupedStep(ms: seq<BucketDetails>, i: nat)
    requires i < |ms|
    ensures Grouped(ms[..i + 1]) == AddToGroup(Grouped(ms[..i]), ms[i])
  {
    var p := ms[..i + 1];
    assert p[..|p| - 1] == ms[..i];
    assert p[|p| - 1] == ms[i];
  }

  /** The first pass of `getGroupedBuckets`: each entry's name is appended
      to its display name's group unless already there. */
  method GroupByEndpointName(ms: seq<BucketDetails>) returns (groups: map<string, seq<string>>)
    ensures groups == Grouped(ms)
  {
    groups := map[];
    var i := 0;
    while i < |ms|
      invariant 0 <= i <= |ms|
      invariant groups == Grouped(ms[..i])
    {
      var b := ms[i];
      ghost var before := groups;
      if b.endpointName !in groups {
        groups := groups[b.endpointName := []];
      }
      if b.bucket !in groups[b.endpointName] {
        groups := groups[b.endpointName := groups[b.endpointName] + [b.bucket]];
      }
      assert groups == AddToGroup(before, b);
      GroupedStep(ms, i);
      i := i + 1;
    }
    assert ms[..i] == ms;
  }

  /** A display name has a group iff some record carries it. */
  lemma {:induction false} GroupedKeys(ms: seq<BucketDetails>, k: string)
    ensures k in Grouped(ms) <==> exists b :: b in ms && b.endpointName == k
  {
    if |ms| > 0 {
      var n := |ms| - 1;
      var front, last := ms[..n], ms[n];
      assert ms == front + [last];
      GroupedKeys(front, k);
    }
  }

  /** A group holds exactly the names of the records under its key. */
  lemma {:induction false} GroupedContents(ms: seq<BucketDetails>, k: string, x: string)
    requires k in Grouped(ms)
    ensures x in Grouped(ms)[k] <==> exists b :: b in ms && b.endpointName == k && b.bucket == x
  {
    var n := |ms| - 1;
    var front, last := ms[..n], ms[n];
    assert ms == front + [last];
    var before := Grouped(front);
    if k in before {
      GroupedContents(front, k, x);
    } else {
      GroupedKeys(front, k);
    }
  }

  /** No group holds a name twice. */
  lemma {:induction false} GroupedDistinct(ms: seq<BucketDetails>, k: string)
    requires k in Grouped(ms)
    ensures Distinct(Grouped(ms)[k])
  {
    var n := |ms| - 1;
    var front, last := ms[..n], ms[n];
    var before := Grouped(front);
    if k in before {
      GroupedDistinct(front, k);
    }
    if k == last.endpointName {
      var g := if k in before then before[k] else [];
      if last.bucket !in g {
        AppendNewKeepsDistinct(g, last.bucket);
      }
    }
  }

  lemma AppendNewKeepsDistinct(g: seq<string>, x: string)
    requires Distinct(g) && x !in g
    ensures Distinct(g + [x])
  {
    var h := g + [x];
    forall i, j | 0 <= i < j < |h| ensures h[i] != h[j] {
      if j == |g| {
        assert h[i] == g[i];
      }
    }
  }

  /** The second pass of `getGroupedBuckets`: every group sorted in place. */
  method SortGroups(groups: map<string, seq<string>>) returns (sorted: map<string, seq<string>>)
    ensures sorted.Keys == groups.Keys
    ensures forall k :: k in groups ==> Sorted(sorted[k]) && multiset(sorted[k]) == multiset(groups[k])
  {
    sorted := groups;
    var pending := groups.Keys;
    while pending != {}
      invariant pending <= groups.Keys
      invariant sorted.Keys == groups.Keys
      invariant forall k :: k in groups && k !in pending ==> sorted[k] == Sort(groups[k])
      invariant forall k :: k in pending ==> sorted[k] == groups[k]
      decreases |pending|
    {
      var key :| key in pending;
      sorted := sorted[key := Sort(sorted[key])];
      pending := pending - {key};
    }
  }

  /** Every record a refresh gathers comes from one of its credentials. */
  lemma GatheredAreCredentialed(hasStats: bool, creds: seq<BucketCredential>, probes: seq<BucketProbe>, order: seq<nat>)
    requires |probes| == |creds| && InRange(order, |creds|)
    ensures forall b :: b in Gather(DetailBlocks(hasStats, creds, probes), order) ==>
              exists c :: c in creds && c.bucket == b.bucket && c.endpoint == b.endpoint && c.endpointName == b.endpointName
  {
    var blocks := DetailBlocks(hasStats, creds, probes);
    forall b: BucketDetails | b in Gather(blocks, order)
      ensures exists c :: c in creds && c.bucket == b.bucket && c.endpoint == b.endpoint && c.endpointName == b.endpointName
    {
      GatherMembership(blocks, order, b);
      var j :| 0 <= j < |order| && b in blocks[order[j]];
      assert creds[order[j]] in creds;
    }
  }

  /** Restricting to one endpoint only removes names: the by-endpoint
      listing is a sub-multiset of the full listing. */
  lemma {:induction false} OnEndpointSubMultiset(bs: seq<BucketDetails>, endpoint: string)
    ensures multiset(BucketNames(OnEndpoint(bs, endpoint))) <= multiset(BucketNames(bs))
  {
    if |bs| > 0 {
      var rest := OnEndpoint(bs[1..], endpoint);
      OnEndpointSubMultiset(bs[1..], endpoint);
      var head := if bs[0].endpoint == endpoint || bs[0].endpointName == endpoint then [bs[0]] else [];
      assert OnEndpoint(bs, endpoint) == head + rest;
      NamesAppend(head, rest);
      NamesAppend([bs[0]], bs[1..]);
      assert [bs[0]] + bs[1..] == bs;
      assert multiset(BucketNames(head)) <= multiset(BucketNames([bs[0]]));
    }
  }

  lemma NamesAppend(a: seq<BucketDetails>, b: seq<BucketDetails>)
    ensures BucketNames(a + b) == BucketNames(a) + BucketNames(b)
  {
  }

  lemma ByEndpointWithinAll(p: BucketsProvider, endpoint: string, filter: Option<Filter>)
    ensures multiset(p.GetBucketsByEndpoint(endpoint, filter)) <= multiset(p.GetAllBuckets(filter))
  {
    OnEndpointSubMultiset(Matching(p.buckets, filter), endpoint);
  }

  /** In a valid catalog a bucket that can be described can also be opened:
      its credential is stored. */
  lemma InfoImpliesCredentials(p: BucketsProvider, endpoint: string, bucket: string)
    requires p.Valid()
    requires p.GetBucketInfo(endpoint, bucket).Some?
    ensures p.GetCredentialsForBucket(endpoint, bucket).Some?
  {
    var b := p.GetBucketInfo(endpoint, bucket).value;
    var i :| 0 <= i < |p.buckets| && p.buckets[i] == b;
    assert b in p.buckets;
    var c :| c in p.bucketCreds && c.bucket == b.bucket && c.endpoint == b.endpoint && c.endpointName == b.endpointName;
  }

  /** A bucket whose ACL cannot be read is left out of the catalog while its
      credential is still stored: it can be opened but not described. */
  lemma DroppedBucketKeepsCredentials(p: BucketsProvider, creds: seq<BucketCredential>, probes: seq<BucketProbe>,
                                      order: seq<nat>, i: nat)
    requires |probes| == |creds| && i < |creds| && InRange(order, |creds|)
    requires p.bucketCreds == creds && p.buckets == Gather(DetailBlocks(p.hasStats, creds, probes), order)
    requires probes[i].acl.Err?
    requires forall j :: 0 <= j < |creds| && j != i ==>
               !Locates(creds[j].bucket, creds[j].endpoint, creds[j].endpointName, creds[i].endpoint, creds[i].bucket)
    ensures p.GetBucketInfo(creds[i].endpoint, creds[i].bucket).None?
    ensures p.GetCredentialsForBucket(creds[i].endpoint, creds[i].bucket) == Some(creds[i])
  {
    var blocks := DetailBlocks(p.hasStats, creds, probes);
    forall b | b in p.buckets ensures !Locates(b.bucket, b.endpoint, b.endpointName, creds[i].endpoint, creds[i].bucket) {
      GatherMembership(blocks, order, b);
      var k :| 0 <= k < |order| && b in blocks[order[k]];
      var j := order[k];
      assert j != i;
    }
    var r := p.GetCredentialsForBucket(creds[i].endpoint, creds[i].bucket);
    assert creds[i] in creds;
    var m :| 0 <= m < |creds| && creds[m] == r.value
             && Locates(r.value.bucket, r.value.endpoint, r.value.endpointName, creds[i].endpoint, creds[i].bucket);
    assert m == i;
  }

  /** A bucket whose ACL cannot be read removes exactly its own record: the
      other buckets' records are the same as before. */
  lemma AclFailureIsolated(hasStats: bool, creds: seq<BucketCredential>, probes: seq<BucketProbe>, i: nat, e: string)
    requires |probes| == |creds| && i < |creds|
    ensures multiset(Flatten(DetailBlocks(hasStats, creds, probes[i := probes[i].(acl := Err(e))])))
            + multiset(Inspect(hasStats, creds[i], probes[i]))
         == multiset(Flatten(DetailBlocks(hasStats, creds, probes)))
  {
    var blocks := DetailBlocks(hasStats, creds, probes);
    assert DetailBlocks(hasStats, creds, probes[i := probes[i].(acl := Err(e))]) == blocks[i := []];
    FlattenReplace(blocks, i, []);
  }
}
