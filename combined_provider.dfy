/** The credential provider the backend actually uses: one provider per
    `s3.bucketLocatorMethods` entry, all sharing one allow list read from
    `s3.allowedBuckets`, queried together
    (plugins/s3-viewer-backend/dist/credentials-provider/index.cjs.js). */
module CombinedProvider {
  import opened Wrappers
  import opened Seqs
  import opened Platforms
  import opened AllowList
  import LP = ListingProviders
  import RG = RadosGwProvider

  /** One configured bucket locator. */
  datatype Locator =
    | ConfigLocator(listing: LP.ListingProvider)
    | RadosGwLocator(admin: RG.RadosGwCredentialsProvider)
    | IamRoleLocator(listing: LP.ListingProvider)
  {
    function AllowedBuckets(): seq<AllowRule> {
      match this
      case ConfigLocator(l) => l.allowedBuckets
      case RadosGwLocator(a) => a.allowedBuckets
      case IamRoleLocator(l) => l.allowedBuckets
    }
  }

  datatype CombinedCredentialsProvider = CombinedCredentialsProvider(providers: seq<Locator>)

  /** An `s3.allowedBuckets` entry as configured; absent keys are `None`. */
  datatype AllowEntry = AllowEntry(platform: Option<string>, buckets: Option<seq<string>>)

  /** An `s3.bucketLocatorMethods` entry as configured. */
  datatype LocatorEntry = LocatorEntry(kind: Option<string>, platforms: Option<seq<PlatformEntry>>)

  /** The `s3` configuration section, as far as credential lookup reads it. */
  datatype S3Config = S3Config(allowedBuckets: Option<seq<AllowEntry>>, bucketLocatorMethods: Option<seq<LocatorEntry>>)

  function ReadAllowEntry(e: AllowEntry): (r: Result<AllowRule, string>)
    ensures r.Ok? <==> e.platform.Some? && e.buckets.Some?
    ensures r.Ok? ==> r.value == AllowRule(e.platform.value, e.buckets.value)
  {
    if e.platform.None? then Err(MissingKey("platform"))
    else if e.buckets.None? then Err(MissingKey("buckets"))
    else Ok(AllowRule(e.platform.value, e.buckets.value))
  }

  /** The allow list: one rule per `s3.allowedBuckets` entry, in order, and
      none when the section is absent. */
  function AllowListOf(entries: Option<seq<AllowEntry>>): (r: Result<seq<AllowRule>, string>)
    ensures entries.None? ==> r == Ok([])
    ensures entries.Some? ==> (r.Ok? <==> forall i :: 0 <= i < |entries.value| ==> ReadAllowEntry(entries.value[i]).Ok?)
    ensures r.Ok? && entries.Some? ==>
              |r.value| == |entries.value|
              && forall i :: 0 <= i < |entries.value| ==>
                   r.value[i] == AllowRule(entries.value[i].platform.value, entries.value[i].buckets.value)
  {
    if entries.None? then Ok([]) else MapResults(entries.value, ReadAllowEntry)
  }

  /** The `forEach` that pushes one rule per entry into `allowedBuckets`. */
  method CollectAllowedBuckets(entries: Option<seq<AllowEntry>>) returns (r: Result<seq<AllowRule>, string>)
    ensures r == AllowListOf(entries)
  {
    if entries.None? {
      return Ok([]);
    }
    var es := entries.value;
    var rules: seq<AllowRule> := [];
    var i := 0;
    while i < |es|
      invariant 0 <= i <= |es|
      invariant |rules| == i
      invariant forall j :: 0 <= j < i ==> ReadAllowEntry(es[j]) == Ok(rules[j])
    {
      match ReadAllowEntry(es[i]) {
        case Err(e) =>
          ghost var m := MapResults(es, ReadAllowEntry);
          ghost var f :| 0 <= f < |es| && ReadAllowEntry(es[f]) == Err(m.error) && forall j :: 0 <= j < f ==> ReadAllowEntry(es[j]).Ok?;
          assert f == i;
          return Err(e);
        case Ok(rule) =>
          rules := rules + [rule];
      }
      i := i + 1;
    }
    assert MapResults(es, ReadAllowEntry).Ok?;
    assert rules == MapResults(es, ReadAllowEntry).value;
    return Ok(rules);
  }

  function Unsupported(kind: string): string {
    "Unsupported s3.bucketLocatorMethods: \"" + kind + "\""
  }

  /** The locator-type switch: `config`, `radosgw-admin` and `iam-role` build
      the matching provider around the shared allow list; any other type is
      rejected. */
  function ReadLocator(e: LocatorEntry, allowed: seq<AllowRule>): (r: Result<Locator, string>)
    ensures e.kind.None? ==> r == Err(MissingKey("type"))
    ensures e.kind.Some? && e.kind.value !in {"config", "radosgw-admin", "iam-role"} ==> r == Err(Unsupported(e.kind.value))
    ensures r.Ok? ==> r.value.AllowedBuckets() == allowed
    ensures e.kind == Some("config") ==>
              var p := LP.FromConfig(LP.StaticKeys, e.platforms, allowed);
              && (r.Ok? <==> p.Ok?)
              && (r.Ok? ==> r.value == ConfigLocator(p.value) && r.value.listing.kind == LP.StaticKeys)
              && (r.Err? ==> r.error == p.error)
    ensures e.kind == Some("radosgw-admin") ==>
              var p := RG.FromConfig(e.platforms, allowed);
              && (r.Ok? <==> p.Ok?)
              && (r.Ok? ==> r.value == RadosGwLocator(p.value))
              && (r.Err? ==> r.error == p.error)
    ensures e.kind == Some("iam-role") ==>
              var p := LP.FromConfig(LP.IamRole, e.platforms, allowed);
              && (r.Ok? <==> p.Ok?)
              && (r.Ok? ==> r.value == IamRoleLocator(p.value) && r.value.listing.kind == LP.IamRole)
              && (r.Err? ==> r.error == p.error)
  {
    if e.kind.None? then Err(MissingKey("type"))
    else if e.kind.value == "config" then
      match LP.FromConfig(LP.StaticKeys, e.platforms, allowed)
      case Err(err) => Err(err)
      case Ok(p) => Ok(ConfigLocator(p))
    else if e.kind.value == "radosgw-admin" then
      match RG.FromConfig(e.platforms, allowed)
      case Err(err) => Err(err)
      case Ok(p) => Ok(RadosGwLocator(p))
    else if e.kind.value == "iam-role" then
      match LP.FromConfig(LP.IamRole, e.platforms, allowed)
      case Err(err) => Err(err)
      case Ok(p) => Ok(IamRoleLocator(p))
    else Err(Unsupported(e.kind.value))
  }

  /** What `getCombinedCredentialsProvider` builds from the `s3` section:
      the allow list, then one provider per locator entry in order, every
      one of them given that allow list; the first failure otherwise. */
  function CombinedFromConfig(cfg: S3Config): (r: Result<CombinedCredentialsProvider, string>)
    ensures AllowListOf(cfg.allowedBuckets).Err? ==> r == Err(AllowListOf(cfg.allowedBuckets).error)
    ensures AllowListOf(cfg.allowedBuckets).Ok? && cfg.bucketLocatorMethods.None? ==>
              r == Err(MissingKey("s3.bucketLocatorMethods"))
    ensures r.Ok? ==> AllowListOf(cfg.allowedBuckets).Ok? && cfg.bucketLocatorMethods.Some?
    ensures r.Ok? ==>
              var allowed := AllowListOf(cfg.allowedBuckets).value;
              var locators := cfg.bucketLocatorMethods.value;
              && |r.value.providers| == |locators|
              && forall i :: 0 <= i < |locators| ==> ReadLocator(locators[i], allowed) == Ok(r.value.providers[i])
    ensures AllowListOf(cfg.allowedBuckets).Ok? && cfg.bucketLocatorMethods.Some? ==>
              var allowed := AllowListOf(cfg.allowedBuckets).value;
              (r.Ok? <==> forall i :: 0 <= i < |cfg.bucketLocatorMethods.value| ==>
                            ReadLocator(cfg.bucketLocatorMethods.value[i], allowed).Ok?)
  {
    match AllowListOf(cfg.allowedBuckets)
    case Err(e) => Err(e)
    case Ok(rules) =>
      if cfg.bucketLocatorMethods.None? then Err(MissingKey("s3.bucketLocatorMethods"))
      else
        match MapResults(cfg.bucketLocatorMethods.value, (e: LocatorEntry) => ReadLocator(e, rules))
        case Err(e) => Err(e)
        case Ok(providers) => Ok(CombinedCredentialsProvider(providers))
  }

  /** `getCombinedCredentialsProvider`: collects the allow list with its
      `forEach`, then reads the locators. */
  method GetCombinedCredentialsProvider(cfg: S3Config) returns (r: Result<CombinedCredentialsProvider, string>)
    ensures r == CombinedFromConfig(cfg)
  {
    var allowed := CollectAllowedBuckets(cfg.allowedBuckets);
    if allowed.Err? {
      return Err(allowed.error);
    }
    if cfg.bucketLocatorMethods.None? {
      return Err(MissingKey("s3.bucketLocatorMethods"));
    }
    var rules := allowed.value;
    match MapResults(cfg.bucketLocatorMethods.value, (e: LocatorEntry) => ReadLocator(e, rules)) {
      case Err(e) => r := Err(e);
      case Ok(providers) => r := Ok(CombinedCredentialsProvider(providers));
    }
  }

  /** Every provider of a combined provider built from configuration uses
      the one allow list read from `s3.allowedBuckets`. */
  lemma SharedAllowList(cfg: S3Config, c: CombinedCredentialsProvider)
    requires CombinedFromConfig(cfg) == Ok(c)
    ensures forall i :: 0 <= i < |c.providers| ==> c.providers[i].AllowedBuckets() == AllowListOf(cfg.allowedBuckets).value
  {
  }

  /** `Promise.all(...).then(res => res.flat())`: every result concatenated
      in provider order, or the first failure in provider order. */
  function Combine(results: seq<Result<seq<BucketCredential>, string>>): (r: Result<seq<BucketCredential>, string>)
    ensures r.Ok? <==> forall i :: 0 <= i < |results| ==> results[i].Ok?
    ensures r.Ok? ==> r.value == Flatten(seq(|results|, i requires 0 <= i < |results| => results[i].value))
    ensures r.Err? ==> exists i :: 0 <= i < |results| && results[i] == r && forall j :: 0 <= j < i ==> results[j].Ok?
  {
    if |results| == 0 then Ok([])
    else
      var n := |results| - 1;
      var front := results[..n];
      var prev := Combine(front);
      assert forall j :: 0 <= j < n ==> front[j] == results[j];
      if prev.Err? then prev
      else match results[n]
        case Err(e) => Err(e)
        case Ok(v) =>
          var values := seq(|results|, i requires 0 <= i < |results| => results[i].value);
          assert values == seq(n, i requires 0 <= i < n => front[i].value) + [v];
          FlattenSnoc(seq(n, i requires 0 <= i < n => front[i].value), v);
          Ok(prev.value + v)
  }

  /** What a locator needs to answer: its platforms' listings, or their
      admin APIs, and the order in which its platforms complete. */
  datatype LocatorInput =
    | ListingInput(listings: seq<Result<ListBucketsOutput, string>>, order: seq<nat>)
    | AdminInput(apis: seq<AdminApiAlias>, order: seq<nat>)

  type AdminApiAlias = RG.AdminApi

  ghost predicate Fits(loc: Locator, input: LocatorInput) {
    match loc
    case ConfigLocator(l) => input.ListingInput? && |input.listings| == |l.platforms| && IsSchedule(input.order, |l.platforms|)
    case IamRoleLocator(l) => input.ListingInput? && |input.listings| == |l.platforms| && IsSchedule(input.order, |l.platforms|)
    case RadosGwLocator(a) => input.AdminInput? && |input.apis| == |a.platforms| && IsSchedule(input.order, |a.platforms|)
  }

  /** What one locator's `getBucketCredentials` resolves to. */
  ghost function LocatorResult(loc: Locator, input: LocatorInput, rx: Regex): seq<BucketCredential>
    requires Fits(loc, input)
  {
    match loc
    case ConfigLocator(l) =>
      ScheduleInRange(input.order, |l.platforms|);
      Gather(LP.Blocks(l, input.listings, rx), input.order)
    case IamRoleLocator(l) =>
      ScheduleInRange(input.order, |l.platforms|);
      Gather(LP.Blocks(l, input.listings, rx), input.order)
    case RadosGwLocator(a) =>
      ScheduleInRange(input.order, |a.platforms|);
      Gather(RG.Blocks(a, input.apis, rx), input.order)
  }

  /** One locator's `getBucketCredentials`. */
  method Query(loc: Locator, input: LocatorInput, rx: Regex) returns (creds: seq<BucketCredential>)
    requires Fits(loc, input)
    ensures creds == LocatorResult(loc, input, rx)
  {
    match loc {
      case ConfigLocator(l) =>
        creds := LP.GetBucketCredentials(l, input.listings, input.order, rx);
      case IamRoleLocator(l) =>
        creds := LP.GetBucketCredentials(l, input.listings, input.order, rx);
      case RadosGwLocator(a) =>
        creds := RG.GetBucketCredentials(a, input.apis, input.order, rx);
    }
  }

  /** Every locator's result, in locator order. */
  ghost function LocatorResults(c: CombinedCredentialsProvider, inputs: seq<LocatorInput>, rx: Regex): (r: seq<seq<BucketCredential>>)
    requires |inputs| == |c.providers|
    requires forall i :: 0 <= i < |inputs| ==> Fits(c.providers[i], inputs[i])
    ensures |r| == |inputs|
  {
    seq(|inputs|, i requires 0 <= i < |inputs| => LocatorResult(c.providers[i], inputs[i], rx))
  }

  /** Every part as a successful result. */
  function Successes(parts: seq<seq<BucketCredential>>): (r: seq<Result<seq<BucketCredential>, string>>)
    ensures |r| == |parts|
  {
    seq(|parts|, i requires 0 <= i < |parts| => Ok(parts[i]))
  }

  /** When every provider succeeds, their results are concatenated. */
  lemma CombineSuccesses(parts: seq<seq<BucketCredential>>)
    ensures Combine(Successes(parts)) == Ok(Flatten(parts))
  {
    var rs := Successes(parts);
    assert seq(|rs|, i requires 0 <= i < |rs| => rs[i].value) == parts;
  }

  /** `CombinedCredentialsProvider.getBucketCredentials`: each locator's
      entries, concatenated in locator order. The three locators catch
      every failure of their own, so the combined call always succeeds. */
  method GetBucketCredentials(c: CombinedCredentialsProvider, inputs: seq<LocatorInput>, rx: Regex)
    returns (r: Result<seq<BucketCredential>, string>)
    requires |inputs| == |c.providers|
    requires forall i :: 0 <= i < |inputs| ==> Fits(c.providers[i], inputs[i])
    ensures r == Ok(Flatten(LocatorResults(c, inputs, rx)))
  {
    var results: seq<Result<seq<BucketCredential>, string>> := [];
    ghost var parts := LocatorResults(c, inputs, rx);
    var i := 0;
    while i < |inputs|
      invariant 0 <= i <= |inputs|
      invariant results == Successes(parts)[..i]
    {
      var creds := Query(c.providers[i], inputs[i], rx);
      assert creds == parts[i];
      results := results + [Ok(creds)];
      assert results == Successes(parts)[..i + 1];
      i := i + 1;
    }
    assert results == Successes(parts);
    CombineSuccesses(parts);
    r := Combine(results);
  }

  /** The first provider to fail, in provider order, fails the combined call
      with its own error; nothing is combined from the others. */
  lemma FirstFailureWins(results: seq<Result<seq<BucketCredential>, string>>, i: nat)
    requires i < |results| && results[i].Err?
    requires forall j :: 0 <= j < i ==> results[j].Ok?
    ensures Combine(results) == results[i]
  {
    var r := Combine(results);
    var f :| 0 <= f < |results| && results[f] == r && forall j :: 0 <= j < f ==> results[j].Ok?;
    assert f == i;
  }
}
