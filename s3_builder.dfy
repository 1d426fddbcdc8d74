/** The backend's assembly and its authorization gate
    (plugins/s3-viewer-backend/dist/service/S3Builder.cjs.js): the builder
    collects injected components and fills the gaps with defaults; the
    routes turn a permission decision into a bucket filter and check single
    buckets against it. HTTP handling is not modelled. */
module S3Builder {
  import opened Wrappers
  import opened BucketFilters
  import opened Catalog
  import CombinedProvider

  /** A permission decision. A conditional decision carries conditions
      that the permission framework turns into a bucket filter; that
      transformation is a parameter of the model. */
  datatype Decision<C> = Allow | Deny | Conditional(conditions: C)

  datatype RouteError = NotAllowed(message: Option<string>) | NotFound

  /** `evaluateRequest`: the decision for the single permission asked;
      a denial is an error. */
  function EvaluateRequest<C>(decision: Decision<C>): (r: Result<Decision<C>, RouteError>)
    ensures r.Err? <==> decision.Deny?
    ensures r.Err? ==> r.error == NotAllowed(Some("Unauthorized"))
    ensures r.Ok? ==> r.value == decision
  {
    if decision.Deny? then Err(NotAllowed(Some("Unauthorized"))) else Ok(decision)
  }

  /** `getBucketFilter`: only a conditional decision restricts the buckets. */
  function GetBucketFilter<C>(decision: Decision<C>, transform: C -> Filter): (r: Option<Filter>)
    ensures r.Some? <==> decision.Conditional?
    ensures r.Some? ==> r.value == transform(decision.conditions)
  {
    if decision.Conditional? then Some(transform(decision.conditions)) else None
  }

  /** `requireBucketPermission`: an unknown bucket is not found, which is
      checked before the filter; a known bucket outside the filter is not
      allowed. */
  function RequireBucketPermission<C>(catalog: BucketsProvider?, endpoint: string, bucket: string,
                                      decision: Decision<C>, transform: C -> Filter): (r: Outcome<RouteError>)
    reads catalog
    ensures catalog == null || catalog.GetBucketInfo(endpoint, bucket).None? ==> r == Fail(NotFound)
    ensures catalog != null && catalog.GetBucketInfo(endpoint, bucket).Some? ==>
              (r == Pass <==> Matches(catalog.GetBucketInfo(endpoint, bucket).value, GetBucketFilter(decision, transform)))
    ensures r.Fail? ==> r.error == NotFound || r.error == NotAllowed(None)
  {
    if catalog == null then Fail(NotFound)
    else match catalog.GetBucketInfo(endpoint, bucket)
      case None => Fail(NotFound)
      case Some(info) =>
        if !Matches(info, GetBucketFilter(decision, transform)) then Fail(NotAllowed(None)) else Pass
  }

  /** The `/bucket/:bucket` route: the same two checks inline, answering
      the record itself. */
  function BucketRoute<C>(catalog: BucketsProvider?, endpoint: string, bucket: string,
                          decision: Decision<C>, transform: C -> Filter): (r: Result<BucketDetails, RouteError>)
    reads catalog
    ensures r.Ok? ==> catalog != null && catalog.GetBucketInfo(endpoint, bucket) == Some(r.value)
  {
    if catalog == null then Err(NotFound)
    else match catalog.GetBucketInfo(endpoint, bucket)
      case None => Err(NotFound)
      case Some(info) =>
        if !Matches(info, GetBucketFilter(decision, transform)) then Err(NotAllowed(None)) else Ok(info)
  }

  /** The inline check of `/bucket/:bucket` decides exactly as
      `requireBucketPermission` does. */
  lemma BucketRouteAgrees<C>(catalog: BucketsProvider?, endpoint: string, bucket: string,
                             decision: Decision<C>, transform: C -> Filter)
    ensures var gate := RequireBucketPermission(catalog, endpoint, bucket, decision, transform);
            var route := BucketRoute(catalog, endpoint, bucket, decision, transform);
            && (gate == Pass <==> route.Ok?)
            && (gate.Fail? ==> route == Err(gate.error))
  {
  }

  /** The filter of the grouped route: the `bucketName` parameter (when
      non-empty) as a nested `allOf`, and the permission filter (when
      present), under one `allOf`. */
  function GroupedRouteFilter(bucketName: string, permissionFilter: Option<Filter>): Filter {
    var paramFilters := if bucketName != "" then [Leaf("bucket", [bucketName])] else [];
    AllOf((if |paramFilters| > 0 then [AllOf(paramFilters)] else [])
          + (if permissionFilter.Some? then [permissionFilter.value] else []))
  }

  /** A bucket passes the grouped route's filter iff it has the requested
      name (when one is given) and passes the permission filter (when
      there is one); with neither, every bucket passes. */
  lemma GroupedRouteFilterMeaning(b: BucketDetails, bucketName: string, permissionFilter: Option<Filter>)
    ensures Matches(b, Some(GroupedRouteFilter(bucketName, permissionFilter)))
        <==> (bucketName == "" || b.bucket == bucketName) && Matches(b, permissionFilter)
    ensures bucketName == "" && permissionFilter.None? ==> Matches(b, Some(GroupedRouteFilter(bucketName, permissionFilter)))
  {
    var f := GroupedRouteFilter(bucketName, permissionFilter);
    var parts := f.allOf;
    AllOfMatchesIffEvery(b, parts);
    if bucketName != "" {
      AllOfMatchesIffEvery(b, [Leaf("bucket", [bucketName])]);
      LeafMatchesIffListed(b, "bucket", [bucketName]);
      assert parts[0] == AllOf([Leaf("bucket", [bucketName])]);
      if permissionFilter.Some? {
        assert parts[1] == permissionFilter.value;
      }
    } else if permissionFilter.Some? {
      assert parts == [permissionFilter.value];
    }
  }

  /** A refresh interval or schedule length. */
  datatype Duration = Duration(milliseconds: nat)

  /** A task schedule: how often and for how long the refresh may run. */
  datatype Schedule = Schedule(frequency: Duration, timeout: Duration)

  /** The refresh schedule: the configured `s3.bucketRefreshSchedule` wins;
      otherwise a refresh interval set on the builder is used as both
      frequency and timeout; otherwise the catalog is not refreshed. */
  function ChooseSchedule(configured: Option<Schedule>, refreshInterval: Option<Duration>): (r: Option<Schedule>)
    ensures configured.Some? ==> r == configured
    ensures configured.None? && refreshInterval.Some? ==> r == Some(Schedule(refreshInterval.value, refreshInterval.value))
    ensures configured.None? && refreshInterval.None? ==> r.None?
  {
    if configured.Some? then configured
    else if refreshInterval.Some? then Some(Schedule(refreshInterval.value, refreshInterval.value))
    else None
  }

  /** Components the builder assembles, by provenance: injected ones are
      named by an identity; built ones by what they were built from. */
  datatype CredentialsSource = CombinedCredentials(provider: CombinedProvider.CombinedCredentialsProvider) | CustomCredentials(id: nat)
  datatype StatsSource = StatsSource(id: nat)
  datatype CatalogSource =
    | CreatedCatalog(credentials: CredentialsSource, stats: Option<StatsSource>, schedule: Option<Schedule>)
    | CustomCatalog(id: nat)
  /** The default client is opened on a catalog; an injected client may or
      may not accept one afterwards (`setBucketsProvider`). */
  datatype ClientSource = DefaultClient(catalog: CatalogSource) | CustomClient(id: nat, acceptsCatalog: bool)

  /** What `build` yields: no routes at all without an `s3` section, or
      the routes served by a client over a catalog. */
  datatype BuildResult =
    | EmptyRouter
    | Routes(client: ClientSource, catalog: CatalogSource, clientGivenCatalog: bool)

  class Builder {
    var refreshInterval: Option<Duration>
    var client: Option<ClientSource>
    var credentialsProvider: Option<CredentialsSource>
    var bucketsProvider: Option<CatalogSource>
    var statsProvider: Option<StatsSource>

    constructor()
      ensures refreshInterval.None? && client.None? && credentialsProvider.None?
      ensures bucketsProvider.None? && statsProvider.None?
    {
      refreshInterval := None;
      client := None;
      credentialsProvider := None;
      bucketsProvider := None;
      statsProvider := None;
    }

    method SetClient(c: ClientSource)
      modifies this
      ensures client == Some(c)
      ensures refreshInterval == old(refreshInterval) && credentialsProvider == old(credentialsProvider)
      ensures bucketsProvider == old(bucketsProvider) && statsProvider == old(statsProvider)
    {
      client := Some(c);
    }

    method SetCredentialsProvider(p: CredentialsSource)
      modifies this
      ensures credentialsProvider == Some(p)
      ensures refreshInterval == old(refreshInterval) && client == old(client)
      ensures bucketsProvider == old(bucketsProvider) && statsProvider == old(statsProvider)
    {
      credentialsProvider := Some(p);
    }

    method SetBucketsProvider(p: CatalogSource)
      modifies this
      ensures bucketsProvider == Some(p)
      ensures refreshInterval == old(refreshInterval) && client == old(client)
      ensures credentialsProvider == old(credentialsProvider) && statsProvider == old(statsProvider)
    {
      bucketsProvider := Some(p);
    }

    method SetBucketStatsProvider(p: StatsSource)
      modifies this
      ensures statsProvider == Some(p)
      ensures refreshInterval == old(refreshInterval) && client == old(client)
      ensures credentialsProvider == old(credentialsProvider) && bucketsProvider == old(bucketsProvider)
    {
      statsProvider := Some(p);
    }

    method SetRefreshInterval(d: Duration)
      modifies this
      ensures refreshInterval == Some(d)
      ensures client == old(client) && credentialsProvider == old(credentialsProvider)
      ensures bucketsProvider == old(bucketsProvider) && statsProvider == old(statsProvider)
    {
      refreshInterval := Some(d);
    }

    /** `build`. Without an `s3` section nothing is built. Otherwise the
        credentials provider is the injected one or is built from
        configuration (which may fail, and is attempted even when a catalog
        was injected); the catalog and the client are the injected ones or
        are created from the pieces before them. */
    method Build(hasS3: bool, configuredSchedule: Option<Schedule>, cfg: CombinedProvider.S3Config)
      returns (r: Result<BuildResult, string>)
      modifies this
      ensures !hasS3 ==> r == Ok(EmptyRouter)
      ensures r.Err? || !hasS3 ==>
                client == old(client) && bucketsProvider == old(bucketsProvider)
      ensures refreshInterval == old(refreshInterval) && credentialsProvider == old(credentialsProvider)
      ensures statsProvider == old(statsProvider)
      ensures hasS3 && old(credentialsProvider).Some? ==> r.Ok?
      ensures hasS3 && old(credentialsProvider).None? ==>
                && (r.Err? <==> CombinedProvider.CombinedFromConfig(cfg).Err?)
                && (r.Err? ==> r.error == CombinedProvider.CombinedFromConfig(cfg).error)
      ensures hasS3 && r.Ok? ==>
                && (old(bucketsProvider).Some? ==> bucketsProvider == old(bucketsProvider))
                && (old(bucketsProvider).None? ==>
                      bucketsProvider.Some? && bucketsProvider.value.CreatedCatalog?
                      && bucketsProvider.value.stats == statsProvider
                      && bucketsProvider.value.schedule == ChooseSchedule(configuredSchedule, refreshInterval)
                      && (old(credentialsProvider).Some? ==> bucketsProvider.value.credentials == old(credentialsProvider).value)
                      && (old(credentialsProvider).None? ==>
                            bucketsProvider.value.credentials
                            == CombinedCredentials(CombinedProvider.CombinedFromConfig(cfg).value)))
                && (old(client).Some? ==> client == old(client))
                && (old(client).None? ==> client == Some(DefaultClient(bucketsProvider.value)))
                && r.value == Routes(client.value, bucketsProvider.value,
                                     client.value.CustomClient? && client.value.acceptsCatalog)
    {
      if !hasS3 {
        return Ok(EmptyRouter);
      }
      var schedule := ChooseSchedule(configuredSchedule, refreshInterval);
      var credentials: CredentialsSource;
      if credentialsProvider.Some? {
        credentials := credentialsProvider.value;
      } else {
        var built := CombinedProvider.GetCombinedCredentialsProvider(cfg);
        if built.Err? {
          return Err(built.error);
        }
        credentials := CombinedCredentials(built.value);
      }
      if bucketsProvider.None? {
        bucketsProvider := Some(CreatedCatalog(credentials, statsProvider, schedule));
      }
      if client.None? {
        client := Some(DefaultClient(bucketsProvider.value));
      }
      var handed := client.value.CustomClient? && client.value.acceptsCatalog;
      return Ok(Routes(client.value, bucketsProvider.value, handed));
    }
  }
}
