/** The backend plugin's extension point
    (plugins/s3-viewer-backend/dist/service/plugin.cjs.js): four slots that
    other modules may each fill once before start-up, forwarded to the
    builder at initialisation. */
module ExtensionPoint {
  import opened Wrappers
  import opened S3Builder
  import CombinedProvider

  const ClientAlreadySet := "A S3 client has been already set"
  const CredentialsAlreadySet := "A credentials provider has been already set"
  const BucketsAlreadySet := "A buckets provider has been already set"
  const StatsAlreadySet := "A bucket stats provider has been already set"

  class ExtensionSlots {
    var client: Option<ClientSource>
    var credentialsProvider: Option<CredentialsSource>
    var bucketsProvider: Option<CatalogSource>
    var statsProvider: Option<StatsSource>

    constructor()
      ensures client.None? && credentialsProvider.None? && bucketsProvider.None? && statsProvider.None?
    {
      client := None;
      credentialsProvider := None;
      bucketsProvider := None;
      statsProvider := None;
    }

    /** Fills the client slot; a second call fails and changes nothing. */
    method SetClient(c: ClientSource) returns (o: Outcome<string>)
      modifies this
      ensures old(client).Some? ==> o == Fail(ClientAlreadySet) && client == old(client)
      ensures old(client).None? ==> o == Pass && client == Some(c)
      ensures credentialsProvider == old(credentialsProvider) && bucketsProvider == old(bucketsProvider)
      ensures statsProvider == old(statsProvider)
    {
      if client.Some? {
        return Fail(ClientAlreadySet);
      }
      client := Some(c);
      return Pass;
    }

    /** Fills the credentials-provider slot; a second call fails and changes nothing. */
    method SetCredentialsProvider(p: CredentialsSource) returns (o: Outcome<string>)
      modifies this
      ensures old(credentialsProvider).Some? ==> o == Fail(CredentialsAlreadySet) && credentialsProvider == old(credentialsProvider)
      ensures old(credentialsProvider).None? ==> o == Pass && credentialsProvider == Some(p)
      ensures client == old(client) && bucketsProvider == old(bucketsProvider)
      ensures statsProvider == old(statsProvider)
    {
      if credentialsProvider.Some? {
        return Fail(CredentialsAlreadySet);
      }
      credentialsProvider := Some(p);
      return Pass;
    }

    /** Fills the catalog slot; a second call fails and changes nothing. */
    method SetBucketsProvider(p: CatalogSource) returns (o: Outcome<string>)
      modifies this
      ensures old(bucketsProvider).Some? ==> o == Fail(BucketsAlreadySet) && bucketsProvider == old(bucketsProvider)
      ensures old(bucketsProvider).None? ==> o == Pass && bucketsProvider == Some(p)
      ensures client == old(client) && credentialsProvider == old(credentialsProvider)
      ensures statsProvider == old(statsProvider)
    {
      if bucketsProvider.Some? {
        return Fail(BucketsAlreadySet);
      }
      bucketsProvider := Some(p);
      return Pass;
    }

    /** Fills the statistics slot; a second call fails and changes nothing. */
    method SetBucketStatsProvider(p: StatsSource) returns (o: Outcome<string>)
      modifies this
      ensures old(statsProvider).Some? ==> o == Fail(StatsAlreadySet) && statsProvider == old(statsProvider)
      ensures old(statsProvider).None? ==> o == Pass && statsProvider == Some(p)
      ensures client == old(client) && credentialsProvider == old(credentialsProvider)
      ensures bucketsProvider == old(bucketsProvider)
    {
      if statsProvider.Some? {
        return Fail(StatsAlreadySet);
      }
      statsProvider := Some(p);
      return Pass;
    }

    /** The first half of `init`: a new builder receiving exactly the
        filled slots. */
    method Configure() returns (builder: Builder)
      ensures fresh(builder)
      ensures builder.client == client && builder.credentialsProvider == credentialsProvider
      ensures builder.bucketsProvider == bucketsProvider && builder.statsProvider == statsProvider
      ensures builder.refreshInterval.None?
    {
      builder := new Builder();
      if client.Some? {
        builder.SetClient(client.value);
      }
      if credentialsProvider.Some? {
        builder.SetCredentialsProvider(credentialsProvider.value);
      }
      if bucketsProvider.Some? {
        builder.SetBucketsProvider(bucketsProvider.value);
      }
      if statsProvider.Some? {
        builder.SetBucketStatsProvider(statsProvider.value);
      }
    }

    /** `init`: builds the routes from the filled slots, with defaults for
        the empty ones. An injected client or catalog is the one served; an
        injected credentials provider spares the configuration from being
        read for one, so the build cannot fail. */
    method Init(hasS3: bool, configuredSchedule: Option<Schedule>, cfg: CombinedProvider.S3Config)
      returns (r: Result<BuildResult, string>)
      ensures !hasS3 ==> r == Ok(EmptyRouter)
      ensures hasS3 && credentialsProvider.Some? ==> r.Ok?
      ensures hasS3 && credentialsProvider.None? ==>
                && (r.Err? <==> CombinedProvider.CombinedFromConfig(cfg).Err?)
                && (r.Err? ==> r.error == CombinedProvider.CombinedFromConfig(cfg).error)
      ensures hasS3 && r.Ok? ==>
                && r.value.Routes?
                && (bucketsProvider.Some? ==> r.value.catalog == bucketsProvider.value)
                && (bucketsProvider.None? ==>
                      r.value.catalog.CreatedCatalog?
                      && r.value.catalog.stats == statsProvider
                      && r.value.catalog.schedule == configuredSchedule
                      && (credentialsProvider.Some? ==> r.value.catalog.credentials == credentialsProvider.value)
                      && (credentialsProvider.None? ==>
                            r.value.catalog.credentials
                            == CombinedCredentials(CombinedProvider.CombinedFromConfig(cfg).value)))
                && (client.Some? ==> r.value.client == client.value)
                && (client.None? ==> r.value.client == DefaultClient(r.value.catalog))
    {
      var builder := Configure();
      r := builder.Build(hasS3, configuredSchedule, cfg);
    }
  }
}
