/** Platforms, allow rules and resolved bucket credentials, shared by the
    three credential providers, and the per-entry reading their `fromConfig`
    factories perform. */
module Platforms {
  import opened Wrappers

  datatype AccessKey = AccessKey(accessKeyId: string, secretAccessKey: string)

  /** One configured endpoint. */
  datatype Platform = Platform(endpoint: string, endpointName: string, region: string, credentials: Option<AccessKey>)

  /** A resolved bucket: where it lives and, unless access is ambient, which keys open it. */
  datatype BucketCredential = BucketCredential(
    bucket: string,
    credentials: Option<AccessKey>,
    endpoint: string,
    endpointName: string,
    region: string)

  /** An `s3.allowedBuckets` entry: bucket name patterns for one platform name. */
  datatype AllowRule = AllowRule(platform: string, buckets: seq<string>)

  /** One entry of a locator's `platforms` array; an absent key is `None`. */
  datatype PlatformEntry = PlatformEntry(
    endpoint: Option<string>,
    name: Option<string>,
    region: Option<string>,
    accessKeyId: Option<string>,
    secretAccessKey: Option<string>)

  /** The configuration reader's error for a required key that is absent. */
  function MissingKey(key: string): string {
    "Missing required config value at '" + key + "'"
  }

  /** Reads one platform entry; `withKeys` for the variants that read static
      keys (config, radosgw-admin), not for iam-role. Required keys are read
      in the order endpoint, region, accessKeyId, secretAccessKey. */
  function ReadPlatform(e: PlatformEntry, withKeys: bool): (r: Result<Platform, string>)
    ensures r.Ok? <==> e.endpoint.Some? && e.region.Some?
                       && (withKeys ==> e.accessKeyId.Some? && e.secretAccessKey.Some?)
    ensures r.Err? && e.endpoint.None? ==> r.error == MissingKey("endpoint")
    ensures r.Ok? ==> r.value.endpoint == e.endpoint.value && r.value.region == e.region.value
    ensures r.Ok? && (e.name.None? || e.name.value == "") ==> r.value.endpointName == e.endpoint.value
    ensures r.Ok? && e.name.Some? && e.name.value != "" ==> r.value.endpointName == e.name.value
    ensures r.Ok? ==> (r.value.credentials.Some? <==> withKeys)
    ensures r.Ok? && withKeys ==> r.value.credentials.value == AccessKey(e.accessKeyId.value, e.secretAccessKey.value)
  {
    if e.endpoint.None? then Err(MissingKey("endpoint"))
    else if e.region.None? then Err(MissingKey("region"))
    else if withKeys && e.accessKeyId.None? then Err(MissingKey("accessKeyId"))
    else if withKeys && e.secretAccessKey.None? then Err(MissingKey("secretAccessKey"))
    else
      var name := if e.name.Some? && e.name.value != "" then e.name.value else e.endpoint.value;
      var keys := if withKeys then Some(AccessKey(e.accessKeyId.value, e.secretAccessKey.value)) else None;
      Ok(Platform(e.endpoint.value, name, e.region.value, keys))
  }
}
