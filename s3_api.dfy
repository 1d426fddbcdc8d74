/** The S3 API wrapper the routes use to browse a bucket
    (plugins/s3-viewer-backend/dist/service/S3Api.cjs.js): it opens a client
    with the credential the catalog stored for the bucket and shapes the
    answers of `listObjects` and `headObject`. Those two S3 calls are not
    modelled: their answers are parameters. */
module S3Api {
  import opened Wrappers
  import opened Platforms
  import opened Text
  import opened BucketFilters
  import opened Catalog

  /** How a client is opened: keys, endpoint and region of the stored credential. */
  datatype ClientConfig = ClientConfig(credentials: Option<AccessKey>, endpoint: string, region: string)

  /** An error of the S3 SDK, its status code and code as text. */
  datatype S3Error = S3Error(statusCode: string, code: string)

  datatype ListObjectsRequest = ListObjectsRequest(
    bucket: string, maxKeys: nat, marker: Option<string>, prefix: string, delimiter: string)

  datatype CommonPrefix = CommonPrefix(prefix: Option<string>)
  datatype ObjectSummary = ObjectSummary(key: Option<string>)

  datatype ListObjectsOutput = ListObjectsOutput(
    commonPrefixes: Option<seq<CommonPrefix>>,
    contents: Option<seq<ObjectSummary>>,
    isTruncated: bool,
    nextMarker: Option<string>)

  datatype KeyEntry = KeyEntry(name: string, isFolder: bool)

  /** A page of keys; `totalBucketObjects` is `None` where the source yields NaN. */
  datatype KeyListing = KeyListing(totalBucketObjects: Option<int>, keys: seq<KeyEntry>, next: Option<string>)

  datatype HeadObjectOutput = HeadObjectOutput(eTag: Option<string>, contentLength: Option<int>, contentType: Option<string>)

  datatype ObjectInfo = ObjectInfo(
    name: string, bucket: string, etag: string, contentLength: Option<int>, contentType: string, downloadName: string)

  /** `s.substring(n)` for `n >= 0`: empty once `n` passes the end. */
  function Drop(s: string, n: nat): (r: string)
    ensures n <= |s| ==> r == s[n..]
    ensures n > |s| ==> r == ""
  {
    if n <= |s| then s[n..] else ""
  }

  /** Stripping the folder from a key inside it loses nothing. */
  lemma StripFolderRestores(folder: string, key: string)
    requires |folder| <= |key| && key[..|folder|] == folder
    ensures folder + Drop(key, |folder|) == key
  {
  }

  /** Folder entries: the common prefixes relative to `folder`, empty ones dropped. */
  function FolderEntries(prefixes: seq<CommonPrefix>, folder: string): seq<KeyEntry>
  {
    if |prefixes| == 0 then []
    else
      var name := if prefixes[0].prefix.Some? then Drop(prefixes[0].prefix.value, |folder|) else "";
      (if name != "" then [KeyEntry(name, true)] else []) + FolderEntries(prefixes[1..], folder)
  }

  /** A folder entry is listed iff some common prefix, made relative to
      `folder`, is its non-empty name. */
  lemma {:induction false} FolderEntriesMembership(prefixes: seq<CommonPrefix>, folder: string, e: KeyEntry)
    ensures e in FolderEntries(prefixes, folder) <==>
              e.isFolder && e.name != ""
              && exists p :: p in prefixes && p.prefix.Some? && Drop(p.prefix.value, |folder|) == e.name
  {
    if |prefixes| > 0 {
      FolderEntriesMembership(prefixes[1..], folder, e);
      assert forall p :: p in prefixes <==> p == prefixes[0] || p in prefixes[1..];
    }
  }

  /** The file entry pushed for one object: one when its key is present
      and non-empty, relative to `folder` (the name itself may come out
      empty), none otherwise. */
  function FileEntry(c: ObjectSummary, folder: string): seq<KeyEntry> {
    if c.key.Some? && c.key.value != "" then [KeyEntry(Drop(c.key.value, |folder|), false)] else []
  }

  /** File entries: the entries of the objects, in listed order. */
  function FileEntries(contents: seq<ObjectSummary>, folder: string): seq<KeyEntry> {
    if |contents| == 0 then []
    else FileEntry(contents[0], folder) + FileEntries(contents[1..], folder)
  }

  /** A file entry is listed iff some object has a non-empty key that, made
      relative to `folder`, is its name; that name may be empty. */
  lemma {:induction false} FileEntriesMembership(contents: seq<ObjectSummary>, folder: string, e: KeyEntry)
    ensures e in FileEntries(contents, folder) <==>
              !e.isFolder && exists c :: c in contents && c.key.Some? && c.key.value != "" && Drop(c.key.value, |folder|) == e.name
  {
    if |contents| > 0 {
      FileEntriesMembership(contents[1..], folder, e);
      assert forall x :: x in contents <==> x == contents[0] || x in contents[1..];
    }
  }

  /** The catalog's object count (NaN for an unknown bucket), replaced by the
      page's key count when it is 0, plus one when the listing is truncated. */
  function Total(info: Option<BucketDetails>, keyCount: nat, truncated: bool): (r: Option<int>)
    ensures info.None? <==> r.None?
    ensures info.Some? && info.value.objects != 0 ==> r == Some(info.value.objects + (if truncated then 1 else 0))
    ensures info.Some? && info.value.objects == 0 ==> r == Some(keyCount + (if truncated then 1 else 0))
  {
    var total := if info.None? then None else if info.value.objects == 0 then Some(keyCount) else Some(info.value.objects);
    if truncated && total.Some? then Some(total.value + 1) else total
  }

  /** The total as the source computes it: NaN (`None`) for an unknown
      bucket, the key count in place of 0, then one more if truncated. */
  method TotalObjects(info: Option<BucketDetails>, keyCount: nat, truncated: bool) returns (total: Option<int>)
    ensures total == Total(info, keyCount, truncated)
  {
    total := if info.None? then None else Some(info.value.objects);
    if total == Some(0) {
      total := Some(keyCount);
    }
    if truncated && total.Some? {
      total := Some(total.value + 1);
    }
  }

  function Etag(raw: Option<string>): (r: string)
    ensures '"' !in r
    ensures raw.None? ==> r == ""
    ensures raw.Some? ==> forall d :: d != '"' ==> multiset(r)[d] == multiset(raw.value)[d]
  {
    if raw.None? then "" else Without(raw.value, '"')
  }

  /** An etag quoted the way S3 sends it comes back as the bare text. */
  lemma EtagUnquotes(tag: string)
    requires '"' !in tag
    ensures Etag(Some("\"" + tag + "\"")) == tag
  {
    WithoutDistributes("\"" + tag, "\"", '"');
    WithoutDistributes("\"", tag, '"');
    WithoutSingle('"', '"');
  }

  /** `key.split("/").pop() || key`. */
  function DownloadName(key: string): (r: string)
  {
    var parts := Split(key, '/');
    var last := parts[|parts| - 1];
    if last == "" then key else last
  }

  /** The download name is the text after the key's last `/`, or the whole
      key when that text is empty or there is no `/`. */
  lemma DownloadNameMeaning(key: string)
    ensures NameAfterLastSlash(key, DownloadName(key))
  {
    SplitLast(key, '/');
    var parts := Split(key, '/');
    LastPieceName(key, parts[|parts| - 1]);
  }

  /** `r` is what the download name should be for `key`. */
  predicate NameAfterLastSlash(key: string, r: string) {
    && |r| <= |key| && key[|key| - |r|..] == r
    && (key == "" || EndsWith(key, '/') || '/' !in key ==> r == key)
    && (key != "" && !EndsWith(key, '/') ==> '/' !in r)
    && (key != "" && !EndsWith(key, '/') && '/' in key ==> key[|key| - |r| - 1] == '/' && |r| < |key|)
  }

  /** The last piece, or the key when that piece is empty, is the name after
      the last `/`. */
  lemma LastPieceName(key: string, last: string)
    requires IsLastPiece(key, last, '/') && '/' !in last
    ensures NameAfterLastSlash(key, if last == "" then key else last)
  {
    if last == "" && |key| > 0 {
      assert key[|key| - 1] == '/';
    }
  }

  /** The entries of one page: folders first, then files. */
  function PageKeys(out: ListObjectsOutput, folder: string): seq<KeyEntry> {
    (if out.commonPrefixes.None? then [] else FolderEntries(out.commonPrefixes.value, folder))
    + (if out.contents.None? then [] else FileEntries(out.contents.value, folder))
  }

  /** The page answered for a successful listing. */
  function Page(info: Option<BucketDetails>, out: ListObjectsOutput, folder: string): KeyListing {
    var keys := PageKeys(out, folder);
    KeyListing(Total(info, |keys|, out.isTruncated), keys, out.nextMarker)
  }

  class S3Client {
    const bucketsProvider: BucketsProvider

    constructor(bucketsProvider: BucketsProvider)
      ensures this.bucketsProvider == bucketsProvider
    {
      this.bucketsProvider := bucketsProvider;
    }

    /** `getS3Client`: a client for the stored credential of the bucket on
        that endpoint, which is opened at the credential's own endpoint and
        region; no stored credential is an error naming the lookup. */
    function GetS3Client(endpoint: string, bucket: string): (r: Result<ClientConfig, string>)
      reads bucketsProvider
      ensures r.Err? <==> bucketsProvider.GetCredentialsForBucket(endpoint, bucket).None?
      ensures r.Err? ==> r.error == "No credentials stored for " + endpoint + "/" + bucket
      ensures r.Ok? ==>
                var c := bucketsProvider.GetCredentialsForBucket(endpoint, bucket).value;
                && c.bucket == bucket && (c.endpoint == endpoint || c.endpointName == endpoint)
                && r.value == ClientConfig(c.credentials, c.endpoint, c.region)
    {
      match bucketsProvider.GetCredentialsForBucket(endpoint, bucket)
      case None => Err("No credentials stored for " + endpoint + "/" + bucket)
      case Some(c) => Ok(ClientConfig(c.credentials, c.endpoint, c.region))
    }

    /** `listBucketKeys`: one page of the keys under `folder + prefix`, folders
        first, then files, with the bucket's total object count. */
    method ListBucketKeys(endpoint: string, bucket: string, continuationToken: Option<string>, pageSize: nat,
                          folder: string, prefix: string,
                          listObjects: (ClientConfig, ListObjectsRequest) -> Result<ListObjectsOutput, S3Error>)
      returns (r: Result<KeyListing, string>)
      ensures GetS3Client(endpoint, bucket).Err? ==> r == Err(GetS3Client(endpoint, bucket).error)
      ensures GetS3Client(endpoint, bucket).Ok? ==>
                var out := listObjects(GetS3Client(endpoint, bucket).value,
                                       ListObjectsRequest(bucket, pageSize, continuationToken, folder + prefix, "/"));
                && (out.Err? ==> r == Err("Error listing keys: " + out.error.statusCode + " " + out.error.code))
                && (out.Ok? ==> r == Ok(Page(bucketsProvider.GetBucketInfo(endpoint, bucket), out.value, folder)))
    {
      var client := GetS3Client(endpoint, bucket);
      if client.Err? {
        return Err(client.error);
      }
      var info := bucketsProvider.GetBucketInfo(endpoint, bucket);
      var request := ListObjectsRequest(bucket, pageSize, continuationToken, folder + prefix, "/");
      var output := listObjects(client.value, request);
      if output.Err? {
        return Err("Error listing keys: " + output.error.statusCode + " " + output.error.code);
      }
      var out := output.value;
      var keys := CollectKeys(out, folder);
      var total := TotalObjects(info, |keys|, out.isTruncated);
      return Ok(KeyListing(total, keys, out.nextMarker));
    }

    /** `headObject`: the object's metadata, with the etag unquoted, the
        content type defaulting to `""` and the download name taken from the
        key. */
    function HeadObject(endpoint: string, bucket: string, key: string,
                        headObject: (ClientConfig, string, string) -> Result<HeadObjectOutput, S3Error>): (r: Result<ObjectInfo, string>)
      reads bucketsProvider
      ensures GetS3Client(endpoint, bucket).Err? ==> r == Err(GetS3Client(endpoint, bucket).error)
      ensures GetS3Client(endpoint, bucket).Ok? && headObject(GetS3Client(endpoint, bucket).value, bucket, key).Err? ==>
                var e := headObject(GetS3Client(endpoint, bucket).value, bucket, key).error;
                r == Err("Error fetching object: " + e.statusCode + " " + e.code)
      ensures r.Ok? <==> GetS3Client(endpoint, bucket).Ok? && headObject(GetS3Client(endpoint, bucket).value, bucket, key).Ok?
      ensures r.Ok? ==>
                var out := headObject(GetS3Client(endpoint, bucket).value, bucket, key).value;
                && r.value.name == key && r.value.bucket == bucket
                && r.value.etag == Etag(out.eTag)
                && r.value.contentLength == out.contentLength
                && (out.contentType.Some? ==> r.value.contentType == out.contentType.value)
                && (out.contentType.None? ==> r.value.contentType == "")
                && r.value.downloadName == DownloadName(key)
    {
      match GetS3Client(endpoint, bucket)
      case Err(e) => Err(e)
      case Ok(client) =>
        match headObject(client, bucket, key)
        case Err(e) => Err("Error fetching object: " + e.statusCode + " " + e.code)
        case Ok(out) =>
          Ok(ObjectInfo(key, bucket, Etag(out.eTag), out.contentLength, out.contentType.GetOr(""), DownloadName(key)))
    }
  }

  /** The entries of one page: the folder entries, then a file entry
      pushed for each object with a key. */
  method CollectKeys(out: ListObjectsOutput, folder: string) returns (keys: seq<KeyEntry>)
    ensures keys == PageKeys(out, folder)
  {
    keys := if out.commonPrefixes.None? then [] else FolderEntries(out.commonPrefixes.value, folder);
    if out.contents.Some? {
      keys := PushFileEntries(keys, out.contents.value, folder);
    }
  }

  /** The `forEach` over the objects: pushes the file entry of each one
      with a non-empty key, in order. */
  method PushFileEntries(start: seq<KeyEntry>, contents: seq<ObjectSummary>, folder: string) returns (keys: seq<KeyEntry>)
    ensures keys == start + FileEntries(contents, folder)
  {
    keys := start;
    var i := 0;
    while i < |contents|
      invariant 0 <= i <= |contents|
      invariant keys == start + FileEntries(contents[..i], folder)
    {
      var c := contents[i];
      PushStep(start, keys, contents, i, folder);
      if c.key.Some? && c.key.value != "" {
        keys := keys + [KeyEntry(Drop(c.key.value, |folder|), false)];
      }
      i := i + 1;
    }
    assert contents[..i] == contents;
  }

  /** One step of the loop: pushing the next object's entry extends the
      entries of the objects seen so far by one object. */
  lemma PushStep(start: seq<KeyEntry>, keys: seq<KeyEntry>, contents: seq<ObjectSummary>, i: nat, folder: string)
    requires i < |contents| && keys == start + FileEntries(contents[..i], folder)
    ensures keys + FileEntry(contents[i], folder) == start + FileEntries(contents[..i + 1], folder)
  {
    FileEntriesSnoc(contents[..i], contents[i], folder);
    assert contents[..i + 1] == contents[..i] + [contents[i]];
  }

  /** Appending an object summary appends its file entry, if any. */
  lemma {:induction false} FileEntriesSnoc(contents: seq<ObjectSummary>, c: ObjectSummary, folder: string)
    ensures FileEntries(contents + [c], folder) == FileEntries(contents, folder) + FileEntry(c, folder)
  {
    if |contents| == 0 {
      assert contents + [c] == [c];
      assert FileEntries([c], folder) == FileEntry(c, folder) + FileEntries([], folder);
    } else {
      assert (contents + [c])[0] == contents[0];
      assert (contents + [c])[1..] == contents[1..] + [c];
      FileEntriesSnoc(contents[1..], c, folder);
    }
  }

  /** Every folder entry of a page comes before every file entry. */
  lemma FoldersPrecedeFiles(prefixes: seq<CommonPrefix>, contents: seq<ObjectSummary>, folder: string)
    ensures var n := |FolderEntries(prefixes, folder)|;
            var keys := FolderEntries(prefixes, folder) + FileEntries(contents, folder);
            && (forall i :: 0 <= i < n ==> keys[i].isFolder)
            && (forall j :: n <= j < |keys| ==> !keys[j].isFolder)
  {
    var folders := FolderEntries(prefixes, folder);
    var files := FileEntries(contents, folder);
    var keys := folders + files;
    forall i | 0 <= i < |folders| ensures keys[i].isFolder {
      assert folders[i] in folders;
      FolderEntriesMembership(prefixes, folder, folders[i]);
    }
    forall j | |folders| <= j < |keys| ensures !keys[j].isFolder {
      assert files[j - |folders|] in files;
      FileEntriesMembership(contents, folder, files[j - |folders|]);
    }
  }
}
