/** Path helpers of the frontend (plugins/s3-viewer/dist/utils.esm.js):
    the browsing location is a `dir` string whose trailing `/` marks a
    folder, and an entity annotation has the form `bucket:path`. */
module UrlDirs {
  import opened Text

  /** `getPathFromUrlDir`: the object a location names, or "" when it
      names a folder (or nothing). */
  function GetPathFromUrlDir(dir: string): (r: string)
    ensures r == "" || r == dir
    ensures r != "" <==> dir != "" && dir[|dir| - 1] != '/'
  {
    if dir == "" || EndsWith(dir, '/') then "" else dir
  }

  /** `getFolderFromUrlDir`: a folder location is kept; otherwise
      everything up to the last `/` (with that `/`); the root is "". */
  function GetFolderFromUrlDir(dir: string): (r: string) {
    if dir == "" || dir == "/" then ""
    else if EndsWith(dir, '/') then dir
    else
      var parts := Split(dir, '/');
      var folder := Join(parts[..|parts| - 1], '/');
      if folder == "" then "" else folder + "/"
  }

  /** The folder of a location is a prefix of it and is itself a folder
      location (empty or ending in `/`); a folder location is its own
      folder, except the root `/`, which is "". */
  lemma FolderIsPrefix(dir: string)
    ensures var f := GetFolderFromUrlDir(dir);
            && |f| <= |dir| && dir[..|f|] == f
            && (f == "" || f[|f| - 1] == '/')
            && (dir != "/" && dir != "" && dir[|dir| - 1] == '/' ==> f == dir)
            && (dir == "" || dir == "/" ==> f == "")
  {
    var f := GetFolderFromUrlDir(dir);
    if dir != "" && dir != "/" && !EndsWith(dir, '/') {
      FileLocationSplits(dir);
    }
  }

  /** For a location naming an object, the folder and the object's own
      name make up the location: the name is non-empty and holds no `/`,
      except that an object at the root keeps its leading `/`. The folder
      is "" exactly when the location holds no `/` past its first
      character. Its path is the whole location. */
  lemma FileLocationSplits(dir: string)
    requires dir != "" && dir[|dir| - 1] != '/'
    ensures var f := GetFolderFromUrlDir(dir);
            && GetPathFromUrlDir(dir) == dir
            && |f| < |dir| && dir[..|f|] == f
            && (f != "" ==> f[|f| - 1] == '/' && '/' !in dir[|f|..])
            && (f == "" <==> '/' !in dir[1..])
  {
    var parts := Split(dir, '/');
    var n := |parts|;
    var last := parts[n - 1];
    SplitLast(dir, '/');
    var f := GetFolderFromUrlDir(dir);
    if n == 1 {
      assert parts[..0] == [];
      assert f == "";
      SplitCount(dir, '/');
      assert '/' !in dir;
      assert forall k :: 1 <= k < |dir| ==> dir[k] == dir[1..][k - 1];
    } else {
      var folder := Join(parts[..n - 1], '/');
      JoinSplit(dir, '/');
      JoinSnoc(parts, '/');
      assert dir == folder + ['/'] + last;
      assert '/' !in last;
      if folder == "" {
        assert dir == ['/'] + last;
        assert dir[1..] == last;
      } else {
        assert f == folder + "/";
        assert dir[..|f|] == f;
        assert dir[|f|..] == last;
        assert dir[1..][|folder| - 1] == '/';
      }
    }
  }

  /** `extractBucketAndPath`: the bucket is the text before the first
      `:`; the path is the text between the first and the second `:`, or ""
      when there is no `:`. */
  function ExtractBucketAndPath(input: string): (r: (string, string)) {
    var parts := Split(input, ':');
    (parts[0], if |parts| >= 2 then parts[1] else "")
  }

  /** Neither half holds a `:`; an annotation without `:` names a bucket
      with an empty path; one with a `:` is the bucket, a `:`, the path and
      then nothing or the dropped text from the second `:` on; and joining
      a colon-free bucket and path with `:` gives them back. */
  lemma ExtractBucketAndPathMeaning(input: string, bucket: string, path: string)
    ensures ':' !in ExtractBucketAndPath(input).0 && ':' !in ExtractBucketAndPath(input).1
    ensures ':' !in input ==> ExtractBucketAndPath(input) == (input, "")
    ensures ':' in input ==>
              var r := ExtractBucketAndPath(input);
              exists rest :: input == r.0 + ":" + r.1 + rest && (rest == "" || rest[0] == ':')
    ensures ':' !in bucket && ':' !in path ==> ExtractBucketAndPath(bucket + ":" + path) == (bucket, path)
  {
    if ':' in input {
      var parts := Split(input, ':');
      SplitCount(input, ':');
      JoinSplit(input, ':');
      var rest := if |parts| == 2 then "" else [':'] + Join(parts[2..], ':');
      assert Join(parts[1..], ':') == parts[1] + rest by {
        if |parts| > 2 {
          assert parts[1..][1..] == parts[2..];
        }
      }
      assert input == parts[0] + ":" + parts[1] + rest;
    }
    if ':' !in input {
      SplitPiece(input, ':');
    }
    if ':' !in bucket && ':' !in path {
      SplitCons(bucket, path, ':');
      SplitPiece(path, ':');
      assert bucket + ":" + path == bucket + [':'] + path;
    }
  }
}
