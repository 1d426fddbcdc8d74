/** Bucket listing and allow-list filtering for one platform
    (`fetchBucketsForPlatform` in
    plugins/s3-viewer-backend/dist/credentials-provider/utils.cjs.js; the
    radosgw-admin provider applies the same allow rule inline).

    A pattern `p` is tested as the JavaScript regular expression built from
    the text `^p$`. Regular expressions are not modelled: `Regex` supplies
    whether that text compiles and whether a name matches it. A pattern that
    does not compile makes `match` throw a SyntaxError. */
module AllowList {
  import opened Wrappers
  import opened Seqs
  import opened Platforms

  datatype Regex = Regex(compiles: string -> bool, matches: (string, string) -> bool)

  /** The patterns of the first rule whose `platform` is the platform's
      display name (`?.buckets || []`): none when no rule names it. */
  function PatternsFor(rules: seq<AllowRule>, endpointName: string): (r: seq<string>)
    ensures (forall i :: 0 <= i < |rules| ==> rules[i].platform != endpointName) ==> r == []
    ensures forall i :: 0 <= i < |rules| && rules[i].platform == endpointName
                        && (forall j :: 0 <= j < i ==> rules[j].platform != endpointName)
                        ==> r == rules[i].buckets
  {
    match FirstIndex(rules, (a: AllowRule) => a.platform == endpointName)
    case None => []
    case Some(i) => rules[i].buckets
  }

  /** `patterns.some(a => name.match(`^${a}$`))`, which stops at the first
      match and throws at the first pattern that does not compile. */
  function AnyPatternMatches(patterns: seq<string>, name: string, rx: Regex): (r: Result<bool, string>)
    ensures r == Ok(true) ==> exists p :: p in patterns && rx.matches(p, name)
    ensures r == Ok(false) ==> forall p :: p in patterns ==> !rx.matches(p, name)
    ensures r.Err? ==> exists p :: p in patterns && !rx.compiles(p)
    ensures (forall p :: p in patterns ==> rx.compiles(p)) ==> r.Ok?
  {
    if |patterns| == 0 then Ok(false)
    else if !rx.compiles(patterns[0]) then Err("Invalid regular expression: /^" + patterns[0] + "$/")
    else if rx.matches(patterns[0], name) then Ok(true)
    else
      var rest := AnyPatternMatches(patterns[1..], name, rx);
      assert forall p :: p in patterns[1..] ==> p in patterns;
      assert forall p :: p in patterns ==> p == patterns[0] || p in patterns[1..];
      rest
  }

  /** Reference meaning of the allow rule: no pattern allows everything,
      otherwise some pattern must match. */
  predicate Allowed(patterns: seq<string>, name: string, rx: Regex) {
    |patterns| == 0 || exists p :: p in patterns && rx.matches(p, name)
  }

  /** Reference result: the allowed names, in their listed order. */
  function Keep(names: seq<string>, patterns: seq<string>, rx: Regex): seq<string> {
    if |names| == 0 then []
    else (if Allowed(patterns, names[0], rx) then [names[0]] else []) + Keep(names[1..], patterns, rx)
  }

  /** The allow filter over listed names, in order; it throws at the first
      name whose test reaches a pattern that does not compile. */
  function FilterAllowed(names: seq<string>, patterns: seq<string>, rx: Regex): (r: Result<seq<string>, string>)
    ensures r.Ok? ==> r.value == Keep(names, patterns, rx)
    ensures (forall p :: p in patterns ==> rx.compiles(p)) ==> r.Ok?
    ensures r.Err? ==> exists p :: p in patterns && !rx.compiles(p)
    ensures |patterns| == 0 ==> r == Ok(names)
  {
    if |names| == 0 then Ok([])
    else
      var head: Result<bool, string> := if |patterns| == 0 then Ok(true) else AnyPatternMatches(patterns, names[0], rx);
      match head
      case Err(e) => Err(e)
      case Ok(keep) =>
        match FilterAllowed(names[1..], patterns, rx)
        case Err(e) => Err(e)
        case Ok(rest) =>
          assert |patterns| == 0 ==> names == [names[0]] + names[1..];
          Ok((if keep then [names[0]] else []) + rest)
  }

  /** A name survives the allow rule iff it was listed and is allowed. */
  lemma {:induction false} KeepMembership(names: seq<string>, patterns: seq<string>, rx: Regex, x: string)
    ensures x in Keep(names, patterns, rx) <==> x in names && Allowed(patterns, x, rx)
  {
    if |names| > 0 {
      KeepMembership(names[1..], patterns, rx, x);
      assert names == [names[0]] + names[1..];
    }
  }

  /** Filtering commutes with concatenation, so it keeps the listed order. */
  lemma {:induction false} KeepDistributes(a: seq<string>, b: seq<string>, patterns: seq<string>, rx: Regex)
    ensures Keep(a + b, patterns, rx) == Keep(a, patterns, rx) + Keep(b, patterns, rx)
  {
    if |a| > 0 {
      assert (a + b)[1..] == a[1..] + b;
      KeepDistributes(a[1..], b, patterns, rx);
    } else {
      assert a + b == b;
    }
  }

  datatype ListedBucket = ListedBucket(name: Option<string>)

  /** A `listBuckets` response; `Buckets` may be absent. */
  datatype ListBucketsOutput = ListBucketsOutput(buckets: Option<seq<ListedBucket>>)

  /** `Buckets?.map(b => b.Name || "").filter(b => b)`: present, non-empty names. */
  function NamedBuckets(out: ListBucketsOutput): seq<string> {
    if out.buckets.None? then [] else NamesOf(out.buckets.value)
  }

  function NamesOf(listed: seq<ListedBucket>): (r: seq<string>)
    ensures "" !in r
    ensures forall x :: x in r <==> exists i :: 0 <= i < |listed| && listed[i].name == Some(x) && x != ""
  {
    if |listed| == 0 then []
    else
      var rest := NamesOf(listed[1..]);
      var n := listed[0].name.GetOr("");
      assert forall x :: (exists i :: 0 <= i < |listed[1..]| && listed[1..][i].name == Some(x) && x != "")
                         <==> (exists i :: 1 <= i < |listed| && listed[i].name == Some(x) && x != "");
      (if n != "" then [n] else []) + rest
  }

  /** `fetchBucketsForPlatform`: a failed listing propagates; otherwise the
      named buckets that pass the platform's allow rule. */
  function FetchBucketsForPlatform(platform: Platform, rules: seq<AllowRule>,
                                   listing: Result<ListBucketsOutput, string>, rx: Regex): Result<seq<string>, string>
  {
    match listing
    case Err(e) => Err(e)
    case Ok(out) => FilterAllowed(NamedBuckets(out), PatternsFor(rules, platform.endpointName), rx)
  }

  /** What one platform's listing yields: exactly the listed, non-empty
      names its allow rule admits, in listed order. */
  lemma FetchedNames(platform: Platform, rules: seq<AllowRule>, out: ListBucketsOutput, rx: Regex, x: string)
    requires FetchBucketsForPlatform(platform, rules, Ok(out), rx).Ok?
    ensures FetchBucketsForPlatform(platform, rules, Ok(out), rx).value
         == Keep(NamedBuckets(out), PatternsFor(rules, platform.endpointName), rx)
    ensures x in FetchBucketsForPlatform(platform, rules, Ok(out), rx).value
        <==> x != "" && x in NamedBuckets(out) && Allowed(PatternsFor(rules, platform.endpointName), x, rx)
  {
    KeepMembership(NamedBuckets(out), PatternsFor(rules, platform.endpointName), rx, x);
  }

  /** No rule for the platform's display name: every named bucket is kept. */
  lemma NoRuleKeepsAll(platform: Platform, rules: seq<AllowRule>, out: ListBucketsOutput, rx: Regex)
    requires forall i :: 0 <= i < |rules| ==> rules[i].platform != platform.endpointName
    ensures FetchBucketsForPlatform(platform, rules, Ok(out), rx) == Ok(NamedBuckets(out))
  {
  }

  /** A response without `Buckets` yields no names and no error. */
  lemma MissingBucketsYieldNothing(platform: Platform, rules: seq<AllowRule>, rx: Regex)
    ensures FetchBucketsForPlatform(platform, rules, Ok(ListBucketsOutput(None)), rx) == Ok([])
  {
  }

  /** The rule is chosen by display name: two platforms sharing it filter alike, whatever their endpoints. */
  lemma RuleFollowsDisplayName(p1: Platform, p2: Platform, rules: seq<AllowRule>,
                               listing: Result<ListBucketsOutput, string>, rx: Regex)
    requires p1.endpointName == p2.endpointName
    ensures FetchBucketsForPlatform(p1, rules, listing, rx) == FetchBucketsForPlatform(p2, rules, listing, rx)
  {
  }
}
