/** The bucket catalog record and the permission filter evaluated over it
    (`matches` in plugins/s3-viewer-backend/dist/permissions/ListBucketsFilter.cjs.js). */
module BucketFilters {
  import opened Wrappers

  /** One lifecycle rule, kept verbatim as the store returned it. */
  datatype LifecycleRule = LifecycleRule(raw: string)

  /** A catalog record. */
  datatype BucketDetails = BucketDetails(
    bucket: string,
    owner: string,
    objects: int,
    size: int,
    endpoint: string,
    endpointName: string,
    policy: seq<LifecycleRule>)

  /** A filter tree: `{allOf}`, `{anyOf}`, `{not}` or a leaf `{property, values}`. */
  datatype Filter =
    | AllOf(allOf: seq<Filter>)
    | AnyOf(anyOf: seq<Filter>)
    | Not(negated: Filter)
    | Leaf(property: string, values: seq<string>)

  /** `bucket[property]` when it is a string. The numeric and array fields,
      and names that are not fields, never equal a string under `includes`. */
  function Property(b: BucketDetails, property: string): Option<string> {
    if property == "bucket" then Some(b.bucket)
    else if property == "owner" then Some(b.owner)
    else if property == "endpoint" then Some(b.endpoint)
    else if property == "endpointName" then Some(b.endpointName)
    else None
  }

  /** The recursive evaluator for a present filter. */
  predicate Eval(b: BucketDetails, f: Filter) {
    match f
    case AllOf(fs) => forall g | g in fs :: Eval(b, g)
    case AnyOf(fs) => exists g | g in fs :: Eval(b, g)
    case Not(g) => !Eval(b, g)
    case Leaf(p, vs) => Property(b, p).Some? && Property(b, p).value in vs
  }

  /** `matches(bucket, filters)`: an absent filter lets everything through. */
  predicate Matches(b: BucketDetails, filter: Option<Filter>) {
    filter.None? || Eval(b, filter.value)
  }

  lemma AbsentFilterMatchesAll(b: BucketDetails)
    ensures Matches(b, None)
  {
  }

  lemma AllOfMatchesIffEvery(b: BucketDetails, fs: seq<Filter>)
    ensures Eval(b, AllOf(fs)) <==> forall i :: 0 <= i < |fs| ==> Eval(b, fs[i])
    ensures fs == [] ==> Eval(b, AllOf(fs))
  {
    if forall i :: 0 <= i < |fs| ==> Eval(b, fs[i]) {
      forall g | g in fs ensures Eval(b, g) {
        var i :| 0 <= i < |fs| && fs[i] == g;
      }
    }
  }

  lemma AnyOfMatchesIffSome(b: BucketDetails, fs: seq<Filter>)
    ensures Eval(b, AnyOf(fs)) <==> exists i :: 0 <= i < |fs| && Eval(b, fs[i])
    ensures fs == [] ==> !Eval(b, AnyOf(fs))
  {
    if Eval(b, AnyOf(fs)) {
      var g :| g in fs && Eval(b, g);
      var i :| 0 <= i < |fs| && fs[i] == g;
    }
  }

  lemma NotInverts(b: BucketDetails, f: Filter)
    ensures Eval(b, Not(f)) <==> !Eval(b, f)
    ensures Eval(b, Not(Not(f))) == Eval(b, f)
  {
  }

  lemma LeafMatchesIffListed(b: BucketDetails, property: string, values: seq<string>)
    ensures Eval(b, Leaf(property, values)) <==> exists v :: v in values && Property(b, property) == Some(v)
    ensures values == [] ==> !Eval(b, Leaf(property, values))
  {
  }

  function Negations(fs: seq<Filter>): (r: seq<Filter>)
    ensures |r| == |fs| && forall i :: 0 <= i < |fs| ==> r[i] == Not(fs[i])
  {
    seq(|fs|, i requires 0 <= i < |fs| => Not(fs[i]))
  }

  /** De Morgan: a negated `allOf` is an `anyOf` of negations, and the other way round. */
  lemma DeMorgan(b: BucketDetails, fs: seq<Filter>)
    ensures Eval(b, Not(AllOf(fs))) <==> Eval(b, AnyOf(Negations(fs)))
    ensures Eval(b, Not(AnyOf(fs))) <==> Eval(b, AllOf(Negations(fs)))
  {
    var ns := Negations(fs);
    AllOfMatchesIffEvery(b, fs);
    AnyOfMatchesIffSome(b, fs);
    AllOfMatchesIffEvery(b, ns);
    AnyOfMatchesIffSome(b, ns);
  }

  /** Two records agree on every property some leaf of `f` reads. */
  predicate AgreeOnLeaves(b1: BucketDetails, b2: BucketDetails, f: Filter) {
    match f
    case AllOf(fs) => forall g | g in fs :: AgreeOnLeaves(b1, b2, g)
    case AnyOf(fs) => forall g | g in fs :: AgreeOnLeaves(b1, b2, g)
    case Not(g) => AgreeOnLeaves(b1, b2, g)
    case Leaf(p, _) => Property(b1, p) == Property(b2, p)
  }

  /** Evaluation depends on nothing but the properties the filter's leaves
      name: no state, no other field of the record. */
  lemma {:induction false} EvalReadsOnlyLeaves(b1: BucketDetails, b2: BucketDetails, f: Filter)
    requires AgreeOnLeaves(b1, b2, f)
    ensures Eval(b1, f) == Eval(b2, f)
  {
    match f
    case AllOf(fs) =>
      forall g | g in fs ensures Eval(b1, g) == Eval(b2, g) {
        EvalReadsOnlyLeaves(b1, b2, g);
      }
    case AnyOf(fs) =>
      forall g | g in fs ensures Eval(b1, g) == Eval(b2, g) {
        EvalReadsOnlyLeaves(b1, b2, g);
      }
    case Not(g) =>
      EvalReadsOnlyLeaves(b1, b2, g);
    case Leaf(_, _) =>
  }

  lemma {:induction false} SameStringsAgree(b1: BucketDetails, b2: BucketDetails, f: Filter)
    requires b1.bucket == b2.bucket && b1.owner == b2.owner
    requires b1.endpoint == b2.endpoint && b1.endpointName == b2.endpointName
    ensures AgreeOnLeaves(b1, b2, f)
  {
    match f
    case AllOf(fs) =>
      forall g | g in fs ensures AgreeOnLeaves(b1, b2, g) {
        SameStringsAgree(b1, b2, g);
      }
    case AnyOf(fs) =>
      forall g | g in fs ensures AgreeOnLeaves(b1, b2, g) {
        SameStringsAgree(b1, b2, g);
      }
    case Not(g) =>
      SameStringsAgree(b1, b2, g);
    case Leaf(_, _) =>
  }

  /** Object count, size and lifecycle policy never influence a filter. */
  lemma StatsNeverFilter(b: BucketDetails, f: Option<Filter>, objects: int, size: int, policy: seq<LifecycleRule>)
    ensures Matches(b.(objects := objects, size := size, policy := policy), f) == Matches(b, f)
  {
    if f.Some? {
      var b2 := b.(objects := objects, size := size, policy := policy);
      SameStringsAgree(b, b2, f.value);
      EvalReadsOnlyLeaves(b, b2, f.value);
    }
  }
}
