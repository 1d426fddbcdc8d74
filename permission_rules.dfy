/** The two permission rules of
    plugins/s3-viewer-backend/dist/permissions/rules.cjs.js. Each pairs an
    in-memory check (`apply`) with the filter it is translated to
    (`toQuery`); the two must decide every bucket alike. */
module PermissionRules {
  import opened BucketFilters

  /** IS_BUCKET_OWNER `apply`. */
  predicate OwnerApply(b: BucketDetails, owners: seq<string>) {
    b.owner in owners
  }

  /** IS_BUCKET_OWNER `toQuery`. */
  function OwnerToQuery(owners: seq<string>): Filter {
    Leaf("owner", owners)
  }

  /** IS_BUCKET_NAMED `apply`. */
  predicate NamedApply(b: BucketDetails, names: seq<string>) {
    b.bucket in names
  }

  /** IS_BUCKET_NAMED `toQuery`. */
  function NamedToQuery(names: seq<string>): Filter {
    Leaf("bucket", names)
  }

  lemma OwnerRuleAgrees(b: BucketDetails, owners: seq<string>)
    ensures OwnerApply(b, owners) <==> Eval(b, OwnerToQuery(owners))
    ensures OwnerToQuery(owners).property == "owner" && OwnerToQuery(owners).values == owners
  {
  }

  lemma NamedRuleAgrees(b: BucketDetails, names: seq<string>)
    ensures NamedApply(b, names) <==> Eval(b, NamedToQuery(names))
    ensures NamedToQuery(names).property == "bucket" && NamedToQuery(names).values == names
  {
  }

  lemma EmptyParametersRejectAll(b: BucketDetails)
    ensures !OwnerApply(b, []) && !Eval(b, OwnerToQuery([]))
    ensures !NamedApply(b, []) && !Eval(b, NamedToQuery([]))
  {
  }
}
