/**
 What a policy document permits, the way IAM reads it: some statement that allows a request applies to
 it, and none that denies it. A statement applies by its actions, its resources and its conditions.
 */
module Permissions {
  import opened Options
  import opened Strings
  import opened PolicyDocument

  // ---------------------------------------------------------------- the actions of the base statements

  const READ_ACTIONS := [
    "s3:GetObject", "s3:GetObjectTagging", "s3:GetObjectAcl", "s3:GetObjectVersion", "s3:GetObjectVersionAcl",
    "s3:GetObjectVersionTagging"]

  const WRITE_ACTIONS := [
    "s3:DeleteObject", "s3:DeleteObjectVersion", "s3:PutObject", "s3:PutObjectAcl", "s3:RestoreObject"]

  const LIST_BUCKET_META_ACTIONS := [
    "s3:GetBucketPublicAccessBlock", "s3:GetBucketPolicyStatus", "s3:GetBucketTagging", "s3:GetBucketPolicy",
    "s3:GetBucketAcl", "s3:GetBucketCORS", "s3:GetBucketVersioning", "s3:GetBucketLocation",
    "s3:ListBucketVersions"]

  const LIST_BUCKET := "s3:ListBucket"

  function Actions(b: Base): seq<string> {
    match b
    case List => LIST_BUCKET_META_ACTIONS + [LIST_BUCKET]
    case ReadOnly => READ_ACTIONS
    case ReadWrite => READ_ACTIONS + WRITE_ACTIONS
    case ListFolder => [LIST_BUCKET]
    case ListSubFolders => [LIST_BUCKET]
    case RootFolderBucketMeta => LIST_BUCKET_META_ACTIONS
  }

  predicate ObjectAction(action: string) {
    action in READ_ACTIONS || action in WRITE_ACTIONS
  }

  // ---------------------------------------------------------------- IAM's reading

  /** A request; listing requests carry a prefix, and the delimiter "/". */
  datatype Request = Request(action: string, resource: string, prefix: Option<string>)

  /** Conditions that the policy class does not write: whether they hold is left open. */
  type Context = f: string -> bool | true witness (json: string) => false

  const CONTEXT: Context

  predicate Gives(body: Body, action: string) {
    match body
    case Standard(b) => action in Actions(b)
    case Custom(_, actions) => exists a :: a in actions && Glob(a, action)
  }

  predicate Denies(body: Body) {
    body.Custom? && body.effect == "Deny"
  }

  predicate Permissive(body: Body) {
    body.Standard? || body.effect == "Allow"
  }

  function Patterns(r: Resource): seq<string> {
    match r
    case Missing => []
    case Single(p) => [p]
    case Many(ps) => ps
  }

  predicate Matches(r: Resource, resource: string) {
    exists p :: p in Patterns(r) && Glob(p, resource)
  }

  /** A condition on a key that the request does not carry does not hold. */
  predicate Holds(c: Condition, prefix: Option<string>) {
    match c
    case NoCondition => true
    case StringEquals(ps, delimiter) => prefix.Some? && prefix.value in ps && "/" in delimiter
    case StringLike(ps) => prefix.Some? && exists p :: p in ps && Glob(p, prefix.value)
    case OtherCondition(json) => CONTEXT(json)
  }

  predicate Applies(s: Stmt, q: Request) {
    Gives(s.body, q.action) && Matches(s.resource, q.resource) && Holds(s.condition, q.prefix)
  }

  ghost predicate Permits(d: Document, q: Request) {
    && (exists s :: s in d && Permissive(s.body) && Applies(s, q))
    && (forall s :: s in d && Denies(s.body) ==> !Applies(s, q))
  }

  /** The document lets the role do this with the object. */
  ghost predicate Allows(d: Document, action: string, object_: string) {
    Permits(d, Request(action, object_, None))
  }

  /** The document lets the role list the bucket under a prefix. */
  ghost predicate AllowsListing(d: Document, bucket: string, prefix: string) {
    Permits(d, Request(LIST_BUCKET, Arn(bucket), Some(prefix)))
  }

  // ---------------------------------------------------------------- which bodies give what

  ghost predicate GivesObjects(body: Body) {
    exists a :: ObjectAction(a) && Gives(body, a)
  }

  /** Three characters tell the kinds of actions apart. */
  lemma {:induction false} ActionKinds(a: string)
    ensures a in READ_ACTIONS ==> |a| > 6 && a[3] == 'G' && a[6] == 'O'
    ensures a in WRITE_ACTIONS ==> |a| > 6 && (a[3] == 'D' || a[3] == 'P' || a[3] == 'R')
    ensures a in LIST_BUCKET_META_ACTIONS ==> |a| > 13 && (a[3] == 'L' || (a[3] == 'G' && a[6] == 'B'))
    ensures a == LIST_BUCKET ==> |a| == 13 && a[3] == 'L' && a[7] == 'B'
  {
  }

  /** Only the two levels give object actions, and only the second one gives those that write. */
  lemma {:induction false} ObjectBodies(b: Base, action: string)
    requires ObjectAction(action)
    ensures action in Actions(b) <==> b.ReadWrite? || (b.ReadOnly? && action !in WRITE_ACTIONS)
  {
    ActionKinds(action);
    hide READ_ACTIONS, WRITE_ACTIONS, LIST_BUCKET_META_ACTIONS, LIST_BUCKET;
  }

  /** Listing is given by `list` and the two folder statements. */
  lemma {:induction false} ListingBodies(b: Base)
    ensures LIST_BUCKET in Actions(b) <==> b.List? || b.ListFolder? || b.ListSubFolders?
  {
    ActionKinds(LIST_BUCKET);
    hide READ_ACTIONS, WRITE_ACTIONS, LIST_BUCKET_META_ACTIONS, LIST_BUCKET;
  }

  lemma {:induction false} OwnLiterals()
    ensures Literal(LIST_ALL) && Literal(LIST_ACCESS_POINTS) && Literal(GET_ACCOUNT_BLOCK)
  {
  }

  lemma {:induction false} OwnActionsApart(action: string)
    requires ObjectAction(action) || action == LIST_BUCKET
    ensures action != LIST_ALL && action != LIST_ACCESS_POINTS && action != GET_ACCOUNT_BLOCK
  {
    ActionKinds(action);
    hide READ_ACTIONS, WRITE_ACTIONS, LIST_BUCKET_META_ACTIONS, LIST_BUCKET;
    assert LIST_ALL[3] == 'L' && LIST_ALL[7] == 'A';
    assert LIST_ACCESS_POINTS[3] == 'L' && LIST_ACCESS_POINTS[7] == 'A';
    assert GET_ACCOUNT_BLOCK[3] == 'G' && GET_ACCOUNT_BLOCK[6] == 'A';
  }

  /** The base policy's own statement gives neither. */
  lemma {:induction false} UserBucketsInert(action: string)
    requires ObjectAction(action) || action == LIST_BUCKET
    ensures !Gives(LIST_USER_BUCKETS.body, action)
  {
    OwnLiterals();
    OwnActionsApart(action);
    hide Glob, Literal, LIST_ALL, LIST_ACCESS_POINTS, GET_ACCOUNT_BLOCK, ObjectAction, LIST_BUCKET;
    GlobLiteral(LIST_ALL, action);
    GlobLiteral(LIST_ACCESS_POINTS, action);
    GlobLiteral(GET_ACCOUNT_BLOCK, action);
  }
}
