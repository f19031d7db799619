/**
 The rights besides objects and contents: what the base policy gives every role, and the metadata of
 buckets, which `list` gives for granted buckets and `rootFolderBucketMeta` for those of folders.
 */
module MetadataRights {
  import opened Options
  import opened Strings
  import opened Permissions
  import opened PolicyDocument
  import opened RoleGrants
  import opened GrantLaws
  import opened GrantRefinement
  import opened FolderLaws

  // ---------------------------------------------------------------- nothing is denied

  lemma {:induction false} BaseForeign()
    ensures Foreign(BASE_S3_ACCESS_POLICY) == [LIST_USER_BUCKETS]
  {
    FilterAll(IsForeign(), [LIST_USER_BUCKETS]);
  }

  /** A statement of a document that a run left is the base policy's own, or one that the class manages. */
  lemma {:induction false} RunStatement(ops: seq<Op>, s: Stmt)
    requires forall op :: op in ops ==> ValidName(op.name)
    requires s in Run(BASE_S3_ACCESS_POLICY, ops)
    ensures s == LIST_USER_BUCKETS || s.body.Standard?
  {
    var d := Run(BASE_S3_ACCESS_POLICY, ops);
    RunPlain(ops);
    BaseDocument("");
    RunKeepsForeign(BASE_S3_ACCESS_POLICY, ops);
    BaseForeign();
    hide BASE_S3_ACCESS_POLICY, LIST_USER_BUCKETS, Run, ValidName, Plain;
    StoredLoads(d);
    var i :| 0 <= i < |d| && d[i] == s;
    LookupAt(d, i);
    LoadedLookup(d, s.sid);
    if !Managed(s.sid) {
      assert s in Foreign(d);
      assert s in [LIST_USER_BUCKETS];
    }
  }

  lemma {:induction false} RunDeniesNothing(ops: seq<Op>, s: Stmt)
    requires forall op :: op in ops ==> ValidName(op.name)
    requires s in Run(BASE_S3_ACCESS_POLICY, ops)
    ensures !Denies(s.body)
  {
    RunStatement(ops, s);
  }

  /** So one statement that applies is enough. */
  lemma {:induction false} RunPermits(ops: seq<Op>, s: Stmt, q: Request)
    requires forall op :: op in ops ==> ValidName(op.name)
    requires s in Run(BASE_S3_ACCESS_POLICY, ops) && Permissive(s.body) && Applies(s, q)
    ensures Permits(Run(BASE_S3_ACCESS_POLICY, ops), q)
  {
    hide Run, Applies, Denies, Permissive, BASE_S3_ACCESS_POLICY;
    forall t | t in Run(BASE_S3_ACCESS_POLICY, ops)
      ensures !Denies(t.body)
    {
      RunDeniesNothing(ops, t);
    }
  }

  // ---------------------------------------------------------------- the base policy

  /** After any run the role may still see all buckets and access points. */
  lemma {:induction false} BaseRightsKept(ops: seq<Op>, action: string, resource: string)
    requires forall op :: op in ops ==> ValidName(op.name)
    requires action in ["s3:ListAllMyBuckets", "s3:ListAccessPoints", "s3:GetAccountPublicAccessBlock"]
    ensures Permits(Run(BASE_S3_ACCESS_POLICY, ops), Request(action, resource, None))
  {
    BaseDocument("");
    RunKeepsForeign(BASE_S3_ACCESS_POLICY, ops);
    BaseForeign();
    assert LIST_USER_BUCKETS in Foreign(Run(BASE_S3_ACCESS_POLICY, ops));
    UserBucketsApply(action, resource);
    RunPermits(ops, LIST_USER_BUCKETS, Request(action, resource, None));
  }

  lemma {:induction false} UserBucketsApply(action: string, resource: string)
    requires action in ["s3:ListAllMyBuckets", "s3:ListAccessPoints", "s3:GetAccountPublicAccessBlock"]
    ensures Permissive(LIST_USER_BUCKETS.body) && Applies(LIST_USER_BUCKETS, Request(action, resource, None))
  {
    OwnLiterals();
    hide Glob, Literal, LIST_ALL, LIST_ACCESS_POINTS, GET_ACCOUNT_BLOCK;
    OwnActions();
    GlobLiteral(action, action);
    GlobStar(resource);
    assert "*" in Patterns(LIST_USER_BUCKETS.resource);
  }

  lemma {:induction false} OwnActions()
    ensures ["s3:ListAllMyBuckets", "s3:ListAccessPoints", "s3:GetAccountPublicAccessBlock"]
         == [LIST_ALL, LIST_ACCESS_POINTS, GET_ACCOUNT_BLOCK]
  {
  }

  // ---------------------------------------------------------------- bucket metadata

  /** A resource that the document holds under a plain Sid gives the actions of that statement. */
  lemma {:induction false} HeldApplies(d: Document, b: Base, bucket: string, action: string)
    requires Stored(d) && Plain(d) && ValidBucket(bucket)
    requires Arn(bucket) in Res(d, Name(b)) && action in Actions(b)
    ensures var s := Lookup(d, Name(b));
            s in d && Permissive(s.body) && Applies(s, Request(action, Arn(bucket), None))
  {
    var s := Lookup(d, Name(b));
    PlainLookup(d, b);
    SidRoundTrip(b, "");
    assert ValidName(bucket);
    hide Actions, Glob, Stored, Plain, Lookup, ValidBucket, ValidName, Name, Sids;
    HeldInDocument(d, Name(b), Arn(bucket));
    LiteralArn(bucket);
    GlobLiteral(Arn(bucket), Arn(bucket));
    assert Arn(bucket) in Patterns(s.resource);
  }

  lemma {:induction false} HeldInDocument(d: Document, sid: string, resource: string)
    requires Stored(d) && resource in Res(d, sid)
    ensures Lookup(d, sid) in d
  {
    StoredPresence(d, sid);
    if HasSid(d, sid) {
      var i :| 0 <= i < |d| && Sids(d)[i] == sid;
      LookupAt(d, i);
    }
  }

  /** After any run a role may read the metadata of every bucket that is granted to it. */
  lemma {:induction false} BucketMetadata(ops: seq<Op>, names: set<string>, name: string, action: string)
    requires ValidNames(names) && forall op :: op in ops ==> ValidOp(op, names)
    requires name in RunAbstractly(map[], ops) && !HasSlash(name) && action in LIST_BUCKET_META_ACTIONS
    ensures Permits(Run(BASE_S3_ACCESS_POLICY, ops), Request(action, Arn(name), None))
  {
    var d, g := Run(BASE_S3_ACCESS_POLICY, ops), RunAbstractly(map[], ops);
    BaseEncodesNothing();
    RunRefines(BASE_S3_ACCESS_POLICY, map[], ops, names);
    OpsNamed(ops, names);
    assert name in names && ValidName(name);
    assert GrantedBucket(g, Arn(name));
    assert Arn(name) in Res(d, Name(List));
    EncodedDocument(d, g);
    hide *;
    ListGives(action);
    BucketName(name);
    HeldApplies(d, List, name, action);
    RunPermits(ops, Lookup(d, Name(List)), Request(action, Arn(name), None));
  }

  lemma {:induction false} BucketName(name: string)
    requires ValidName(name) && !HasSlash(name)
    ensures ValidBucket(name)
  {
  }

  lemma {:induction false} ListGives(action: string)
    requires action in LIST_BUCKET_META_ACTIONS
    ensures action in Actions(List) && action in Actions(RootFolderBucketMeta)
  {
  }

  lemma {:induction false} OpsNamed(ops: seq<Op>, names: set<string>)
    requires ValidNames(names) && forall op :: op in ops ==> ValidOp(op, names)
    ensures forall op :: op in ops ==> ValidName(op.name)
  {
    forall op | op in ops
      ensures ValidName(op.name)
    {
      ValidOpName(op, names);
    }
  }

  /** And, right after a folder grant, that of the folder's bucket. */
  lemma {:induction false} FolderMetadata(ops: seq<Op>, names: set<string>, op: Op, action: string)
    requires ValidNames(names) && (forall o :: o in ops ==> ValidOp(o, names)) && ValidOp(op, names)
    requires op.GrantOp? && HasSlash(op.name) && action in LIST_BUCKET_META_ACTIONS
    ensures Permits(Run(BASE_S3_ACCESS_POLICY, ops + [op]), Request(action, Arn(BucketOf(op.name)), None))
  {
    assert (ops + [op])[..|ops + [op]| - 1] == ops;
    assert forall o :: o in ops + [op] ==> ValidOp(o, names);
    OpsNamed(ops + [op], names);
    hide BASE_S3_ACCESS_POLICY;
    FolderBucketHeld(ops, names, op);
    RunPlain(ops + [op]);
    ValidOpName(op, names);
    NoSlashInBucket(op.name);
    RootIsBucket(op.name);
    hide *;
    ListGives(action);
    HeldApplies(Run(BASE_S3_ACCESS_POLICY, ops + [op]), RootFolderBucketMeta, BucketOf(op.name), action);
    RunPermits(ops + [op], Lookup(Run(BASE_S3_ACCESS_POLICY, ops + [op]), Name(RootFolderBucketMeta)),
               Request(action, Arn(BucketOf(op.name)), None));
  }

  lemma {:induction false} FolderBucketHeld(ops: seq<Op>, names: set<string>, op: Op)
    requires ValidNames(names) && (forall o :: o in ops ==> ValidOp(o, names)) && ValidOp(op, names)
    requires op.GrantOp? && HasSlash(op.name)
    ensures Arn(BucketOf(op.name)) in Res(Run(BASE_S3_ACCESS_POLICY, ops + [op]), Name(RootFolderBucketMeta))
  {
    assert (ops + [op])[..|ops + [op]| - 1] == ops;
    OpsNamed(ops, names);
    RunPlain(ops);
    ValidOpName(op, names);
    NoSlashInBucket(op.name);
    hide BASE_S3_ACCESS_POLICY, ValidNames, ValidRoot, ValidName, Loadable, Stored, Plain, Res, Name, GrantFolder;
    StoredLoads(Run(BASE_S3_ACCESS_POLICY, ops));
    MetadataAfter(Run(BASE_S3_ACCESS_POLICY, ops), op.name, op.grant.level, op.grant.paths);
  }

  lemma {:induction false} RootIsBucket(root: string)
    requires ValidRoot(root)
    ensures ValidBucket(BucketOf(root))
  {
  }
}
