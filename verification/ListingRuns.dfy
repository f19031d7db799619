/**
 Listing over whole runs of grants and revokes on one role: what the document lets the role list of
 a datasource is again read off the map of last grants.
 */
module ListingRuns {
  import opened Strings
  import opened Permissions
  import opened PolicyDocument
  import opened RoleGrants
  import opened GrantLaws
  import opened GrantRefinement
  import opened FolderListing
  import opened FolderLaws
  import opened ListingAccess

  // ---------------------------------------------------------------- the datasources in play

  /** Distinct root buckets have distinct listing statements. */
  ghost predicate NoCollision(names: set<string>, bucket: string) {
    forall n :: n in names && HasSlash(n) && BucketOf(n) != bucket ==> Md5(BucketOf(n)) != Md5(bucket)
  }

  /** No other folder of the bucket has a name that this folder's name starts with. */
  ghost predicate NoExtension(names: set<string>, name: string)
    requires HasSlash(name)
  {
    forall m :: m in names && m != name && HasSlash(m) && BucketOf(m) == BucketOf(name) ==>
                  !StartsWith(FolderOf(name), FolderOf(m))
  }

  // ---------------------------------------------------------------- the document and the map

  /** The prefix or pattern is one that the last grant on the folder added. */
  predicate FromGrant(g: Grants, name: string, op: Operator, x: string)
    requires HasSlash(name)
  {
    name in g && x in NewPrefixes(op, FolderPaths(FolderOf(name), g[name].paths))
  }

  predicate HeldInside(d: Document, name: string, op: Operator, x: string)
    requires HasSlash(name)
  {
    x in ListPrefixes(d, BucketOf(name), op) && InFolder(x, FolderOf(name))
  }

  /** Whatever the document holds inside the folder comes from the last grant on it. */
  ghost predicate HoldsOnly(d: Document, g: Grants, name: string)
    requires HasSlash(name)
  {
    forall op: Operator, x: string :: HeldInside(d, name, op, x) ==> FromGrant(g, name, op, x)
  }

  /** All that the last grant on the folder added is there. */
  ghost predicate HoldsAll(d: Document, g: Grants, name: string)
    requires HasSlash(name)
  {
    forall op: Operator, x: string :: FromGrant(g, name, op, x) ==> HeldInside(d, name, op, x)
  }

  /** The empty prefix comes first, and once. */
  predicate RootFirst(ps: seq<string>) {
    ps != [] && ps[0] == "" && forall i :: 0 < i < |ps| ==> ps[i] != ""
  }

  /** It never stands alone in a condition. */
  predicate RootedStmt(s: Stmt) {
    s.condition.StringEquals? ==> |s.condition.prefixes| > 1 && RootFirst(s.condition.prefixes)
  }

  /** A folder of the bucket, in the map, that the prefix lies in. */
  predicate NamedBy(g: Grants, bucket: string, x: string, name: string) {
    name in g && ValidRoot(name) && BucketOf(name) == bucket && InFolder(x, FolderOf(name))
  }

  /** Every prefix but the empty one lies in some folder that the map has. */
  ghost predicate PrefixesNamed(d: Document, g: Grants, bucket: string) {
    forall op: Operator, x: string :: x in ListPrefixes(d, bucket, op) && x != "" ==> exists n :: NamedBy(g, bucket, x, n)
  }

  /** What a document holds about listing the contents of a datasource. */
  ghost predicate NameListed(d: Document, g: Grants, names: set<string>, name: string) {
    if HasSlash(name) then
      && ListingWritten(d, BucketOf(name))
      && HoldsOnly(d, g, name)
      && (NoExtension(names, name) ==> HoldsAll(d, g, name))
      && RootedStmt(Lookup(d, ListingSid(Equals, BucketOf(name)))) && PrefixesNamed(d, g, BucketOf(name))
    else
      ListedUnder(d, name, {Name(List)})
  }

  lemma {:induction false} FolderInside(x: string, folder: string, other: string)
    requires ValidBucket(folder) && ValidBucket(other)
    requires InFolder(x, folder) && InFolder(x, other)
    ensures folder == other
  {
    InFolderFirstSlash(x, folder);
    InFolderFirstSlash(x, other);
    assert folder == x[..|folder|] && other == x[..|other|];
  }

  lemma {:induction false} SameRoot(n: string, m: string)
    requires ValidRoot(n) && ValidRoot(m) && BucketOf(n) == BucketOf(m) && FolderOf(n) == FolderOf(m)
    ensures n == m
  {
    RootParts(n);
    RootParts(m);
  }

  lemma {:induction false} InsideStarts(x: string, folder: string)
    requires InFolder(x, folder) && ValidBucket(folder)
    ensures StartsWith(x, folder) && x != ""
  {
  }

  /** What the folder loop builds lies inside the folder. */
  lemma {:induction false} AncestorsInside(prefixes: seq<string>, path: string, folder: string, n: nat)
    requires ValidBucket(folder) && InFolder(path, folder) && n < |Split(path)|
    requires forall x :: x in prefixes ==> InFolder(x, folder)
    ensures forall x :: x in AddAncestors(prefixes, path, n) ==> InFolder(x, folder)
  {
    hide Split, Ancestor, ValidBucket;
    if n > 0 {
      AncestorsInside(prefixes, path, folder, n - 1);
      AncestorIsCut(path, folder, n - 1);
      CutInside(Ancestor(path, n - 1), path, folder);
      hide InFolder, AncestorOrSelf;
    }
  }

  lemma {:induction false} CutInside(q: string, path: string, folder: string)
    requires ValidBucket(folder) && InFolder(path, folder) && AncestorOrSelf(q, path, folder)
    ensures InFolder(q, folder) && InFolder(q + "/", folder)
  {
  }

  lemma {:induction false} NewInside(op: Operator, paths: seq<string>, folder: string)
    requires ValidBucket(folder)
    requires forall p :: p in paths ==> InFolder(p, folder)
    ensures forall x :: x in NewPrefixes(op, paths) ==> InFolder(x, folder)
  {
    hide Split, AddAncestors, ValidBucket;
    if paths != [] {
      var front, last := paths[..|paths| - 1], paths[|paths| - 1];
      NewInside(op, front, folder);
      if op.Equals? {
        AncestorsInside(NewPrefixes(op, front), last, folder, |Split(last)| - 1);
      } else {
        StarInside(last, folder);
      }
      hide InFolder;
    }
  }

  lemma {:induction false} StarInside(p: string, folder: string)
    requires InFolder(p, folder)
    ensures InFolder(p + "/*", folder)
  {
  }

  lemma {:induction false} AddedInside(op: Op, which: Operator)
    requires ValidRoot(op.name) && (op.GrantOp? ==> ValidPaths(op.grant.paths))
    ensures forall x :: x in AddedPrefixes(op, which) ==> InFolder(x, FolderOf(op.name))
  {
    if op.GrantOp? {
      FullPathsInFolder(op.name, op.grant.paths);
      NewInside(which, FolderPaths(FolderOf(op.name), op.grant.paths), FolderOf(op.name));
    }
  }

  // ---------------------------------------------------------------- one operation

  /** An operation on the folder itself: what is left inside is what it added. */
  lemma {:induction false} OwnOp(d: Document, op: Op, which: Operator, x: string)
    requires ValidRoot(op.name) && (op.GrantOp? ==> ValidPaths(op.grant.paths))
    requires ListingWritten(d, BucketOf(op.name)) && InFolder(x, FolderOf(op.name))
    ensures x in ListPrefixes(PerformOp(d, op), BucketOf(op.name), which) <==> x in AddedPrefixes(op, which)
  {
    InsideStarts(x, FolderOf(op.name));
    OwnPrefixes(d, op, which, x);
  }

  /** One on another folder of the bucket takes something away only if its name begins this one's. */
  lemma {:induction false} SiblingOp(d: Document, op: Op, name: string, which: Operator, x: string)
    requires ValidRoot(op.name) && (op.GrantOp? ==> ValidPaths(op.grant.paths))
    requires ValidRoot(name) && name != op.name && BucketOf(name) == BucketOf(op.name)
    requires ListingWritten(d, BucketOf(name)) && InFolder(x, FolderOf(name))
    ensures x in ListPrefixes(PerformOp(d, op), BucketOf(name), which) ==> x in ListPrefixes(d, BucketOf(name), which)
    ensures !StartsWith(FolderOf(name), FolderOf(op.name)) && x in ListPrefixes(d, BucketOf(name), which) ==>
              x in ListPrefixes(PerformOp(d, op), BucketOf(name), which)
  {
    var f, f' := FolderOf(name), FolderOf(op.name);
    assert ValidBucket(f) && ValidBucket(f');
    InsideStarts(x, f);
    OwnPrefixes(d, op, which, x);
    AddedInside(op, which);
    hide ValidRoot, PerformOp, ListPrefixes, ListingWritten, AddedPrefixes, ValidPaths;
    if InFolder(x, f') {
      FolderInside(x, f, f');
      SameRoot(name, op.name);
    }
    if StartsWith(x, f') {
      SiblingInside(x, f, f');
    }
  }

  lemma {:induction false} OtherOp(d: Document, op: Op, name: string, which: Operator)
    requires ListingWritten(d, BucketOf(name)) && ValidRoot(name) && ValidName(op.name)
    requires HasSlash(op.name) ==> Md5(BucketOf(op.name)) != Md5(BucketOf(name))
    ensures ListPrefixes(PerformOp(d, op), BucketOf(name), which) == ListPrefixes(d, BucketOf(name), which)
  {
    OtherListing(d, op, which, BucketOf(name));
  }

  /** What happens to the prefixes inside a folder, whatever the operation is about. */
  lemma {:induction false} OpInside(d: Document, op: Op, names: set<string>, name: string, which: Operator, x: string)
    requires ValidNames(names) && ValidOp(op, names) && name in names && ValidRoot(name)
    requires NoCollision(names, BucketOf(name)) && ListingWritten(d, BucketOf(name))
    ensures var before, after := HeldInside(d, name, which, x), HeldInside(PerformOp(d, op), name, which, x);
            if op.name == name then after <==> x in AddedPrefixes(op, which)
            else (after ==> before) && (NoExtension(names, name) && before ==> after)
  {
    ValidOpName(op, names);
    if op.name == name {
      AddedInside(op, which);
    }
    if InFolder(x, FolderOf(name)) {
      if op.name == name {
        OwnOp(d, op, which, x);
      } else if HasSlash(op.name) && BucketOf(op.name) == BucketOf(name) {
        NoSlashInBucket(op.name);
        SiblingOp(d, op, name, which, x);
      } else {
        OtherOp(d, op, name, which);
      }
    }
  }

  lemma {:induction false} AddedByOp(g: Grants, op: Op, name: string, which: Operator, x: string)
    requires HasSlash(name)
    ensures FromGrant(Abstractly(g, op), name, which, x)
       <==> if op.name == name then x in AddedPrefixes(op, which) else FromGrant(g, name, which, x)
  {
  }

  lemma {:induction false} OpHoldsOnly(d: Document, g: Grants, op: Op, names: set<string>, name: string)
    requires ValidNames(names) && ValidOp(op, names) && name in names && ValidRoot(name)
    requires NoCollision(names, BucketOf(name))
    requires ListingWritten(d, BucketOf(name)) && HoldsOnly(d, g, name)
    ensures HoldsOnly(PerformOp(d, op), Abstractly(g, op), name)
  {
    assert HasSlash(name);
    hide ValidNames, ValidOp, NoCollision, ListingWritten, PerformOp, HeldInside, FromGrant, NoExtension, ValidRoot, Abstractly,
         AddedPrefixes;
    forall which: Operator, x: string | HeldInside(PerformOp(d, op), name, which, x)
      ensures FromGrant(Abstractly(g, op), name, which, x)
    {
      OpInside(d, op, names, name, which, x);
      AddedByOp(g, op, name, which, x);
    }
  }

  lemma {:induction false} OpHoldsAll(d: Document, g: Grants, op: Op, names: set<string>, name: string)
    requires ValidNames(names) && ValidOp(op, names) && name in names && ValidRoot(name)
    requires NoCollision(names, BucketOf(name)) && NoExtension(names, name)
    requires ListingWritten(d, BucketOf(name)) && HoldsAll(d, g, name)
    ensures HoldsAll(PerformOp(d, op), Abstractly(g, op), name)
  {
    assert HasSlash(name);
    hide ValidNames, ValidOp, NoCollision, ListingWritten, PerformOp, HeldInside, FromGrant, NoExtension, ValidRoot, Abstractly,
         AddedPrefixes;
    forall which: Operator, x: string | FromGrant(Abstractly(g, op), name, which, x)
      ensures HeldInside(PerformOp(d, op), name, which, x)
    {
      OpInside(d, op, names, name, which, x);
      AddedByOp(g, op, name, which, x);
    }
  }

  lemma {:induction false} NamedAfter(g: Grants, op: Op, bucket: string, x: string, n: string)
    requires NamedBy(g, bucket, x, n) && n != op.name
    ensures NamedBy(Abstractly(g, op), bucket, x, n)
  {
  }

  lemma {:induction false} NamedElsewhere(g: Grants, op: Op, bucket: string, x: string)
    requires exists n :: NamedBy(g, bucket, x, n)
    requires !(ValidRoot(op.name) && BucketOf(op.name) == bucket && InFolder(x, FolderOf(op.name)))
    ensures exists n :: NamedBy(Abstractly(g, op), bucket, x, n)
  {
    var n :| NamedBy(g, bucket, x, n);
    NamedAfter(g, op, bucket, x, n);
  }

  lemma {:induction false} NamedOwn(d: Document, g: Grants, op: Op, which: Operator, x: string)
    requires ValidRoot(op.name) && (op.GrantOp? ==> ValidPaths(op.grant.paths))
    requires ListingWritten(d, BucketOf(op.name)) && PrefixesNamed(d, g, BucketOf(op.name))
    requires x in ListPrefixes(PerformOp(d, op), BucketOf(op.name), which) && x != ""
    ensures exists n :: NamedBy(Abstractly(g, op), BucketOf(op.name), x, n)
  {
    assert ValidBucket(FolderOf(op.name)) && HasSlash(op.name);
    hide ListPrefixes, PerformOp, Abstractly, ListingWritten, ValidRoot, ValidPaths, NamedBy, ValidBucket, AddedPrefixes, InFolder;
    OwnPrefixes(d, op, which, x);
    if x in AddedPrefixes(op, which) {
      NamedByGrant(g, op, which, x);
    } else {
      if InFolder(x, FolderOf(op.name)) {
        InsideStarts(x, FolderOf(op.name));
      }
      NamedElsewhere(g, op, BucketOf(op.name), x);
    }
  }

  lemma {:induction false} NamedByGrant(g: Grants, op: Op, which: Operator, x: string)
    requires ValidRoot(op.name) && (op.GrantOp? ==> ValidPaths(op.grant.paths))
    requires x in AddedPrefixes(op, which)
    ensures NamedBy(Abstractly(g, op), BucketOf(op.name), x, op.name)
  {
    AddedInside(op, which);
  }

  lemma {:induction false} OpNamed(d: Document, g: Grants, op: Op, names: set<string>, name: string)
    requires ValidNames(names) && ValidOp(op, names) && name in names && ValidRoot(name)
    requires NoCollision(names, BucketOf(name))
    requires ListingWritten(d, BucketOf(name)) && PrefixesNamed(d, g, BucketOf(name))
    ensures PrefixesNamed(PerformOp(d, op), Abstractly(g, op), BucketOf(name))
  {
    ValidOpName(op, names);
    assert HasSlash(op.name) ==> BucketOf(op.name) == BucketOf(name) || Md5(BucketOf(op.name)) != Md5(BucketOf(name));
    forall which: Operator, x: string | x in ListPrefixes(PerformOp(d, op), BucketOf(name), which) && x != ""
      ensures exists n :: NamedBy(Abstractly(g, op), BucketOf(name), x, n)
    {
      hide ListPrefixes, PerformOp, Abstractly, ListingWritten, ValidNames, ValidName, NoCollision, NamedBy, Md5;
      if HasSlash(op.name) && BucketOf(op.name) == BucketOf(name) {
        NoSlashInBucket(op.name);
        NamedOwn(d, g, op, which, x);
      } else {
        OtherOp(d, op, name, which);
        NamedElsewhere(g, op, BucketOf(name), x);
      }
    }
  }

  lemma {:induction false} FilterRootFirst(ps: seq<string>, folder: string)
    requires RootFirst(ps) && folder != ""
    ensures RootFirst(Filter(NotUnder(folder), ps))
  {
    var rest := Filter(NotUnder(folder), ps[1..]);
    assert ps == [""] + ps[1..];
    FilterAppend(NotUnder(folder), [""], ps[1..]);
    FilterAll(NotUnder(folder), [""]);
    assert Filter(NotUnder(folder), ps) == [""] + rest;
    assert forall i :: 0 <= i < |rest| ==> rest[i] in ps[1..];
  }

  lemma {:induction false} RootFirstAppend(ps: seq<string>, more: seq<string>)
    requires RootFirst(ps) && "" !in more
    ensures RootFirst(ps + more)
  {
    assert forall i :: 0 <= i < |more| ==> more[i] in more;
  }

  lemma {:induction false} RootedAfterRevoke(s: Stmt, bucketArn: string, folder: string)
    requires WrittenStmt(Equals, s, bucketArn) && RootedStmt(s) && folder != ""
    ensures RootedStmt(Norm(Apply(RemovePrefix(bucketArn, folder, Equals), s)))
  {
    if s.condition.StringEquals? {
      FilterRootFirst(s.condition.prefixes, folder);
      hide Filter;
    }
  }

  lemma {:induction false} RootedAfterGrant(s: Stmt, bucketArn: string, folder: string, full: seq<string>)
    requires RootedStmt(s) && ValidBucket(folder) && full != []
    requires forall p :: p in full ==> InFolder(p, folder)
    ensures RootedStmt(ListingGranted(Equals, s, bucketArn, folder, full))
  {
    NewNotEmpty(full, folder);
    PathsAdded(full, full[0]);
    hide NewPrefixes, InFolder, Filter, ValidBucket;
    if s.condition.StringEquals? {
      FilterRootFirst(s.condition.prefixes, folder);
    }
    RootFirstAppend(Kept(Equals, s, folder), NewPrefixes(Equals, full));
  }

  lemma {:induction false} OpRooted(d: Document, op: Op, names: set<string>, name: string)
    requires ValidNames(names) && ValidOp(op, names) && name in names && ValidRoot(name)
    requires NoCollision(names, BucketOf(name))
    requires ListingWritten(d, BucketOf(name)) && RootedStmt(Lookup(d, ListingSid(Equals, BucketOf(name))))
    ensures RootedStmt(Lookup(PerformOp(d, op), ListingSid(Equals, BucketOf(name))))
  {
    var bucket := BucketOf(name);
    ValidOpName(op, names);
    if HasSlash(op.name) && BucketOf(op.name) == bucket {
      NoSlashInBucket(op.name);
      OwnRooted(d, op);
    } else {
      OtherListing(d, op, Equals, bucket);
    }
  }

  lemma {:induction false} OwnRooted(d: Document, op: Op)
    requires ValidRoot(op.name) && (op.GrantOp? ==> ValidPaths(op.grant.paths))
    requires ListingWritten(d, BucketOf(op.name)) && RootedStmt(Lookup(d, ListingSid(Equals, BucketOf(op.name))))
    ensures RootedStmt(Lookup(PerformOp(d, op), ListingSid(Equals, BucketOf(op.name))))
  {
    var root, bucket := op.name, BucketOf(op.name);
    var s := Lookup(d, ListingSid(Equals, bucket));
    WrittenReady(d, bucket);
    hide Lookup, ListingGranted, WrittenStmt, RootedStmt, Stored, Loadable, GrantFolder, RevokeFolder, ReadyStmt, InFolder;
    match op {
      case GrantOp(_, grant) =>
        var full := FolderPaths(FolderOf(root), grant.paths);
        OwnedOfReady(d, bucket);
        ListingAfterGrant(d, root, grant.level, grant.paths, Equals);
        FullPathsInFolder(root, grant.paths);
        RootedAfterGrant(s, Arn(bucket), FolderOf(root), full);
      case RevokeOp(_) =>
        RevokedStmt(d, root, Equals);
        RootedAfterRevoke(s, Arn(bucket), FolderOf(root));
    }
  }

  lemma {:induction false} FolderListed(d: Document, g: Grants, op: Op, names: set<string>, name: string)
    requires ValidNames(names) && ValidGrants(g, names) && ValidOp(op, names) && name in names && ValidRoot(name)
    requires NoCollision(names, BucketOf(name))
    requires NameListed(d, g, names, name)
    ensures NameListed(PerformOp(d, op), Abstractly(g, op), names, name)
  {
    ValidOpName(op, names);
    assert HasSlash(name) && BucketOf(name) != "";
    assert op.GrantOp? ==> ValidPaths(op.grant.paths);
    assert HasSlash(op.name) && BucketOf(op.name) != BucketOf(name) ==> Md5(BucketOf(op.name)) != Md5(BucketOf(name));
    hide ValidNames, ValidRoot, ValidPaths, ValidName, ValidOp, ValidGrants, ListingWritten, PerformOp, HoldsOnly, HoldsAll,
         NoExtension, NoCollision, Abstractly, Md5, RootedStmt, PrefixesNamed, Lookup;
    OpHoldsOnly(d, g, op, names, name);
    OpNamed(d, g, op, names, name);
    OpRooted(d, op, names, name);
    if NoExtension(names, name) {
      OpHoldsAll(d, g, op, names, name);
    }
    OpKeepsListing(d, op, BucketOf(name));
  }

  lemma {:induction false} BucketListed(d: Document, g: Grants, op: Op, names: set<string>, name: string)
    requires ValidNames(names) && ValidOp(op, names) && name in names && !HasSlash(name)
    requires Stored(d) && NameListed(d, g, names, name)
    ensures NameListed(PerformOp(d, op), Abstractly(g, op), names, name)
  {
    ValidOpName(op, names);
    if HasSlash(op.name) {
      RootsApart(op.name, names, name);
    }
    StoredLoads(d);
    hide ValidNames, ValidName, ValidOp, PerformOp, ListedUnder, Stored, Name, Abstractly;
    OpListedUnder(d, op, name, {Name(List)});
  }

  /** One operation on a role, on whatever datasource, keeps the document's listing in line with the map. */
  lemma {:induction false} OpKeepsListed(d: Document, g: Grants, op: Op, names: set<string>, name: string)
    requires ValidNames(names) && ValidGrants(g, names) && ValidOp(op, names) && name in names
    requires HasSlash(name) ==> NoCollision(names, BucketOf(name))
    requires Stored(d) && NameListed(d, g, names, name)
    ensures NameListed(PerformOp(d, op), Abstractly(g, op), names, name)
  {
    assert ValidName(name);
    hide ValidNames, ValidRoot, ValidName, ValidOp, ValidGrants, NameListed, PerformOp, NoCollision, Stored, Abstractly;
    if HasSlash(name) {
      NoSlashInBucket(name);
      FolderListed(d, g, op, names, name);
    } else {
      BucketListed(d, g, op, names, name);
    }
  }

  /** The root bucket of a folder in play is not in play itself. */
  lemma {:induction false} RootsApart(root: string, names: set<string>, name: string)
    requires ValidNames(names) && root in names && name in names && HasSlash(root)
    ensures BucketOf(root) != name
  {
    NoSlashInBucket(root);
    RootParts(root);
    assert root != BucketOf(root) && StartsWith(root, BucketOf(root) + "/");
    assert !Unrelated(root, BucketOf(root));
  }

  lemma {:induction false} BaseHolds(name: string, op: Operator, x: string)
    requires ValidRoot(name)
    ensures !HeldInside(BASE_S3_ACCESS_POLICY, name, op, x)
  {
    SidRoundTrip(if op.Equals? then ListFolder else ListSubFolders, BucketOf(name));
    BaseDocument(ListingSid(op, BucketOf(name)));
    NothingInside(FolderOf(name));
  }

  lemma {:induction false} BaseRooted(bucket: string)
    requires bucket != ""
    ensures RootedStmt(Lookup(BASE_S3_ACCESS_POLICY, ListingSid(Equals, bucket)))
    ensures PrefixesNamed(BASE_S3_ACCESS_POLICY, map[], bucket)
  {
    forall op: Operator
      ensures Lookup(BASE_S3_ACCESS_POLICY, ListingSid(op, bucket)) == Blank(ListingSid(op, bucket))
    {
      SidRoundTrip(if op.Equals? then ListFolder else ListSubFolders, bucket);
      BaseDocument(ListingSid(op, bucket));
    }
    hide BASE_S3_ACCESS_POLICY, Lookup;
  }

  lemma {:induction false} BaseListed(names: set<string>, name: string)
    requires ValidName(name)
    ensures NameListed(BASE_S3_ACCESS_POLICY, map[], names, name)
  {
    if HasSlash(name) {
      NoSlashInBucket(name);
      assert BucketOf(name) != "";
      BaseRooted(BucketOf(name));
      hide BASE_S3_ACCESS_POLICY, ListingWritten, HeldInside, ValidRoot, NoExtension, RootedStmt, PrefixesNamed;
      BaseListing(BucketOf(name));
      forall op: Operator, x: string
        ensures !HeldInside(BASE_S3_ACCESS_POLICY, name, op, x)
      {
        BaseHolds(name, op, x);
      }
    } else {
      BaseListedUnder(name, {Name(List)});
    }
  }

  lemma {:induction false} NothingInside(folder: string)
    requires ValidBucket(folder)
    ensures !InFolder("", folder)
  {
  }

  /** After any run from the base policy the listing is in line with the map of last grants. */
  lemma {:induction false} RunListed(ops: seq<Op>, names: set<string>, name: string)
    requires ValidNames(names) && name in names
    requires forall op :: op in ops ==> ValidOp(op, names)
    requires HasSlash(name) ==> NoCollision(names, BucketOf(name))
    ensures var d, g := Run(BASE_S3_ACCESS_POLICY, ops), RunAbstractly(map[], ops);
            Encodes(d, g) && ValidGrants(g, names) && NameListed(d, g, names, name)
  {
    BaseEncodesNothing();
    RunRefines(BASE_S3_ACCESS_POLICY, map[], ops, names);
    BaseListed(names, name);
    hide BASE_S3_ACCESS_POLICY, NameListed, PerformOp, ValidNames, ValidOp, Encodes, NoCollision;
    if ops != [] {
      var front, op := ops[..|ops| - 1], ops[|ops| - 1];
      var d, g := Run(BASE_S3_ACCESS_POLICY, front), RunAbstractly(map[], front);
      RunListed(front, names, name);
      EncodedDocument(d, g);
      OpKeepsListed(d, g, op, names, name);
    }
  }

  // ---------------------------------------------------------------- what the document allows

  /** A pattern that matches something inside a folder lies inside it. */
  lemma {:induction false} PatternInside(pattern: string, prefix: string, folder: string)
    requires FolderPattern(pattern) && ValidBucket(folder)
    requires Glob(pattern, prefix) && InFolder(prefix, folder)
    ensures InFolder(pattern, folder)
  {
    var k :| 0 <= k < |pattern| && pattern[k] == '/' && ValidBucket(pattern[..k]);
    var head := pattern[..k + 1];
    assert forall i :: 0 <= i < k ==> head[i] == pattern[..k][i];
    assert Literal(head);
    assert pattern == head + pattern[k + 1..];
    GlobLiteralHead(head, pattern[k + 1..], prefix);
    InFolderFirstSlash(prefix, folder);
    assert prefix[k] == head[k] == '/';
    assert forall i :: 0 <= i < k ==> prefix[i] == pattern[..k][i] && NameChar(prefix[i]);
    assert k == |folder|;
    assert pattern[..k + 1] == prefix[..k + 1] == folder + "/";
  }

  /** Inside a folder, what the document holds allows only what its last grant makes listable. */
  lemma {:induction false} HeldListable(d: Document, g: Grants, name: string, op: Operator, prefix: string)
    requires ValidRoot(name) && ListingWritten(d, BucketOf(name)) && InFolder(prefix, FolderOf(name))
    requires name in g ==> ValidPaths(g[name].paths)
    requires HoldsOnly(d, g, name) && AllowedBy(op, ListPrefixes(d, BucketOf(name), op), prefix)
    ensures name in g && Listable(prefix, FolderPaths(FolderOf(name), g[name].paths), FolderOf(name))
  {
    var x := HeldPrefix(d, name, op, prefix);
    assert FromGrant(g, name, op, x);
    GrantedExact(name, g[name].paths, prefix);
    hide *;
    hide Glob, Listable, NewPrefixes, FolderPaths;
  }

  lemma {:induction false} HeldPrefix(d: Document, name: string, op: Operator, prefix: string) returns (x: string)
    requires ValidRoot(name) && ListingWritten(d, BucketOf(name)) && InFolder(prefix, FolderOf(name))
    requires AllowedBy(op, ListPrefixes(d, BucketOf(name), op), prefix)
    ensures HeldInside(d, name, op, x) && if op.Equals? then x == prefix else Glob(x, prefix)
  {
    assert ValidBucket(FolderOf(name)) && HasSlash(name);
    hide ValidRoot, ListingWritten, InFolder, ListPrefixes, Glob, FolderPattern, ValidBucket;
    x := prefix;
    if op.Like? {
      x :| x in ListPrefixes(d, BucketOf(name), op) && Glob(x, prefix);
      WrittenPattern(d, BucketOf(name), x);
      PatternInside(x, prefix, FolderOf(name));
    }
  }

  /** All that the last grant makes listable is allowed by what the document holds. */
  lemma {:induction false} ListableHeld(d: Document, g: Grants, name: string, prefix: string)
    requires ValidRoot(name) && name in g && ValidPaths(g[name].paths)
    requires HoldsAll(d, g, name) && Listable(prefix, FolderPaths(FolderOf(name), g[name].paths), FolderOf(name))
    ensures exists op: Operator :: AllowedBy(op, ListPrefixes(d, BucketOf(name), op), prefix)
  {
    assert HasSlash(name);
    var bucket, full := BucketOf(name), FolderPaths(FolderOf(name), g[name].paths);
    GrantedExact(name, g[name].paths, prefix);
    hide ValidRoot, ListPrefixes, NewPrefixes, Listable, Below, FolderPaths, Glob, ValidPaths, InFolder;
    if prefix in NewPrefixes(Equals, full) {
      assert HeldInside(d, name, Equals, prefix);
      assert AllowedBy(Equals, ListPrefixes(d, bucket, Equals), prefix);
    } else {
      var x :| x in NewPrefixes(Like, full) && Glob(x, prefix);
      assert HeldInside(d, name, Like, x);
      assert AllowedBy(Like, ListPrefixes(d, bucket, Like), prefix);
    }
  }

  lemma {:induction false} GrantedExact(name: string, paths: seq<string>, prefix: string)
    requires ValidRoot(name) && ValidPaths(paths)
    ensures var full := FolderPaths(FolderOf(name), paths);
            Listable(prefix, full, FolderOf(name)) <==>
              prefix in NewPrefixes(Equals, full) || exists x :: x in NewPrefixes(Like, full) && Glob(x, prefix)
  {
    var full := FolderPaths(FolderOf(name), paths);
    FullPathsInFolder(name, paths);
    NewPrefixesExact(full, FolderOf(name), prefix);
    PatternsBelow(full, prefix);
    hide *;
  }

  /** `list` holds a bucket in play exactly when the map does; never the root bucket of a folder in play. */
  lemma {:induction false} ListCoversGranted(d: Document, g: Grants, names: set<string>, name: string)
    requires ValidNames(names) && ValidGrants(g, names) && name in names && Encodes(d, g)
    ensures if HasSlash(name) then !ListCovers(d, BucketOf(name)) else ListCovers(d, name) <==> name in g
  {
    var bucket := if HasSlash(name) then BucketOf(name) else name;
    EncodedDocument(d, g);
    PlainLookup(d, List);
    if ListCovers(d, bucket) {
      var r :| r in Res(d, Name(List)) && Glob(r, Arn(bucket));
      assert GrantedBucket(g, r);
      var m :| m in g && !HasSlash(m) && r == Arn(m);
      BucketMatch(m, bucket);
      if HasSlash(name) {
        RootsApart(name, names, m);
      }
    }
    if !HasSlash(name) && name in g {
      assert GrantedBucket(g, Arn(name));
      assert Arn(name) in Res(d, Name(List));
      LiteralArn(name);
      GlobLiteral(Arn(name), Arn(name));
    }
  }

  // ---------------------------------------------------------------- the root of the bucket

  /** Some folder of the bucket is in the map. */
  ghost predicate SomeFolderGranted(g: Grants, bucket: string) {
    exists n :: n in g && ValidRoot(n) && BucketOf(n) == bucket
  }

  lemma {:induction false} RootOfStatement(s: Stmt, bucket: string)
    requires WrittenStmt(Equals, s, Arn(bucket)) && RootedStmt(s) && ValidBucket(bucket)
    ensures StmtAllows(s, bucket, "") <==> s.condition.StringEquals?
  {
    hide Matches;
    if s.condition.StringEquals? {
      OwnMatch(s.resource, bucket);
    }
    BlankMatchesNothing(s.sid, Arn(bucket));
  }

  lemma {:induction false} BlankMatchesNothing(sid: string, resource: string)
    ensures !Matches(Blank(sid).resource, resource)
  {
  }

  lemma {:induction false} RootStatement(d: Document, bucket: string)
    requires ListingWritten(d, bucket) && ValidBucket(bucket)
    requires RootedStmt(Lookup(d, ListingSid(Equals, bucket)))
    ensures FolderStmtsAllow(d, bucket, "") <==> Lookup(d, ListingSid(Equals, bucket)).condition.StringEquals?
    ensures FolderStmtsAllow(d, bucket, "") ==> exists x :: x != "" && x in ListPrefixes(d, bucket, Equals)
  {
    var s := Lookup(d, ListingSid(Equals, bucket));
    assert WrittenStmt(Equals, s, Arn(bucket));
    LikeNotRoot(d, bucket);
    RootOfStatement(s, bucket);
    hide ListingWritten, Lookup, StmtAllows, WrittenStmt, ListingSid, ValidBucket;
    assert FolderStmtsAllow(d, bucket, "") <==> StmtAllows(s, bucket, "") || StmtAllows(Lookup(d, ListingSid(Like, bucket)), bucket, "");
    if s.condition.StringEquals? {
      assert s.condition.prefixes[1] in ListPrefixes(d, bucket, Equals);
    }
  }

  lemma {:induction false} LikeNotRoot(d: Document, bucket: string)
    requires ListingWritten(d, bucket)
    ensures !StmtAllows(Lookup(d, ListingSid(Like, bucket)), bucket, "")
  {
    var s := Lookup(d, ListingSid(Like, bucket));
    assert WrittenStmt(Like, s, Arn(bucket));
    hide Glob, FolderPattern;
    if Live(s) {
      forall x | x in s.condition.prefixes
        ensures !Glob(x, "")
      {
        assert x in CurrentPrefixes(Like, s.condition);
        ShapedNotEmpty(x);
      }
    }
  }

  /**
   * The root of a bucket may be listed only if one of its folders is granted, and it may if one is
   * whose name no other begins.
   */
  lemma {:induction false} RootAllowed(d: Document, g: Grants, names: set<string>, name: string)
    requires ValidNames(names) && ValidGrants(g, names) && name in names && HasSlash(name) && Encodes(d, g)
    requires NameListed(d, g, names, name)
    ensures AllowsListing(d, BucketOf(name), "") ==> SomeFolderGranted(g, BucketOf(name))
    ensures name in g && NoExtension(names, name) ==> AllowsListing(d, BucketOf(name), "")
  {
    NamesValid(names, name);
    NoSlashInBucket(name);
    var bucket := BucketOf(name);
    assert name in g ==> ValidPaths(g[name].paths);
    ListCoversGranted(d, g, names, name);
    EncodedDocument(d, g);
    WrittenReady(d, bucket);
    RootDecides(d, bucket);
    hide ValidNames, ValidGrants, Encodes, Stored, Plain, ListingWritten, ListCovers, AllowsListing, NoExtension, RootedStmt,
         Lookup, ValidRoot, FolderStmtsAllow;
    RootStatement(d, bucket);
    if AllowsListing(d, bucket, "") {
      var x :| x != "" && x in ListPrefixes(d, bucket, Equals);
      var n :| NamedBy(g, bucket, x, n);
    }
    if name in g && NoExtension(names, name) {
      FolderHeld(d, g, name);
    }
  }

  lemma {:induction false} RootDecides(d: Document, bucket: string)
    requires ListingWritten(d, bucket)
    ensures AllowsListing(d, bucket, "") <==> ListCovers(d, bucket) || FolderStmtsAllow(d, bucket, "")
  {
    AllowsByStatements(d, bucket, "");
  }

  /** A folder in the map has prefixes in the document. */
  lemma {:induction false} FolderHeld(d: Document, g: Grants, name: string)
    requires ValidRoot(name) && name in g && ValidPaths(g[name].paths) && HoldsAll(d, g, name)
    ensures Lookup(d, ListingSid(Equals, BucketOf(name))).condition.StringEquals?
  {
    var full := FolderPaths(FolderOf(name), g[name].paths);
    FullPathsInFolder(name, g[name].paths);
    PathsAdded(full, full[0]);
    assert full[0] in full;
    assert FromGrant(g, name, Equals, full[0]);
    assert HeldInside(d, name, Equals, full[0]);
    NothingInside(FolderOf(name));
  }

  /** So after any run from the base policy. */
  lemma {:induction false} RootAfterRun(ops: seq<Op>, names: set<string>, name: string)
    requires ValidNames(names) && name in names && HasSlash(name) && NoCollision(names, BucketOf(name))
    requires forall op :: op in ops ==> ValidOp(op, names)
    ensures var d, g := Run(BASE_S3_ACCESS_POLICY, ops), RunAbstractly(map[], ops);
            && (AllowsListing(d, BucketOf(name), "") ==> SomeFolderGranted(g, BucketOf(name)))
            && (name in g && NoExtension(names, name) ==> AllowsListing(d, BucketOf(name), ""))
  {
    hide BASE_S3_ACCESS_POLICY, Run, RunAbstractly, ValidNames, ValidOp, AllowsListing, SomeFolderGranted, NoExtension, NameListed,
         NoCollision;
    RunListed(ops, names, name);
    RootAllowed(Run(BASE_S3_ACCESS_POLICY, ops), RunAbstractly(map[], ops), names, name);
  }

  /** And always right after a folder grant, whatever the run did before. */
  lemma {:induction false} RootAfterGrant(ops: seq<Op>, names: set<string>, root: string, level: Level,
                                          paths: seq<string>)
    requires ValidNames(names) && root in names && NoCollision(names, BucketOf(root))
    requires ValidFolderGrant(root, paths)
    requires forall op :: op in ops ==> ValidOp(op, names)
    ensures AllowsListing(GrantFolder(Run(BASE_S3_ACCESS_POLICY, ops), root, level, paths), BucketOf(root), "")
  {
    assert HasSlash(root);
    var d := Run(BASE_S3_ACCESS_POLICY, ops);
    RunListed(ops, names, root);
    WrittenReady(d, BucketOf(root));
    hide BASE_S3_ACCESS_POLICY, Run, RunAbstractly, ValidNames, ValidOp, AllowsListing, NoCollision, GrantFolder, ListingWritten,
         ListingReady, Loadable, Lookup, HoldsOnly, HoldsAll, PrefixesNamed, NoExtension, Encodes;
    RootListed(d, root, level, paths);
  }

  // ---------------------------------------------------------------- uses of a datasource

  /** What a role may want of a datasource: an action on an object, or a look at its contents. */
  datatype Use = Object(action: string, key: string) | Contents(prefix: string)

  /** The contents of a folder are listed with prefixes inside it. */
  predicate UseOf(name: string, use: Use) {
    match use
    case Object(action, _) => ObjectAction(action)
    case Contents(prefix) => HasSlash(name) ==> InFolder(prefix, FolderOf(name))
  }

  ghost predicate AllowsUse(d: Document, name: string, use: Use) {
    match use
    case Object(action, key) => Allows(d, action, Arn(name) + ("/" + key))
    case Contents(prefix) => AllowsListing(d, if HasSlash(name) then BucketOf(name) else name, prefix)
  }

  predicate CoversUse(name: string, grant: Grant, use: Use) {
    match use
    case Object(action, key) => Covers(grant, action, key)
    case Contents(prefix) => HasSlash(name) ==> Listable(prefix, FolderPaths(FolderOf(name), grant.paths), FolderOf(name))
  }

  /** MD5 tells the root bucket of the folder, if it is one, from those of the others. */
  ghost predicate NoCollisionFor(names: set<string>, name: string, use: Use) {
    use.Contents? && HasSlash(name) ==> NoCollision(names, BucketOf(name))
  }

  ghost predicate NoExtensionFor(names: set<string>, name: string, use: Use) {
    use.Contents? && HasSlash(name) ==> NoExtension(names, name)
  }

  lemma {:induction false} ContentsAllowed(d: Document, g: Grants, names: set<string>, name: string, prefix: string)
    requires ValidNames(names) && ValidGrants(g, names) && name in names && Encodes(d, g)
    requires NameListed(d, g, names, name) && UseOf(name, Contents(prefix))
    ensures AllowsUse(d, name, Contents(prefix)) ==> name in g && CoversUse(name, g[name], Contents(prefix))
    ensures NoExtensionFor(names, name, Contents(prefix)) ==>
              (name in g && CoversUse(name, g[name], Contents(prefix)) ==> AllowsUse(d, name, Contents(prefix)))
  {
    assert ValidName(name);
    assert name in g ==> ValidPaths(g[name].paths);
    ListCoversGranted(d, g, names, name);
    EncodedDocument(d, g);
    hide ValidNames, ValidGrants, Encodes, Stored, Plain, HoldsOnly, HoldsAll, ListingWritten, ListCovers, ValidName, ValidPaths,
         AllowsListing, Listable, NoExtension;
    if HasSlash(name) {
      NoSlashInBucket(name);
      InsideStarts(prefix, FolderOf(name));
      WrittenListing(d, BucketOf(name), prefix);
      if op: Operator :| AllowedBy(op, ListPrefixes(d, BucketOf(name), op), prefix) {
        HeldListable(d, g, name, op, prefix);
      }
      if name in g && HoldsAll(d, g, name) && Listable(prefix, FolderPaths(FolderOf(name), g[name].paths), FolderOf(name)) {
        ListableHeld(d, g, name, prefix);
      }
    } else {
      BucketListing(d, name, prefix);
    }
  }

  /** When only `list` is about listing the bucket, it decides. */
  lemma {:induction false} BucketListing(d: Document, bucket: string, prefix: string)
    requires Stored(d) && Plain(d) && bucket != "" && ListedUnder(d, bucket, {Name(List)})
    ensures AllowsListing(d, bucket, prefix) <==> ListCovers(d, bucket)
  {
    NamesApart(bucket);
    ListingSidsHave(bucket);
    hide Gives, Matches, LIST_BUCKET, Stored, Plain, Lookup, ListingSid, Name, ListingSids, AllowsListing, ListCovers, Lists;
    AllowsByStatements(d, bucket, prefix);
    forall op: Operator
      ensures !StmtAllows(Lookup(d, ListingSid(op, bucket)), bucket, prefix)
    {
      ListingStatement(d, bucket, ListingSid(op, bucket));
      ListsIfAllows(Lookup(d, ListingSid(op, bucket)), bucket, prefix);
    }
  }

  lemma {:induction false} ListsIfAllows(s: Stmt, bucket: string, prefix: string)
    ensures StmtAllows(s, bucket, prefix) && Gives(s.body, LIST_BUCKET) ==> Lists(s, bucket)
  {
  }

  /** The document allows a use of a datasource if and only if the datasource's last grant covers it. */
  lemma {:induction false} UseAllowed(d: Document, g: Grants, names: set<string>, name: string, use: Use)
    requires ValidNames(names) && ValidGrants(g, names) && name in names && Encodes(d, g)
    requires UseOf(name, use) && (use.Contents? ==> NameListed(d, g, names, name))
    ensures AllowsUse(d, name, use) ==> name in g && CoversUse(name, g[name], use)
    ensures NoExtensionFor(names, name, use) ==> (name in g && CoversUse(name, g[name], use) ==> AllowsUse(d, name, use))
  {
    hide ValidNames, ValidGrants, Encodes, NameListed, Allows, AllowsListing, Covers, Listable;
    match use
    case Object(action, key) => AllowsExactly(d, g, names, name, key, action);
    case Contents(prefix) => ContentsAllowed(d, g, names, name, prefix);
  }

  /**
   * What a role may do after any run from the base policy: objects exactly as last granted, the
   * contents of a bucket exactly when it is granted, and of a folder nothing but what its paths make
   * listable, and all of that unless another folder's name begins its own.
   */
  lemma {:induction false} UseAfterRun(ops: seq<Op>, names: set<string>, name: string, use: Use)
    requires ValidNames(names) && name in names && UseOf(name, use) && NoCollisionFor(names, name, use)
    requires forall op :: op in ops ==> ValidOp(op, names)
    ensures var d, g := Run(BASE_S3_ACCESS_POLICY, ops), RunAbstractly(map[], ops);
            && (AllowsUse(d, name, use) ==> name in g && CoversUse(name, g[name], use))
            && (NoExtensionFor(names, name, use) ==> (name in g && CoversUse(name, g[name], use) ==> AllowsUse(d, name, use)))
  {
    var d, g := Run(BASE_S3_ACCESS_POLICY, ops), RunAbstractly(map[], ops);
    BaseEncodesNothing();
    RunRefines(BASE_S3_ACCESS_POLICY, map[], ops, names);
    if use.Contents? {
      RunListed(ops, names, name);
    }
    UseAllowed(d, g, names, name, use);
  }

  // ---------------------------------------------------------------- when folder names extend one another

  function WholeGrant(name: string): Op {
    GrantOp(name, Grant(ReadOnly, []))
  }

  /** Grant a folder, then revoke one whose name begins the folder's. */
  function GrantThenRevoke(name: string, other: string): seq<Op> {
    [WholeGrant(name)] + [RevokeOp(other)]
  }

  lemma {:induction false} RunSnoc(d: Document, ops: seq<Op>, op: Op)
    ensures Run(d, ops + [op]) == PerformOp(Run(d, ops), op)
  {
    hide PerformOp;
  }

  lemma {:induction false} RunAbstractlySnoc(g: Grants, ops: seq<Op>, op: Op)
    ensures RunAbstractly(g, ops + [op]) == Abstractly(RunAbstractly(g, ops), op)
  {
    hide Abstractly;
  }

  lemma {:induction false} WholeGrantValid(names: set<string>, name: string)
    requires name in names
    ensures ValidOp(WholeGrant(name), names)
  {
  }

  /** After any run, only the folder statements are about listing the bucket. */
  lemma {:induction false} RunWritten(ops: seq<Op>, names: set<string>, name: string)
    requires ValidNames(names) && name in names && HasSlash(name) && NoCollision(names, BucketOf(name))
    requires forall op :: op in ops ==> ValidOp(op, names)
    ensures var d := Run(BASE_S3_ACCESS_POLICY, ops);
            Stored(d) && ListingWritten(d, BucketOf(name)) && !ListCovers(d, BucketOf(name))
  {
    hide BASE_S3_ACCESS_POLICY, Run, RunAbstractly, ValidNames, ListCovers, NoCollision, ListingWritten, HoldsOnly, HoldsAll,
         NoExtension, Stored, ValidGrants, ValidOp, Encodes;
    var d, g := Run(BASE_S3_ACCESS_POLICY, ops), RunAbstractly(map[], ops);
    RunListed(ops, names, name);
    EncodedDocument(d, g);
    ListCoversGranted(d, g, names, name);
  }

  lemma {:induction false} RevokedExtension(d: Document, name: string, other: string)
    requires HasSlash(name) && ValidRoot(other) && BucketOf(other) == BucketOf(name)
    requires StartsWith(FolderOf(name), FolderOf(other))
    requires ListingWritten(d, BucketOf(name)) && !ListCovers(d, BucketOf(name))
    ensures !AllowsListing(PerformOp(d, RevokeOp(other)), BucketOf(name), FolderOf(name))
  {
    assert HasSlash(other);
    hide PerformOp, RevokeFolder, ValidRoot, ListCovers, AllowsListing, ListingWritten, ListingReady, Loadable;
    WrittenReady(d, BucketOf(other));
    RevokedListsNothing(d, other, FolderOf(name));
    RevokeFolderIs(d, other);
  }

  /** Nothing of the folder may be listed then. */
  lemma {:induction false} ExtensionRevoked(names: set<string>, name: string, other: string)
    requires ValidNames(names) && name in names && other in names
    requires HasSlash(name) && ValidRoot(other) && BucketOf(other) == BucketOf(name)
    requires StartsWith(FolderOf(name), FolderOf(other)) && NoCollision(names, BucketOf(name))
    ensures !AllowsListing(Run(BASE_S3_ACCESS_POLICY, GrantThenRevoke(name, other)), BucketOf(name), FolderOf(name))
  {
    hide BASE_S3_ACCESS_POLICY, Run, RunAbstractly, PerformOp, ValidNames, ValidRoot, ValidOp, ListCovers, AllowsListing,
         NoCollision, ListingWritten, Stored, WholeGrant;
    RunSnoc(BASE_S3_ACCESS_POLICY, [WholeGrant(name)], RevokeOp(other));
    WholeGrantValid(names, name);
    RunWritten([WholeGrant(name)], names, name);
    RevokedExtension(Run(BASE_S3_ACCESS_POLICY, [WholeGrant(name)]), name, other);
  }

  lemma {:induction false} RevokeFolderIs(d: Document, root: string)
    requires HasSlash(root)
    ensures PerformOp(d, RevokeOp(root)) == RevokeFolder(d, root)
  {
  }

  lemma {:induction false} WholeFolder(name: string)
    requires ValidRoot(name)
    ensures CoversUse(name, Grant(ReadOnly, []), Contents(FolderOf(name)))
    ensures InFolder(FolderOf(name), FolderOf(name))
  {
    var folder := FolderOf(name);
    hide TrailingSlashes, Below;
    assert FolderPaths(folder, []) == [folder];
    assert [folder][0] == folder && AncestorOrSelf(folder, folder, folder);
    assert OnTheWay(folder, [folder], folder);
  }

  lemma {:induction false} ExtensionOps(names: set<string>, name: string, other: string)
    requires name in names && other in names
    ensures forall op :: op in GrantThenRevoke(name, other) ==> ValidOp(op, names)
  {
    WholeGrantValid(names, name);
    hide WholeGrant;
  }

  /** By the map, though, the folder stays granted. */
  lemma {:induction false} ExtensionGranted(g: Grants, name: string, other: string)
    requires name != other
    ensures var g' := RunAbstractly(g, GrantThenRevoke(name, other));
            name in g' && g'[name] == Grant(ReadOnly, [])
  {
    NoOps(g);
    hide RunAbstractly, Run, Abstractly, WholeGrant;
    assert [] + [WholeGrant(name)] == [WholeGrant(name)];
    RunAbstractlySnoc(g, [], WholeGrant(name));
    RunAbstractlySnoc(g, [WholeGrant(name)], RevokeOp(other));
    GrantKeptByOther(g, name, other);
  }

  lemma {:induction false} NoOps(g: Grants)
    ensures RunAbstractly(g, []) == g
  {
  }

  lemma {:induction false} GrantKeptByOther(g: Grants, name: string, other: string)
    requires name != other
    ensures var g' := Abstractly(Abstractly(g, WholeGrant(name)), RevokeOp(other));
            name in g' && g'[name] == Grant(ReadOnly, [])
  {
  }

  lemma {:induction false} NamesValid(names: set<string>, n: string)
    requires ValidNames(names) && n in names
    ensures ValidName(n)
  {
  }

  /** In every run, listing the folder is as last granted. */
  ghost predicate ListedAsGranted(names: set<string>, name: string)
    requires HasSlash(name)
  {
    forall ops: seq<Op>, prefix: string | (forall op :: op in ops ==> ValidOp(op, names)) && InFolder(prefix, FolderOf(name)) ::
      var d, g := Run(BASE_S3_ACCESS_POLICY, ops), RunAbstractly(map[], ops);
      AllowsUse(d, name, Contents(prefix)) <==> name in g && CoversUse(name, g[name], Contents(prefix))
  }

  lemma {:induction false} ExtensionLoses(names: set<string>, name: string, other: string)
    requires ValidNames(names) && name in names && other in names && name != other
    requires HasSlash(name) && HasSlash(other) && BucketOf(other) == BucketOf(name)
    requires StartsWith(FolderOf(name), FolderOf(other)) && NoCollision(names, BucketOf(name))
    ensures !ListedAsGranted(names, name)
  {
    NamesValid(names, name);
    NamesValid(names, other);
    hide BASE_S3_ACCESS_POLICY, Run, RunAbstractly, ValidNames, ValidName, AllowsListing, InFolder, CoversUse, NoCollision, ValidOp,
         GrantThenRevoke, ValidRoot;
    NoSlashInBucket(name);
    NoSlashInBucket(other);
    ExtensionRevoked(names, name, other);
    ExtensionGranted(map[], name, other);
    ExtensionOps(names, name, other);
    WholeFolder(name);
    assert !AllowsUse(Run(BASE_S3_ACCESS_POLICY, GrantThenRevoke(name, other)), name, Contents(FolderOf(name)));
  }

  /** Listing a folder is as last granted in every run exactly when no other folder's name begins its own. */
  lemma {:induction false} ExactIffNoExtension(names: set<string>, name: string)
    requires ValidNames(names) && name in names && HasSlash(name) && NoCollision(names, BucketOf(name))
    ensures ListedAsGranted(names, name) <==> NoExtension(names, name)
  {
    hide BASE_S3_ACCESS_POLICY, Run, RunAbstractly, ValidNames, AllowsListing, InFolder, CoversUse, NoCollision, ValidOp;
    if NoExtension(names, name) {
      forall ops: seq<Op>, prefix: string | (forall op :: op in ops ==> ValidOp(op, names)) && InFolder(prefix, FolderOf(name))
        ensures var d, g := Run(BASE_S3_ACCESS_POLICY, ops), RunAbstractly(map[], ops);
                AllowsUse(d, name, Contents(prefix)) <==> name in g && CoversUse(name, g[name], Contents(prefix))
      {
        UseAfterRun(ops, names, name, Contents(prefix));
      }
    } else {
      var m :| m in names && m != name && HasSlash(m) && BucketOf(m) == BucketOf(name) && StartsWith(FolderOf(name), FolderOf(m));
      ExtensionLoses(names, name, m);
    }
  }

  // ---------------------------------------------------------------- right after a grant

  /**
   * After any run of grants and revokes from the base policy, a folder grant lets the role list, of
   * what starts with the folder's name, exactly what its paths make listable: whatever the run did
   * to this folder, and to others.
   */
  lemma {:induction false} ListingAfterRun(ops: seq<Op>, names: set<string>, root: string, level: Level,
                                           paths: seq<string>, prefix: string)
    requires ValidNames(names) && root in names && NoCollision(names, BucketOf(root))
    requires ValidFolderGrant(root, paths) && StartsWith(prefix, FolderOf(root))
    requires forall op :: op in ops ==> ValidOp(op, names)
    ensures AllowsListing(GrantFolder(Run(BASE_S3_ACCESS_POLICY, ops), root, level, paths), BucketOf(root), prefix)
       <==> Listable(prefix, FolderPaths(FolderOf(root), paths), FolderOf(root))
  {
    var d, g := Run(BASE_S3_ACCESS_POLICY, ops), RunAbstractly(map[], ops);
    RunListed(ops, names, root);
    ListCoversGranted(d, g, names, root);
    WrittenReady(d, BucketOf(root));
    ListingExact(d, root, level, paths, prefix);
  }
}
