/**
 Whole runs of grants and revokes on one role. The stored document is a representation of the map
 "datasource -> last granted level and paths"; what it allows on objects is read off that map.
 */
module GrantRefinement {
  import opened Options
  import opened Strings
  import opened Permissions
  import opened PolicyDocument
  import opened RoleGrants
  import opened GrantLaws

  // ---------------------------------------------------------------- the map and its operations

  datatype Grant = Grant(level: Level, paths: seq<string>)

  /** By datasource name: "bucket" or "bucket/folder". */
  type Grants = map<string, Grant>

  datatype Op = GrantOp(name: string, grant: Grant) | RevokeOp(name: string)

  function Abstractly(g: Grants, op: Op): Grants {
    match op
    case GrantOp(n, grant) => g[n := grant]
    case RevokeOp(n) => g - {n}
  }

  function RunAbstractly(g: Grants, ops: seq<Op>): Grants {
    if ops == [] then g else Abstractly(RunAbstractly(g, ops[..|ops| - 1]), ops[|ops| - 1])
  }

  /** `AccessToS3Bucket.resources`: the ARN of each path, or of the datasource itself. */
  function ResourceArns(name: string, paths: seq<string>): seq<string> {
    FolderPaths(Arn(name), paths)
  }

  /** The object resources that a grant puts in its level's statement. */
  function Objects(name: string, paths: seq<string>): seq<string> {
    Stars(ResourceArns(name, paths))
  }

  /** The handlers' choice between bucket and folder access, by the name of the datasource. */
  function PerformOp(d: Document, op: Op): Document {
    match op
    case GrantOp(n, grant) =>
      if HasSlash(n) then GrantFolder(d, n, grant.level, grant.paths)
      else GrantBucket(d, Arn(n), grant.level, ResourceArns(n, grant.paths))
    case RevokeOp(n) =>
      if HasSlash(n) then RevokeFolder(d, n) else RevokeBucket(d, Arn(n))
  }

  function Run(d: Document, ops: seq<Op>): Document {
    if ops == [] then d else PerformOp(Run(d, ops[..|ops| - 1]), ops[|ops| - 1])
  }

  // ---------------------------------------------------------------- names that do not contain one another

  predicate ValidName(n: string) {
    ValidBucket(n) || ValidRoot(n)
  }

  predicate Unrelated(n: string, m: string) {
    n != m && !StartsWith(n, m + "/") && !StartsWith(m, n + "/")
  }

  /** The datasources in play: none is a folder of another. */
  ghost predicate ValidNames(names: set<string>) {
    && (forall n :: n in names ==> ValidName(n))
    && (forall n, m :: n in names && m in names && n != m ==> Unrelated(n, m))
  }

  ghost predicate ValidOp(op: Op, names: set<string>) {
    && op.name in names
    && (op.GrantOp? ==> ValidPaths(op.grant.paths))
  }

  ghost predicate ValidGrants(g: Grants, names: set<string>) {
    forall n :: n in g ==> n in names && ValidPaths(g[n].paths)
  }

  lemma {:induction false} ValidNameChars(n: string, i: nat)
    requires ValidName(n) && i < |n|
    ensures NameChar(n[i]) || n[i] == '/'
  {
  }

  /** Of two names whose ARNs a resource is part of, the longer one lies inside the shorter. */
  lemma {:induction false} PartsNest(r: string, n: string, m: string)
    requires ValidName(m) && |n| <= |m|
    requires PartOf(r, Arn(n)) && PartOf(r, Arn(m))
    ensures n == m || StartsWith(m, n + "/")
  {
    var a := Arn(m);
    assert a[..|Arn(n)|] == r[..|Arn(n)|] == Arn(n);
    assert m[..|n|] == a[|S3_ARN|..|S3_ARN| + |n|] == Arn(n)[|S3_ARN|..] == n;
    if |n| < |m| {
      assert r[|Arn(n)|] == a[|S3_ARN| + |n|] == m[|n|];
      ValidNameChars(m, |n|);
      assert m[..|n| + 1] == n + "/";
    }
  }

  /** A resource of one datasource is never part of an unrelated one, however similar the names. */
  lemma {:induction false} PartsApart(r: string, n: string, m: string)
    requires ValidName(n) && ValidName(m) && Unrelated(n, m)
    requires PartOf(r, Arn(n))
    ensures !PartOf(r, Arn(m))
  {
    if PartOf(r, Arn(m)) {
      if |n| <= |m| {
        PartsNest(r, n, m);
      } else {
        PartsNest(r, m, n);
      }
    }
  }

  lemma {:induction false} ObjectsArePart(n: string, paths: seq<string>)
    requires ValidPaths(paths)
    ensures Within(Arn(n), ResourceArns(n, paths))
    ensures ResourceArns(n, paths) != []
    ensures AllPartOf(n, paths)
  {
    forall a | a in ResourceArns(n, paths)
      ensures PartOf(a + "/*", Arn(n))
    {
      if paths != [] {
        var i :| 0 <= i < |paths| && ResourceArns(n, paths)[i] == a;
        assert paths[i] in paths;
        assert (a + "/*")[|Arn(n)|] == '/';
      }
    }
    StarsWithin(Arn(n), ResourceArns(n, paths));
  }

  predicate AllPartOf(n: string, paths: seq<string>) {
    forall r :: r in Objects(n, paths) ==> PartOf(r, Arn(n))
  }

  /** A folder grant's object resources are written bucket, slash, folder, path: the same strings. */
  lemma {:induction false} FolderObjects(root: string, paths: seq<string>)
    requires ValidRoot(root)
    ensures PathResources(BucketOf(root), FolderPaths(FolderOf(root), paths)) == Objects(root, paths)
  {
    RootParts(root);
    var p := FolderPaths(FolderOf(root), paths);
    var a, b := PathResources(BucketOf(root), p), Objects(root, paths);
    assert |a| == |b|;
    forall i | 0 <= i < |a|
      ensures a[i] == b[i]
    {
      if paths == [] {
        assert Arn(BucketOf(root)) + "/" + p[i] == Arn(root);
      } else {
        assert Arn(BucketOf(root)) + "/" + (FolderOf(root) + paths[i]) == Arn(root) + paths[i];
      }
    }
  }

  // ---------------------------------------------------------------- what one operation does to the lists

  function OpSteps(op: Op): seq<Step> {
    match op
    case GrantOp(n, grant) =>
      if HasSlash(n) then RevokeFolderSteps(n) + GrantFolderSteps(n, grant.level, grant.paths)
      else GrantBucketSteps(Arn(n), grant.level, ResourceArns(n, grant.paths))
    case RevokeOp(n) =>
      if HasSlash(n) then RevokeFolderSteps(n) else RevokeBucketSteps(Arn(n))
  }

  lemma {:induction false} PerformOpSteps(d: Document, op: Op)
    ensures PerformOp(d, op) == Perform(d, OpSteps(op))
  {
  }

  /** The resources added under a Sid by an operation, after those of the datasource were removed. */
  function NewResources(op: Op, sid: string): seq<string> {
    if op.RevokeOp? then []
    else if sid == Name(op.grant.level) then Objects(op.name, op.grant.paths)
    else if sid == Name(List) && !HasSlash(op.name) then [Arn(op.name)]
    else []
  }

  predicate Touched(op: Op, sid: string) {
    sid == Name(ReadOnly) || sid == Name(ReadWrite) || (sid == Name(List) && !HasSlash(op.name))
  }

  lemma {:induction false} NormItems(s: Stmt)
    ensures Items(Norm(s).resource) == Items(s.resource)
  {
  }

  /** The three lists are none of the statements that folder listing uses. */
  lemma {:induction false} ListedApart(sid: string, bucket: string)
    requires Listed(sid) && bucket != ""
    ensures sid != Name(RootFolderBucketMeta) && sid != ListingSid(Equals, bucket) && sid != ListingSid(Like, bucket)
  {
  }

  lemma {:induction false} FolderRevokedListed(s: Stmt, root: string)
    requires ValidRoot(root) && Listed(s.sid)
    ensures FolderRevoked(s, root) == if s.sid == Name(List) then s else Removed(s, Arn(root))
  {
    ListedApart(s.sid, BucketOf(root));
  }

  lemma {:induction false} FolderAddedListed(s: Stmt, root: string, level: Level, paths: seq<string>)
    requires ValidRoot(root) && Listed(s.sid)
    ensures FolderAdded(s, root, level, paths) == if s.sid == Name(level) then WithResources(s, Objects(root, paths)) else s
  {
    ListedApart(s.sid, BucketOf(root));
    FolderObjects(root, paths);
  }

  lemma {:induction false} FolderOpOn(op: Op, s: Stmt)
    requires ValidRoot(op.name) && Listed(s.sid)
    ensures OnAll(OpSteps(op), s)
         == if Touched(op, s.sid) then WithResources(Removed(s, Arn(op.name)), NewResources(op, s.sid)) else s
  {
    FolderRevokedListed(s, op.name);
    if op.GrantOp? {
      GrantFolderOn(op.name, op.grant.level, op.grant.paths, s);
      FolderAddedListed(FolderRevoked(s, op.name), op.name, op.grant.level, op.grant.paths);
    } else {
      RevokeFolderOn(op.name, s);
    }
  }

  lemma {:induction false} SomeResources(n: string, paths: seq<string>)
    ensures PathArns(Arn(n), ResourceArns(n, paths)) == ResourceArns(n, paths)
  {
  }

  lemma {:induction false} BucketOpOn(op: Op, s: Stmt)
    requires !HasSlash(op.name) && Listed(s.sid)
    ensures OnAll(OpSteps(op), s)
         == if Touched(op, s.sid) then WithResources(Removed(s, Arn(op.name)), NewResources(op, s.sid)) else s
  {
    RevokeBucketOn(Arn(op.name), s);
    hide OnAll, Removed, Added, WithResources, RevokeBucketSteps, GrantBucketSteps, Name, ResourceArns;
    NamesDiffer();
    NothingAdded(Removed(s, Arn(op.name)));
    if op.GrantOp? {
      GrantBucketOn(Arn(op.name), op.grant.level, ResourceArns(op.name, op.grant.paths), s);
      SomeResources(op.name, op.grant.paths);
      AddedOne(Removed(s, Arn(op.name)), Arn(op.name));
    }
  }

  lemma {:induction false} NoSlashInBucket(n: string)
    requires ValidName(n) && HasSlash(n)
    ensures ValidRoot(n)
  {
  }

  lemma {:induction false} OpOn(op: Op, s: Stmt)
    requires ValidName(op.name) && Listed(s.sid)
    ensures OnAll(OpSteps(op), s)
         == if Touched(op, s.sid) then WithResources(Removed(s, Arn(op.name)), NewResources(op, s.sid)) else s
  {
    if HasSlash(op.name) {
      NoSlashInBucket(op.name);
      FolderOpOn(op, s);
    } else {
      BucketOpOn(op, s);
    }
  }

  lemma {:induction false} OpStored(d: Document, op: Op)
    requires Loadable(d)
    ensures Stored(PerformOp(d, op))
  {
    PerformOpSteps(d, op);
    PerformStored(d, OpSteps(op));
  }

  /** Filter out the datasource, then append what is granted: the whole effect on the three lists. */
  lemma {:induction false} OpRes(d: Document, op: Op, b: Base)
    requires Loadable(d) && ValidName(op.name)
    requires b.ReadOnly? || b.ReadWrite? || b.List?
    ensures Res(PerformOp(d, op), Name(b))
         == if Touched(op, Name(b))
            then AddAll(Filter(NotPartOf(Arn(op.name)), Res(d, Name(b))), NewResources(op, Name(b)))
            else Res(d, Name(b))
  {
    var s := Lookup(Load(d), Name(b));
    PerformOpSteps(d, op);
    PerformLookup(d, OpSteps(op), Name(b));
    NormItems(OnAll(OpSteps(op), s));
    LoadLookup(d, Name(b));
    assert Items(s.resource) == Res(d, Name(b));
    OpOn(op, s);
    WithItems(s, Arn(op.name), NewResources(op, Name(b)));
  }

  lemma {:induction false} WithItems(s: Stmt, arn: string, rs: seq<string>)
    ensures Items(WithResources(Removed(s, arn), rs).resource) == AddAll(Filter(NotPartOf(arn), Items(s.resource)), rs)
  {
  }

  function IsPartOf(arn: string): string -> bool {
    (r: string) => PartOf(r, arn)
  }

  lemma {:induction false} NewResourcesPart(op: Op, sid: string)
    requires op.GrantOp? ==> ValidPaths(op.grant.paths)
    ensures forall r :: r in NewResources(op, sid) ==> PartOf(r, Arn(op.name))
  {
    if op.GrantOp? {
      ObjectsArePart(op.name, op.grant.paths);
    }
  }

  /**
   * Exact: after an operation the resources of its own datasource, in each of the three lists, are
   * the ones it granted, once each and in order.
   */
  lemma {:induction false} OpExact(d: Document, op: Op, b: Base)
    requires Loadable(d) && ValidName(op.name)
    requires op.GrantOp? ==> ValidPaths(op.grant.paths)
    requires (b.ReadOnly? || b.ReadWrite? || b.List?) && Touched(op, Name(b))
    ensures Filter(IsPartOf(Arn(op.name)), Res(PerformOp(d, op), Name(b))) == AddAll([], NewResources(op, Name(b)))
  {
    var left, new_ := Filter(NotPartOf(Arn(op.name)), Res(d, Name(b))), NewResources(op, Name(b));
    OpRes(d, op, b);
    NewResourcesPart(op, Name(b));
    AddAllApart(left, new_);
    FilterAppend(IsPartOf(Arn(op.name)), left, AddAll([], new_));
    FilterNone(IsPartOf(Arn(op.name)), left);
    FilterAll(IsPartOf(Arn(op.name)), AddAll([], new_));
  }

  /**
   * Framed: the resources of every other datasource stay, in each of the three lists and in order,
   * also when one name extends the other.
   */
  lemma {:induction false} OpFramed(d: Document, op: Op, other: string, b: Base)
    requires Loadable(d) && ValidName(op.name) && ValidName(other) && Unrelated(op.name, other)
    requires op.GrantOp? ==> ValidPaths(op.grant.paths)
    requires b.ReadOnly? || b.ReadWrite? || b.List?
    ensures Filter(IsPartOf(Arn(other)), Res(PerformOp(d, op), Name(b))) == Filter(IsPartOf(Arn(other)), Res(d, Name(b)))
  {
    OpRes(d, op, b);
    if Touched(op, Name(b)) {
      NewResourcesPart(op, Name(b));
      PartFramed(op.name, other, Res(d, Name(b)), NewResources(op, Name(b)));
    }
  }

  lemma {:induction false} PartFramed(name: string, other: string, before: seq<string>, new_: seq<string>)
    requires ValidName(name) && ValidName(other) && Unrelated(name, other)
    requires forall r :: r in new_ ==> PartOf(r, Arn(name))
    ensures Filter(IsPartOf(Arn(other)), AddAll(Filter(NotPartOf(Arn(name)), before), new_))
         == Filter(IsPartOf(Arn(other)), before)
  {
    var keep, mine := NotPartOf(Arn(name)), IsPartOf(Arn(other));
    forall r | PartOf(r, Arn(name))
      ensures !PartOf(r, Arn(other))
    {
      PartsApart(r, name, other);
    }
    AddAllApart(Filter(keep, before), new_);
    FilterAppend(mine, Filter(keep, before), AddAll([], new_));
    FilterNone(mine, AddAll([], new_));
    FilterFilter(mine, keep, before);
  }

  lemma {:induction false} PartOfFolder(r: string, arn: string, folder: string)
    requires PartOf(r, arn + "/" + folder)
    ensures PartOf(r, arn)
  {
  }

  /**
   * Why the datasources must not contain one another: revoking a bucket takes away what was granted
   * on the folders in it.
   */
  lemma {:induction false} BucketTakesFolders(d: Document, root: string, b: Base)
    requires Loadable(d) && ValidRoot(root)
    requires b.ReadOnly? || b.ReadWrite? || b.List?
    ensures Filter(IsPartOf(Arn(root)), Res(PerformOp(d, RevokeOp(BucketOf(root))), Name(b))) == []
  {
    var bucket := BucketOf(root);
    RootParts(root);
    BucketHasNoSlash(root);
    hide ValidRoot, ValidName, Res, PerformOp, Loadable, Arn, BucketOf, FolderOf, PartOf;
    OpRes(d, RevokeOp(bucket), b);
    var left := Res(PerformOp(d, RevokeOp(bucket)), Name(b));
    assert left == Filter(NotPartOf(Arn(bucket)), Res(d, Name(b)));
    forall r | r in left
      ensures !IsPartOf(Arn(root))(r)
    {
      if PartOf(r, Arn(root)) {
        PartOfFolder(r, Arn(bucket), FolderOf(root));
      }
    }
    FilterNone(IsPartOf(Arn(root)), left);
  }

  lemma {:induction false} BucketHasNoSlash(root: string)
    requires ValidRoot(root)
    ensures ValidName(BucketOf(root)) && !HasSlash(BucketOf(root))
  {
  }

  /** Every operation on one datasource leaves the other's resources alone, whatever the document. */
  ghost predicate Frames(name: string, other: string) {
    forall d: Document, op: Op, b: Base ::
      Stored(d) && op.name == name && (op.GrantOp? ==> ValidPaths(op.grant.paths)) && (b.ReadOnly? || b.ReadWrite? || b.List?) ==>
        Filter(IsPartOf(Arn(other)), Res(PerformOp(d, op), Name(b))) == Filter(IsPartOf(Arn(other)), Res(d, Name(b)))
  }

  /** Of two names that contain one another, the objects of the longer one are part of both. */
  lemma {:induction false} ContainedObjects(n: string, m: string)
    requires ValidName(n) && ValidName(m) && !Unrelated(n, m)
    ensures PartOf(Arn(if |n| > |m| then n else m) + "/*", Arn(n))
    ensures PartOf(Arn(if |n| > |m| then n else m) + "/*", Arn(m))
  {
  }

  /** The object resource of a fresh grant of a whole datasource, and whether a revoke takes it away. */
  lemma {:induction false} GrantedThenRevoked(l: string, n: string)
    requires ValidName(l) && ValidName(n)
    ensures var d := PerformOp(BASE_S3_ACCESS_POLICY, GrantOp(l, Grant(ReadOnly, [])));
            && Stored(d)
            && Arn(l) + "/*" in Res(d, Name(ReadOnly))
            && (PartOf(Arn(l) + "/*", Arn(n)) ==> Arn(l) + "/*" !in Res(PerformOp(d, RevokeOp(n)), Name(ReadOnly)))
  {
    var grant := GrantOp(l, Grant(ReadOnly, []));
    BaseDocument("");
    StoredLoads(BASE_S3_ACCESS_POLICY);
    assert Arn(l) + "/*" in NewResources(grant, Name(ReadOnly)) by {
      assert Objects(l, []) == [Arn(l) + "/*"];
    }
    hide PartOf, PerformOp, ValidName, Res, Loadable, Stored, Touched, Arn, BASE_S3_ACCESS_POLICY, NewResources, Name;
    OpStored(BASE_S3_ACCESS_POLICY, grant);
    OpHolds(BASE_S3_ACCESS_POLICY, grant, ReadOnly, Arn(l) + "/*");
    var d := PerformOp(BASE_S3_ACCESS_POLICY, grant);
    StoredLoads(d);
    OpHolds(d, RevokeOp(n), ReadOnly, Arn(l) + "/*");
    assert NewResources(RevokeOp(n), Name(ReadOnly)) == [] && Touched(grant, Name(ReadOnly)) && Touched(RevokeOp(n), Name(ReadOnly)) by {
      RevokesNothingNew(n, grant);
    }
  }

  lemma {:induction false} RevokesNothingNew(n: string, op: Op)
    ensures NewResources(RevokeOp(n), Name(ReadOnly)) == []
    ensures Touched(op, Name(ReadOnly)) && Touched(RevokeOp(n), Name(ReadOnly))
  {
  }

  /** After the longer name was granted on, revoking the first takes something of the other. */
  lemma {:induction false} RelatedTaken(n: string, m: string)
    requires ValidName(n) && ValidName(m) && !Unrelated(n, m)
    ensures !Frames(n, m)
  {
    hide PartOf, PerformOp, ValidName, Res, Stored, Arn, BASE_S3_ACCESS_POLICY, Unrelated, Name;
    var l := if |n| > |m| then n else m;
    var r, d := Arn(l) + "/*", PerformOp(BASE_S3_ACCESS_POLICY, GrantOp(l, Grant(ReadOnly, [])));
    ContainedObjects(n, m);
    GrantedThenRevoked(l, n);
    assert r in Filter(IsPartOf(Arn(m)), Res(d, Name(ReadOnly)));
    assert r !in Filter(IsPartOf(Arn(m)), Res(PerformOp(d, RevokeOp(n)), Name(ReadOnly)));
  }

  /** Unrelated names are exactly those whose operations do not interfere. */
  lemma {:induction false} FramesIffUnrelated(n: string, m: string)
    requires ValidName(n) && ValidName(m)
    ensures Frames(n, m) <==> Unrelated(n, m)
  {
    hide Unrelated, ValidName, PerformOp, Res, Stored;
    if Unrelated(n, m) {
      forall d: Document, op: Op, b: Base |
        Stored(d) && op.name == n && (op.GrantOp? ==> ValidPaths(op.grant.paths)) && (b.ReadOnly? || b.ReadWrite? || b.List?)
        ensures Filter(IsPartOf(Arn(m)), Res(PerformOp(d, op), Name(b))) == Filter(IsPartOf(Arn(m)), Res(d, Name(b)))
      {
        StoredLoads(d);
        OpFramed(d, op, m, b);
      }
    } else {
      RelatedTaken(n, m);
    }
  }

  // ---------------------------------------------------------------- where an operation cannot reach

  /**
   * A step edits resources of a plain statement, or one of the two listing statements of the root
   * bucket; to these it adds no other bucket.
   */
  predicate Aimed(st: Step, name: string) {
    match st.base
    case ListFolder => ListingStep(st, name)
    case ListSubFolders => ListingStep(st, name)
    case _ => st.suffix == "" && (st.edit.AddResource? || st.edit.RemoveResource?)
  }

  predicate ListingStep(st: Step, name: string) {
    && HasSlash(name) && st.suffix == BucketOf(name)
    && (st.edit.AddResource? ==> st.edit.arn == Arn(BucketOf(name)))
  }

  lemma {:induction false} LoopAimed(root: string, level: Level, paths: seq<string>)
    requires HasSlash(root)
    ensures AllAimed(FolderLoopSteps(BucketOf(root), level, paths), root)
  {
    if paths != [] {
      LoopAimed(root, level, paths[..|paths| - 1]);
    }
  }

  lemma {:induction false} RevokeAimed(n: string)
    ensures !HasSlash(n) ==> AllAimed(RevokeBucketSteps(Arn(n)), n)
    ensures HasSlash(n) ==> AllAimed(RevokeFolderSteps(n), n)
  {
  }

  lemma {:induction false} BucketGrantAimed(n: string, level: Level, pathArns: seq<string>)
    ensures AllAimed(GrantBucketSteps(Arn(n), level, pathArns), n)
  {
  }

  lemma {:induction false} FolderGrantAimed(root: string, level: Level, paths: seq<string>)
    requires HasSlash(root)
    ensures AllAimed(GrantFolderSteps(root, level, paths), root)
  {
    LoopAimed(root, level, FolderPaths(FolderOf(root), paths));
    hide FolderLoopSteps, FolderPaths;
  }

  predicate AllAimed(steps: seq<Step>, name: string) {
    forall st :: st in steps ==> Aimed(st, name)
  }

  lemma {:induction false} StepsAimed(op: Op)
    ensures AllAimed(OpSteps(op), op.name)
  {
    hide Aimed, RevokeFolderSteps, RevokeBucketSteps, GrantFolderSteps, GrantBucketSteps;
    RevokeAimed(op.name);
    if op.GrantOp? && HasSlash(op.name) {
      FolderGrantAimed(op.name, op.grant.level, op.grant.paths);
    } else if op.GrantOp? {
      BucketGrantAimed(op.name, op.grant.level, ResourceArns(op.name, op.grant.paths));
    }
  }

  lemma {:induction false} BodyKept(steps: seq<Step>, s: Stmt)
    ensures OnAll(steps, s).body == s.body
  {
    if steps != [] {
      BodyKept(steps[..|steps| - 1], s);
    }
  }

  lemma {:induction false} ConditionKept(steps: seq<Step>, s: Stmt)
    requires forall st :: st in steps && StepSid(st) == s.sid ==> st.edit.AddResource? || st.edit.RemoveResource?
    ensures OnAll(steps, s).condition == s.condition
  {
    hide StepSid;
    if steps != [] {
      ConditionKept(steps[..|steps| - 1], s);
    }
  }

  lemma {:induction false} Untouched(steps: seq<Step>, s: Stmt)
    requires forall st :: st in steps ==> StepSid(st) != s.sid
    ensures OnAll(steps, s) == s
  {
    hide StepSid, Apply;
    if steps != [] {
      Untouched(steps[..|steps| - 1], s);
    }
  }

  lemma {:induction false} AimedAtPlain(st: Step, name: string, b: Base)
    requires Aimed(st, name) && ValidName(name) && StepSid(st) == Name(b)
    ensures st.edit.AddResource? || st.edit.RemoveResource?
  {
    if HasSlash(name) {
      NoSlashInBucket(name);
      NamesApart(BucketOf(name));
    }
  }

  /** The plain statements stay without conditions. */
  lemma {:induction false} PlainStatement(d: Document, op: Op, b: Base)
    requires Loadable(d) && Plain(Load(d)) && ValidName(op.name)
    ensures Lookup(PerformOp(d, op), Name(b)).condition == NoCondition
  {
    var s := Lookup(Load(d), Name(b));
    assert s.condition == NoCondition;
    PerformOpSteps(d, op);
    StepsAimed(op);
    hide PerformOp, OpSteps, Aimed, ValidName, Plain, Loadable, Lookup, Load, StepSid, Name;
    forall st | st in OpSteps(op) && StepSid(st) == Name(b)
      ensures st.edit.AddResource? || st.edit.RemoveResource?
    {
      AimedAtPlain(st, op.name, b);
    }
    ConditionKept(OpSteps(op), s);
    PerformLookup(d, OpSteps(op), Name(b));
  }

  lemma {:induction false} OpKeepsPlain(d: Document, op: Op)
    requires Loadable(d) && Plain(Load(d)) && ValidName(op.name)
    ensures Plain(PerformOp(d, op))
  {
    OpStored(d, op);
    forall b: Base
      ensures Lookup(PerformOp(d, op), Name(b)).condition == NoCondition
    {
      PlainStatement(d, op, b);
    }
    hide PerformOp, Lookup, Name;
  }

  predicate PlainLevel(sid: string) {
    sid == Name(ReadOnly) || sid == Name(ReadWrite)
  }

  /** Object actions are given under the two plain Sids only. */
  ghost predicate Sealed(d: Document) {
    forall sid :: !PlainLevel(sid) ==> !(Live(Lookup(d, sid)) && GivesObjects(Lookup(d, sid).body))
  }

  lemma {:induction false} ObjectBody(b: Base)
    ensures GivesObjects(Standard(b)) ==> b.ReadOnly? || b.ReadWrite?
  {
    if GivesObjects(Standard(b)) {
      var a :| ObjectAction(a) && Gives(Standard(b), a);
      ObjectBodies(b, a);
    }
  }

  /** No step reaches another statement whose body gives object actions. */
  lemma {:induction false} AimedElsewhere(st: Step, name: string, s: Stmt)
    requires Aimed(st, name) && !PlainLevel(s.sid) && LoadStmt(s) == s && GivesObjects(s.body)
    ensures StepSid(st) != s.sid
  {
    SidRoundTrip(st.base, st.suffix);
    ObjectBody(st.base);
  }

  lemma {:induction false} OpKeepsSealed(d: Document, op: Op)
    requires Stored(d) && Sealed(d)
    ensures Sealed(PerformOp(d, op))
  {
    PerformOpSteps(d, op);
    StepsAimed(op);
    hide GivesObjects, PerformOp, OpSteps, Aimed, StepSid, PlainLevel;
    forall sid | !PlainLevel(sid)
      ensures !(Live(Lookup(PerformOp(d, op), sid)) && GivesObjects(Lookup(PerformOp(d, op), sid).body))
    {
      SealedStatement(d, op, sid);
    }
  }

  lemma {:induction false} SealedStatement(d: Document, op: Op, sid: string)
    requires Stored(d) && Sealed(d) && !PlainLevel(sid)
    ensures !(Live(Lookup(PerformOp(d, op), sid)) && GivesObjects(Lookup(PerformOp(d, op), sid).body))
  {
    PerformOpSteps(d, op);
    StepsAimed(op);
    hide GivesObjects, PerformOp, OpSteps, Aimed, StepSid, PlainLevel, Stored;
    var s := Lookup(d, sid);
    StoredLoads(d);
    PerformLookup(d, OpSteps(op), sid);
    BodyKept(OpSteps(op), s);
    LoadedLookup(d, sid);
    if GivesObjects(s.body) {
      forall st | st in OpSteps(op)
        ensures StepSid(st) != sid
      {
        AimedElsewhere(st, op.name, s);
      }
      Untouched(OpSteps(op), s);
    }
  }

  lemma {:induction false} StoredLoads(d: Document)
    requires Stored(d)
    ensures Load(d) == d && Loaded(d) && Loadable(d)
  {
  }

  // ---------------------------------------------------------------- the refinement

  predicate GrantedObject(g: Grants, level: Level, r: string) {
    exists n :: n in g && g[n].level == level && r in Objects(n, g[n].paths)
  }

  predicate GrantedBucket(g: Grants, r: string) {
    exists n :: n in g && !HasSlash(n) && r == Arn(n)
  }

  /**
   * The document stores exactly the map: each level's statement holds the object resources of the
   * grants of that level, `list` the ARNs of the granted buckets, nothing else and nothing twice;
   * these are without conditions, and no other statement gives object actions.
   */
  ghost predicate Encodes(d: Document, g: Grants) {
    && Stored(d) && Plain(d) && Sealed(d)
    && (forall l: Level, r: string :: r in Res(d, Name(l)) <==> GrantedObject(g, l, r))
    && (forall r: string :: r in Res(d, Name(List)) <==> GrantedBucket(g, r))
    && NoDuplicates(Res(d, Name(ReadOnly)))
    && NoDuplicates(Res(d, Name(ReadWrite)))
    && NoDuplicates(Res(d, Name(List)))
  }

  lemma {:induction false} BaseDocument(sid: string)
    ensures Stored(BASE_S3_ACCESS_POLICY)
    ensures Managed(sid) ==> Lookup(BASE_S3_ACCESS_POLICY, sid) == Blank(sid)
  {
  }

  lemma {:induction false} BaseLookup(b: Base)
    ensures Lookup(BASE_S3_ACCESS_POLICY, Name(b)) == Blank(Name(b))
  {
    SidRoundTrip(b, "");
    BaseDocument(Name(b));
  }

  lemma {:induction false} BaseSealed()
    ensures Sealed(BASE_S3_ACCESS_POLICY)
  {
    forall sid | GivesObjects(Lookup(BASE_S3_ACCESS_POLICY, sid).body)
      ensures !Live(Lookup(BASE_S3_ACCESS_POLICY, sid))
    {
      BaseInert(sid);
    }
  }

  lemma {:induction false} BaseInert(sid: string)
    requires GivesObjects(Lookup(BASE_S3_ACCESS_POLICY, sid).body)
    ensures !Live(Lookup(BASE_S3_ACCESS_POLICY, sid))
  {
    hide Gives, ObjectAction;
    var a :| ObjectAction(a) && Gives(Lookup(BASE_S3_ACCESS_POLICY, sid).body, a);
    UserBucketsInert(a);
  }

  /** A role starts with the base document, which encodes no grants. */
  lemma {:induction false} BaseEncodesNothing()
    ensures Encodes(BASE_S3_ACCESS_POLICY, map[])
  {
    BaseDocument("");
    BaseSealed();
    hide BASE_S3_ACCESS_POLICY, Lookup, Stored, Sealed;
    forall b: Base
      ensures Res(BASE_S3_ACCESS_POLICY, Name(b)) == []
      ensures Lookup(BASE_S3_ACCESS_POLICY, Name(b)).condition == NoCondition
    {
      BaseLookup(b);
    }
    StoredLoads(BASE_S3_ACCESS_POLICY);
  }

  /** Which object resources survive an operation on datasource `name`. */
  lemma {:induction false} ObjectsAfter(g: Grants, op: Op, names: set<string>, level: Level, r: string)
    requires ValidNames(names) && ValidGrants(g, names) && ValidOp(op, names)
    ensures GrantedObject(Abstractly(g, op), level, r)
       <==> || (GrantedObject(g, level, r) && !PartOf(r, Arn(op.name)))
            || r in NewResources(op, Name(level))
  {
    var g' := Abstractly(g, op);
    if GrantedObject(g', level, r) {
      var n :| n in g' && g'[n].level == level && r in Objects(n, g'[n].paths);
      ObjectsArePart(n, g'[n].paths);
      if n != op.name {
        PartsApart(r, n, op.name);
        assert n in g && g[n] == g'[n];
      }
    }
    if GrantedObject(g, level, r) && !PartOf(r, Arn(op.name)) {
      var n :| n in g && g[n].level == level && r in Objects(n, g[n].paths);
      ObjectsArePart(n, g[n].paths);
      assert n in g' && g'[n] == g[n];
    }
    if r in NewResources(op, Name(level)) {
      assert op.name in g' && g'[op.name].level == level;
    }
  }

  lemma {:induction false} BucketsAfter(g: Grants, op: Op, names: set<string>, r: string)
    requires ValidNames(names) && ValidGrants(g, names) && ValidOp(op, names)
    ensures GrantedBucket(Abstractly(g, op), r)
       <==> if HasSlash(op.name) then GrantedBucket(g, r)
            else (GrantedBucket(g, r) && !PartOf(r, Arn(op.name))) || r in NewResources(op, Name(List))
  {
    var g' := Abstractly(g, op);
    if GrantedBucket(g', r) {
      var n :| n in g' && !HasSlash(n) && r == Arn(n);
      if n != op.name {
        PartsApart(r, n, op.name);
        assert n in g;
      }
    }
    if GrantedBucket(g, r) {
      var n :| n in g && !HasSlash(n) && r == Arn(n);
      if n != op.name {
        PartsApart(r, n, op.name);
        assert n in g';
      } else {
        assert PartOf(r, Arn(op.name));
      }
    }
    if op.GrantOp? && !HasSlash(op.name) {
      assert op.name in g';
    }
  }

  lemma {:induction false} OpNoDuplicates(d: Document, op: Op, b: Base)
    requires Loadable(d) && ValidName(op.name)
    requires b.ReadOnly? || b.ReadWrite? || b.List?
    requires NoDuplicates(Res(d, Name(b)))
    ensures NoDuplicates(Res(PerformOp(d, op), Name(b)))
  {
    var keep := NotPartOf(Arn(op.name));
    OpRes(d, op, b);
    FilterNoDuplicates(keep, Res(d, Name(b)));
    AddAllNoDuplicates(Filter(keep, Res(d, Name(b))), NewResources(op, Name(b)));
  }

  lemma {:induction false} OpHolds(d: Document, op: Op, b: Base, r: string)
    requires Loadable(d) && ValidName(op.name)
    requires b.ReadOnly? || b.ReadWrite? || b.List?
    ensures r in Res(PerformOp(d, op), Name(b))
       <==> if Touched(op, Name(b))
            then (r in Res(d, Name(b)) && !PartOf(r, Arn(op.name))) || r in NewResources(op, Name(b))
            else r in Res(d, Name(b))
  {
    hide Res, PerformOp, Loadable, Touched, NewResources, PartOf, ValidName;
    OpRes(d, op, b);
  }

  lemma {:induction false} OpObjects(d: Document, g: Grants, op: Op, names: set<string>, l: Level, r: string)
    requires ValidNames(names) && ValidGrants(g, names) && ValidOp(op, names)
    requires Encodes(d, g)
    ensures r in Res(PerformOp(d, op), Name(l)) <==> GrantedObject(Abstractly(g, op), l, r)
  {
    assert r in Res(d, Name(l)) <==> GrantedObject(g, l, r);
    hide Encodes, ValidGrants, ValidNames, ValidOp, PerformOp, Abstractly, GrantedObject, Res, Loadable, Objects;
    OpHolds(d, op, l, r);
    ObjectsAfter(g, op, names, l, r);
  }

  lemma {:induction false} OpBuckets(d: Document, g: Grants, op: Op, names: set<string>, r: string)
    requires ValidNames(names) && ValidGrants(g, names) && ValidOp(op, names)
    requires Encodes(d, g)
    ensures r in Res(PerformOp(d, op), Name(List)) <==> GrantedBucket(Abstractly(g, op), r)
  {
    assert r in Res(d, Name(List)) <==> GrantedBucket(g, r);
    hide Encodes, ValidGrants, ValidNames, ValidOp, PerformOp, Abstractly, GrantedBucket, Res, Loadable, Objects;
    OpHolds(d, op, List, r);
    BucketsAfter(g, op, names, r);
    NamesDiffer();
  }

  lemma {:induction false} GrantsStayValid(g: Grants, op: Op, names: set<string>)
    requires ValidGrants(g, names) && ValidOp(op, names)
    ensures ValidGrants(Abstractly(g, op), names)
  {
  }

  lemma {:induction false} EncodedDocument(d: Document, g: Grants)
    requires Encodes(d, g)
    ensures Stored(d) && Plain(d) && Sealed(d) && Loadable(d)
    ensures NoDuplicates(Res(d, Name(ReadOnly))) && NoDuplicates(Res(d, Name(ReadWrite))) && NoDuplicates(Res(d, Name(List)))
  {
    hide Plain, Sealed, Res, GrantedObject, GrantedBucket;
  }

  lemma {:induction false} ValidOpName(op: Op, names: set<string>)
    requires ValidNames(names) && ValidOp(op, names)
    ensures ValidName(op.name)
  {
  }

  lemma {:induction false} OpRefines(d: Document, g: Grants, op: Op, names: set<string>)
    requires ValidNames(names) && ValidGrants(g, names) && ValidOp(op, names)
    requires Encodes(d, g)
    ensures Encodes(PerformOp(d, op), Abstractly(g, op))
    ensures ValidGrants(Abstractly(g, op), names)
  {
    hide PerformOp, Plain, Sealed, Stored, Loadable, Res, GrantedObject, GrantedBucket, Abstractly, NoDuplicates, Name,
         ValidNames, ValidGrants, ValidOp, ValidName;
    var d', g' := PerformOp(d, op), Abstractly(g, op);
    GrantsStayValid(g, op, names);
    EncodedDocument(d, g);
    ValidOpName(op, names);
    OpStored(d, op);
    StoredLoads(d);
    OpKeepsPlain(d, op);
    OpKeepsSealed(d, op);
    OpNoDuplicates(d, op, ReadOnly);
    OpNoDuplicates(d, op, ReadWrite);
    OpNoDuplicates(d, op, List);
    forall l: Level, r: string
      ensures r in Res(d', Name(l)) <==> GrantedObject(g', l, r)
    {
      OpObjects(d, g, op, names, l, r);
    }
    forall r: string
      ensures r in Res(d', Name(List)) <==> GrantedBucket(g', r)
    {
      OpBuckets(d, g, op, names, r);
    }
  }

  /** After any run of grants and revokes the document encodes the last grant of every datasource. */
  lemma {:induction false} RunRefines(d: Document, g: Grants, ops: seq<Op>, names: set<string>)
    requires ValidNames(names) && ValidGrants(g, names)
    requires forall op :: op in ops ==> ValidOp(op, names)
    requires Encodes(d, g)
    ensures Encodes(Run(d, ops), RunAbstractly(g, ops))
    ensures ValidGrants(RunAbstractly(g, ops), names)
  {
    if ops != [] {
      RunRefines(d, g, ops[..|ops| - 1], names);
      OpRefines(Run(d, ops[..|ops| - 1]), RunAbstractly(g, ops[..|ops| - 1]), ops[|ops| - 1], names);
    }
  }

  /** Every run from the base policy leaves the statements of bucket and object ARNs as the class writes them. */
  lemma {:induction false} RunPlain(ops: seq<Op>)
    requires forall op :: op in ops ==> ValidName(op.name)
    ensures Stored(Run(BASE_S3_ACCESS_POLICY, ops)) && Plain(Run(BASE_S3_ACCESS_POLICY, ops))
  {
    hide PerformOp, Plain, Stored, ValidName, BASE_S3_ACCESS_POLICY;
    if ops == [] {
      BaseEncodesNothing();
      EncodedDocument(BASE_S3_ACCESS_POLICY, map[]);
    } else {
      var d, op := Run(BASE_S3_ACCESS_POLICY, ops[..|ops| - 1]), ops[|ops| - 1];
      RunPlain(ops[..|ops| - 1]);
      StoredLoads(d);
      OpStored(d, op);
      OpKeepsPlain(d, op);
    }
  }

  /** Over whole runs, statements with Sids of other owners stay, in order and unchanged. */
  lemma {:induction false} RunKeepsForeign(d: Document, ops: seq<Op>)
    requires Stored(d)
    ensures Stored(Run(d, ops))
    ensures Foreign(Run(d, ops)) == Foreign(d)
  {
    if ops != [] {
      var d0, op := Run(d, ops[..|ops| - 1]), ops[|ops| - 1];
      RunKeepsForeign(d, ops[..|ops| - 1]);
      OpStored(d0, op);
      PerformOpSteps(d0, op);
      ExecForeign(d0, OpSteps(op));
      PutForeign(Exec(d0, OpSteps(op)));
      FilterAll(IsLive(), Foreign(d));
    }
  }

  // ---------------------------------------------------------------- what the document allows

  /** The grant on a datasource covers the action on the key. */
  predicate Covers(g: Grant, action: string, key: string) {
    && (action in WRITE_ACTIONS ==> g.level.ReadWrite?)
    && exists p :: p in FolderPaths("", g.paths) && Glob(p + "/*", "/" + key)
  }

  /** Some level that gives the action holds a resource that matches the object. */
  ghost predicate LevelAllows(d: Document, action: string, object_: string) {
    exists l: Level, r: string :: (action in WRITE_ACTIONS ==> l.ReadWrite?) && r in Res(d, Name(l)) && Glob(r, object_)
  }

  /** A statement of the document that gives object actions is that of a level. */
  lemma {:induction false} ObjectStatement(d: Document, s: Stmt, action: string) returns (l: Level)
    requires Stored(d) && Plain(d) && Sealed(d) && ObjectAction(action)
    requires s in d && Gives(s.body, action)
    ensures s.sid == Name(l) && Lookup(d, s.sid) == s && PlainStmt(s) && s.body == Standard(l)
    ensures action in WRITE_ACTIONS ==> l.ReadWrite?
  {
    var i :| 0 <= i < |d| && d[i] == s;
    LookupAt(d, i);
    l := if s.sid == Name(ReadOnly) then ReadOnly else ReadWrite;
    assert GivesObjects(s.body);
    assert PlainLevel(s.sid);
    PlainLookup(d, l);
    SidRoundTrip(l, "");
    ObjectBodies(l, action);
  }

  lemma {:induction false} LevelStatement(d: Document, l: Level, r: string)
    requires Stored(d) && Plain(d)
    requires r in Res(d, Name(l))
    ensures var s := Lookup(d, Name(l)); s in d && PlainStmt(s) && s.body == Standard(l) && r in Patterns(s.resource)
  {
    PlainLookup(d, l);
    SidRoundTrip(l, "");
    if HasSid(d, Name(l)) {
      var i :| 0 <= i < |d| && Sids(d)[i] == Name(l);
      LookupAt(d, i);
    } else {
      LookupAbsent(d, Name(l));
    }
  }

  /** For object actions, all statements of such a document together allow what the two lists say. */
  lemma {:induction false} AllowsByLevels(d: Document, action: string, object_: string)
    requires Stored(d) && Plain(d) && Sealed(d) && ObjectAction(action)
    ensures Allows(d, action, object_) <==> LevelAllows(d, action, object_)
  {
    hide Stored, Plain, Sealed, ObjectAction, Lookup, Gives, Glob, Name, WRITE_ACTIONS;
    var q := Request(action, object_, None);
    if Allows(d, action, object_) {
      var s :| s in d && Permissive(s.body) && Applies(s, q);
      var l := ObjectStatement(d, s, action);
      var r :| r in Patterns(s.resource) && Glob(r, object_);
      assert r in Res(d, Name(l));
    }
    if LevelAllows(d, action, object_) {
      var l: Level, r: string :| (action in WRITE_ACTIONS ==> l.ReadWrite?) && r in Res(d, Name(l)) && Glob(r, object_);
      LevelStatement(d, l, r);
      LevelGives(l, action);
      assert Applies(Lookup(d, Name(l)), q);
      forall s | s in d && Denies(s.body)
        ensures !Applies(s, q)
      {
        if Applies(s, q) {
          var l' := ObjectStatement(d, s, action);
        }
      }
    }
  }

  lemma {:induction false} LevelGives(l: Level, action: string)
    requires ObjectAction(action) && (action in WRITE_ACTIONS ==> l.ReadWrite?)
    ensures Gives(Standard(l), action)
  {
    ObjectBodies(l, action);
  }

  lemma {:induction false} LiteralArn(n: string)
    requires ValidName(n)
    ensures Literal(Arn(n))
  {
  }

  lemma {:induction false} StarOf(arn: string, p: string)
    ensures arn + p + "/*" == arn + (p + "/*")
    ensures "" + p == p && p + "" == p
  {
  }

  lemma {:induction false} ObjectPattern(n: string, paths: seq<string>, r: string) returns (p: string)
    requires ValidPaths(paths)
    requires r in Objects(n, paths)
    ensures p in FolderPaths("", paths) && r == Arn(n) + (p + "/*")
    ensures p == "" || StartsWith(p, "/")
  {
    var i :| 0 <= i < |Objects(n, paths)| && Objects(n, paths)[i] == r;
    assert r == ResourceArns(n, paths)[i] + "/*";
    if paths == [] {
      p := "";
      StarOf(Arn(n), "");
      assert FolderPaths("", paths)[0] == "";
    } else {
      p := paths[i];
      StarOf(Arn(n), p);
      assert FolderPaths("", paths)[i] == p;
    }
  }

  lemma {:induction false} PatternObject(n: string, paths: seq<string>, p: string)
    requires p in FolderPaths("", paths)
    ensures Arn(n) + (p + "/*") in Objects(n, paths)
  {
    var i :| 0 <= i < |FolderPaths("", paths)| && FolderPaths("", paths)[i] == p;
    if paths != [] {
      assert p == "" + paths[i] == paths[i];
      assert Objects(n, paths)[i] == Arn(n) + paths[i] + "/*" == Arn(n) + (p + "/*");
    } else {
      assert Objects(n, paths)[0] == Arn(n) + "/*" == Arn(n) + (p + "/*");
    }
  }

  /** A pattern of one datasource never matches an object of an unrelated one. */
  lemma {:induction false} PatternsApart(m: string, p: string, n: string, key: string)
    requires ValidName(n) && ValidName(m) && n != m ==> Unrelated(n, m)
    requires ValidName(n) && ValidName(m)
    requires p == "" || StartsWith(p, "/")
    requires Glob(Arn(m) + (p + "/*"), Arn(n) + ("/" + key))
    ensures m == n
  {
    var o, tail := Arn(n) + ("/" + key), (p + "/*")[1..];
    LiteralArn(m);
    assert Literal(Arn(m) + "/");
    assert p + "/*" == "/" + tail;
    assert Arn(m) + (p + "/*") == Arn(m) + "/" + tail;
    GlobLiteralHead(Arn(m) + "/", tail, o);
    assert o[|Arn(m)|] == (Arn(m) + "/")[|Arn(m)|] == '/';
    assert PartOf(o, Arn(m));
    assert o[|Arn(n)|] == '/';
    assert PartOf(o, Arn(n));
    if m != n {
      PartsApart(o, m, n);
    }
  }

  /**
   * What the whole document means: an action on an object of a datasource is allowed exactly when the
   * datasource is in the map, at a level that has the action, with a path that covers the key.
   */
  lemma {:induction false} AllowsExactly(d: Document, g: Grants, names: set<string>, n: string, key: string,
                                         action: string)
    requires ValidNames(names) && ValidGrants(g, names) && n in names && ObjectAction(action)
    requires Encodes(d, g)
    ensures Allows(d, action, Arn(n) + ("/" + key)) <==> n in g && Covers(g[n], action, key)
  {
    EncodedDocument(d, g);
    AllowsByLevels(d, action, Arn(n) + ("/" + key));
    LevelsAllow(d, g, names, n, key, action);
  }

  lemma {:induction false} LevelsAllow(d: Document, g: Grants, names: set<string>, n: string, key: string,
                                       action: string)
    requires ValidNames(names) && ValidGrants(g, names) && n in names
    requires Encodes(d, g)
    ensures LevelAllows(d, action, Arn(n) + ("/" + key)) <==> n in g && Covers(g[n], action, key)
  {
    hide WRITE_ACTIONS, Stored, Plain, Sealed;
    var o := Arn(n) + ("/" + key);
    LiteralArn(n);
    assert o[|Arn(n)|..] == "/" + key;
    if LevelAllows(d, action, o) {
      var l: Level, r: string :| (action in WRITE_ACTIONS ==> l.ReadWrite?) && r in Res(d, Name(l)) && Glob(r, o);
      assert GrantedObject(g, l, r);
      var m :| m in g && g[m].level == l && r in Objects(m, g[m].paths);
      var p := ObjectPattern(m, g[m].paths, r);
      PatternsApart(m, p, n, key);
      GlobLiteralHead(Arn(n), p + "/*", o);
    }
    if n in g && Covers(g[n], action, key) {
      var p :| p in FolderPaths("", g[n].paths) && Glob(p + "/*", "/" + key);
      var r := Arn(n) + (p + "/*");
      PatternObject(n, g[n].paths, p);
      GlobLiteralHeadHolds(Arn(n), p + "/*", o);
      assert GrantedObject(g, g[n].level, r);
      assert r in Res(d, Name(g[n].level));
    }
  }
}
