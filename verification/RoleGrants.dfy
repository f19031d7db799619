/**
 Granting and revoking access to a bucket or to a folder, as the steps a role's policy document
 goes through, and what these steps together do to any one statement.
 */
module RoleGrants {
  import opened Strings
  import opened PolicyDocument

  /** The access levels a caller may ask for. */
  type Level = b: Base | b.ReadOnly? || b.ReadWrite? witness ReadOnly

  function Other(level: Level): Level {
    if level.ReadOnly? then ReadWrite else ReadOnly
  }

  // ---------------------------------------------------------------- names

  /** A folder datasource is named "bucket/folder"; `get_bucket_and_path` splits at the first slash. */
  function BucketOf(root: string): string {
    root[..FirstSlash(root)]
  }

  function FolderOf(root: string): string
    requires HasSlash(root)
  {
    FirstSlashFound(root);
    root[FirstSlash(root) + 1..]
  }

  lemma {:induction false} FirstSlashFound(s: string)
    requires HasSlash(s)
    ensures FirstSlash(s) < |s|
  {
  }

  /** The bucket is what comes before the first slash, whatever follows. */
  lemma {:induction false} BucketAndFolder(root: string)
    requires HasSlash(root)
    ensures root == BucketOf(root) + "/" + FolderOf(root) && !HasSlash(BucketOf(root))
  {
    FirstSlashFound(root);
  }

  predicate ValidBucket(name: string) {
    name != "" && forall i :: 0 <= i < |name| ==> NameChar(name[i])
  }

  /** Exactly one slash, with names on both sides. */
  predicate ValidRoot(root: string) {
    && HasSlash(root)
    && ValidBucket(BucketOf(root))
    && ValidBucket(FolderOf(root))
  }

  lemma {:induction false} RootParts(root: string)
    requires ValidRoot(root)
    ensures root == BucketOf(root) + "/" + FolderOf(root)
    ensures Arn(root) == Arn(BucketOf(root)) + "/" + FolderOf(root)
    ensures FirstSlash(FolderOf(root)) == |FolderOf(root)|
    ensures !HasSlash(FolderOf(root))
  {
  }

  /** Paths within a datasource start with a slash. */
  predicate ValidPaths(paths: seq<string>) {
    forall p :: p in paths ==> StartsWith(p, "/")
  }

  /** The ARNs that a grant on `arn` is about: `path_arns or [arn]`. */
  function PathArns(arn: string, pathArns: seq<string>): seq<string> {
    if arn != "" && pathArns == [] then [arn] else pathArns
  }

  /** Every object resource built from these ARNs is part of `arn`. */
  predicate Within(arn: string, arns: seq<string>) {
    forall a :: a in arns ==> PartOf(a + "/*", arn)
  }

  function Stars(arns: seq<string>): (r: seq<string>)
    ensures |r| == |arns|
    ensures forall i :: 0 <= i < |arns| ==> r[i] == arns[i] + "/*"
  {
    seq(|arns|, i requires 0 <= i < |arns| => arns[i] + "/*")
  }

  /** `[f"{folder}{path}" for path in paths]`, or the folder itself without paths. */
  function FolderPaths(folder: string, paths: seq<string>): (r: seq<string>)
    ensures r != []
    ensures paths != [] ==> |r| == |paths| && forall i :: 0 <= i < |r| ==> r[i] == folder + paths[i]
    ensures paths == [] ==> r == [folder]
  {
    if paths == [] then [folder] else seq(|paths|, i requires 0 <= i < |paths| => folder + paths[i])
  }

  function Prepend(head: string, tails: seq<string>): (r: seq<string>)
    ensures |r| == |tails|
    ensures forall i :: 0 <= i < |r| ==> r[i] == head + tails[i]
  {
    seq(|tails|, i requires 0 <= i < |tails| => head + tails[i])
  }

  // ---------------------------------------------------------------- the steps

  function RevokeBucketSteps(arn: string): seq<Step> {
    [Step(ReadOnly, "", RemoveResource(arn)),
     Step(ReadWrite, "", RemoveResource(arn)),
     Step(List, "", RemoveResource(arn))]
  }

  /** `grant_object_access` for each ARN in turn. */
  function ObjectSteps(level: Level, arns: seq<string>): (r: seq<Step>)
    ensures |r| == |arns|
    ensures forall i :: 0 <= i < |r| ==> r[i] == Step(level, "", AddResource(arns[i] + "/*"))
  {
    seq(|arns|, i requires 0 <= i < |arns| => Step(level, "", AddResource(arns[i] + "/*")))
  }

  function GrantBucketSteps(arn: string, level: Level, pathArns: seq<string>): seq<Step> {
    RevokeBucketSteps(arn) + [Step(List, "", AddResource(arn))] + ObjectSteps(level, PathArns(arn, pathArns))
  }

  function RemoveFolderSteps(rootArn: string, bucketArn: string): seq<Step> {
    [Step(ReadOnly, "", RemoveResource(rootArn)),
     Step(ReadWrite, "", RemoveResource(rootArn)),
     Step(RootFolderBucketMeta, "", RemoveResource(bucketArn))]
  }

  function RemovePrefixSteps(bucket: string, folder: string): seq<Step> {
    [Step(ListFolder, bucket, RemovePrefix(Arn(bucket), folder, Equals)),
     Step(ListSubFolders, bucket, RemovePrefix(Arn(bucket), folder, Like))]
  }

  function RevokeFolderSteps(root: string): seq<Step>
    requires HasSlash(root)
  {
    RemoveFolderSteps(Arn(root), Arn(BucketOf(root))) + RemovePrefixSteps(BucketOf(root), FolderOf(root))
  }

  /** One round of the loop of `grant_folder_access`. */
  function FolderPathSteps(bucket: string, level: Level, path: string): seq<Step> {
    [Step(level, "", AddResource(Arn(bucket) + "/" + path + "/*")),
     Step(ListFolder, bucket, AddFolder(Arn(bucket), path)),
     Step(ListSubFolders, bucket, AddSubFolders(Arn(bucket), path))]
  }

  function FolderLoopSteps(bucket: string, level: Level, paths: seq<string>): seq<Step> {
    if paths == [] then []
    else FolderLoopSteps(bucket, level, paths[..|paths| - 1]) + FolderPathSteps(bucket, level, paths[|paths| - 1])
  }

  function AddBucketSteps(bucket: string): seq<Step> {
    [Step(RootFolderBucketMeta, "", AddResource(Arn(bucket))),
     Step(ListFolder, bucket, AddResource(Arn(bucket))),
     Step(ListSubFolders, bucket, AddResource(Arn(bucket)))]
  }

  /** `S3AccessPolicy.grant_folder_access`. */
  function GrantFolderSteps(root: string, level: Level, paths: seq<string>): seq<Step>
    requires HasSlash(root)
  {
    AddBucketSteps(BucketOf(root)) + FolderLoopSteps(BucketOf(root), level, FolderPaths(FolderOf(root), paths))
  }

  // ---------------------------------------------------------------- the role operations on a stored document

  /** Load, run the steps, put: one call on a role. */
  function Perform(d: Document, steps: seq<Step>): Document {
    Put(Exec(Load(d), steps))
  }

  function GrantBucket(d: Document, arn: string, level: Level, pathArns: seq<string>): Document {
    Perform(d, GrantBucketSteps(arn, level, pathArns))
  }

  function RevokeBucket(d: Document, arn: string): Document {
    Perform(d, RevokeBucketSteps(arn))
  }

  function GrantFolder(d: Document, root: string, level: Level, paths: seq<string>): Document
    requires HasSlash(root)
  {
    Perform(d, RevokeFolderSteps(root) + GrantFolderSteps(root, level, paths))
  }

  function RevokeFolder(d: Document, root: string): Document
    requires HasSlash(root)
  {
    Perform(d, RevokeFolderSteps(root))
  }

  // ---------------------------------------------------------------- what the steps do to one statement

  function Removed(s: Stmt, arn: string): (r: Stmt)
    ensures r.sid == s.sid
  {
    Apply(RemoveResource(arn), s)
  }

  function Added(s: Stmt, arn: string): (r: Stmt)
    ensures r.sid == s.sid
  {
    Apply(AddResource(arn), s)
  }

  /** The same statement after adding each resource in turn. */
  function WithResources(s: Stmt, rs: seq<string>): (r: Stmt)
    ensures r.sid == s.sid
  {
    if rs == [] then s else s.(resource := Many(AddAll(Items(s.resource), rs)))
  }

  lemma {:induction false} NothingAdded(s: Stmt)
    ensures WithResources(s, []) == s
  {
  }

  lemma {:induction false} NamesDiffer()
    ensures forall b, c: Base :: Name(b) == Name(c) ==> b == c
  {
  }

  lemma {:induction false} OneMore(s: Stmt, rs: seq<string>)
    requires rs != []
    ensures WithResources(s, rs) == Added(WithResources(s, rs[..|rs| - 1]), rs[|rs| - 1])
  {
  }

  lemma {:induction false} ObjectsOn(level: Level, arns: seq<string>, s: Stmt)
    ensures OnAll(ObjectSteps(level, arns), s) == if s.sid == Name(level) then WithResources(s, Stars(arns)) else s
  {
    hide WithResources, Apply, Name;
    if arns == [] {
      NothingAdded(s);
      assert Stars(arns) == [];
    } else {
      var front, last := arns[..|arns| - 1], arns[|arns| - 1];
      ObjectsOn(level, front, s);
      assert ObjectSteps(level, arns)[..|arns| - 1] == ObjectSteps(level, front);
      assert Stars(arns)[..|arns| - 1] == Stars(front);
      OneMore(s, Stars(arns));
    }
  }

  function BucketRevoked(s: Stmt, arn: string): Stmt {
    if s.sid == Name(ReadOnly) || s.sid == Name(ReadWrite) || s.sid == Name(List) then Removed(s, arn) else s
  }

  lemma {:induction false} RevokeBucketOn(arn: string, s: Stmt)
    ensures OnAll(RevokeBucketSteps(arn), s) == BucketRevoked(s, arn)
  {
    var st := RevokeBucketSteps(arn);
    OnThree(st[0], st[1], st[2], s);
  }

  /** What one statement becomes in a bucket grant, before the document is put. */
  function BucketGranted(s: Stmt, arn: string, level: Level, pathArns: seq<string>): (r: Stmt)
    ensures r.sid == s.sid
  {
    if s.sid == Name(level) then WithResources(Removed(s, arn), Stars(PathArns(arn, pathArns)))
    else if s.sid == Name(Other(level)) then Removed(s, arn)
    else if s.sid == Name(List) then Added(Removed(s, arn), arn)
    else s
  }

  lemma {:induction false} GrantBucketOn(arn: string, level: Level, pathArns: seq<string>, s: Stmt)
    ensures OnAll(GrantBucketSteps(arn, level, pathArns), s) == BucketGranted(s, arn, level, pathArns)
  {
    var list := Step(List, "", AddResource(arn));
    OnAppend(RevokeBucketSteps(arn) + [list], ObjectSteps(level, PathArns(arn, pathArns)), s);
    OnAppend(RevokeBucketSteps(arn), [list], s);
    RevokeBucketOn(arn, s);
    OnOne(list, BucketRevoked(s, arn));
    ObjectsOn(level, PathArns(arn, pathArns), On(list, BucketRevoked(s, arn)));
  }

  // ---------------------------------------------------------------- the same for folders

  /** The statement that limits listing by one condition operator. */
  function ListingSid(op: Operator, bucket: string): string {
    ConstructSid(if op.Equals? then ListFolder else ListSubFolders, bucket)
  }

  /** The statements that folder grants are about are all different. */
  lemma {:induction false} NamesApart(bucket: string)
    requires bucket != ""
    ensures ListingSid(Equals, bucket) != ListingSid(Like, bucket)
    ensures forall op: Operator, b: Base :: ListingSid(op, bucket) != Name(b)
    ensures forall b, c: Base :: Name(b) == Name(c) ==> b == c
  {
  }

  function FolderRevoked(s: Stmt, root: string): Stmt
    requires HasSlash(root)
  {
    var bucket, folder := BucketOf(root), FolderOf(root);
    if s.sid == Name(ReadOnly) || s.sid == Name(ReadWrite) then Removed(s, Arn(root))
    else if s.sid == Name(RootFolderBucketMeta) then Removed(s, Arn(bucket))
    else if s.sid == ListingSid(Equals, bucket) then Apply(RemovePrefix(Arn(bucket), folder, Equals), s)
    else if s.sid == ListingSid(Like, bucket) then Apply(RemovePrefix(Arn(bucket), folder, Like), s)
    else s
  }

  lemma {:induction false} RemoveFolderOn(rootArn: string, bucketArn: string, s: Stmt)
    ensures OnAll(RemoveFolderSteps(rootArn, bucketArn), s)
         == if s.sid == Name(ReadOnly) || s.sid == Name(ReadWrite) then Removed(s, rootArn)
            else if s.sid == Name(RootFolderBucketMeta) then Removed(s, bucketArn)
            else s
  {
    hide OnAll, Apply;
    var st := RemoveFolderSteps(rootArn, bucketArn);
    OnThree(st[0], st[1], st[2], s);
  }

  lemma {:induction false} RemovePrefixOn(bucket: string, folder: string, s: Stmt)
    requires bucket != ""
    ensures OnAll(RemovePrefixSteps(bucket, folder), s)
         == if s.sid == ListingSid(Equals, bucket) then Apply(RemovePrefix(Arn(bucket), folder, Equals), s)
            else if s.sid == ListingSid(Like, bucket) then Apply(RemovePrefix(Arn(bucket), folder, Like), s)
            else s
  {
    var st := RemovePrefixSteps(bucket, folder);
    OnTwo(st[0], st[1], s);
  }

  lemma {:induction false} RevokeFolderOn(root: string, s: Stmt)
    requires ValidRoot(root)
    ensures OnAll(RevokeFolderSteps(root), s) == FolderRevoked(s, root)
  {
    var first := RemoveFolderSteps(Arn(root), Arn(BucketOf(root)));
    OnAppend(first, RemovePrefixSteps(BucketOf(root), FolderOf(root)), s);
    RemoveFolderOn(Arn(root), Arn(BucketOf(root)), s);
    RemovePrefixOn(BucketOf(root), FolderOf(root), OnAll(first, s));
  }

  /** The edit that one round of the folder loop makes to a listing statement. */
  function PathEdit(op: Operator, bucketArn: string, path: string): Edit {
    if op.Equals? then AddFolder(bucketArn, path) else AddSubFolders(bucketArn, path)
  }

  function WithPaths(op: Operator, s: Stmt, bucketArn: string, paths: seq<string>): (r: Stmt)
    ensures r.sid == s.sid
  {
    if paths == [] then s
    else Apply(PathEdit(op, bucketArn, paths[|paths| - 1]), WithPaths(op, s, bucketArn, paths[..|paths| - 1]))
  }

  /** The object ARNs of folder paths, before the wildcard. */
  function PathResources(bucket: string, paths: seq<string>): seq<string> {
    Stars(Prepend(Arn(bucket) + "/", paths))
  }

  function FolderLooped(s: Stmt, bucket: string, level: Level, paths: seq<string>): (r: Stmt)
    ensures r.sid == s.sid
  {
    if s.sid == Name(level) then WithResources(s, PathResources(bucket, paths))
    else if s.sid == ListingSid(Equals, bucket) then WithPaths(Equals, s, Arn(bucket), paths)
    else if s.sid == ListingSid(Like, bucket) then WithPaths(Like, s, Arn(bucket), paths)
    else s
  }

  lemma {:induction false} FolderPathOn(bucket: string, level: Level, path: string, s: Stmt)
    requires bucket != ""
    ensures OnAll(FolderPathSteps(bucket, level, path), s)
         == if s.sid == Name(level) then Added(s, Arn(bucket) + "/" + path + "/*")
            else if s.sid == ListingSid(Equals, bucket) then Apply(AddFolder(Arn(bucket), path), s)
            else if s.sid == ListingSid(Like, bucket) then Apply(AddSubFolders(Arn(bucket), path), s)
            else s
  {
    var st := FolderPathSteps(bucket, level, path);
    OnThree(st[0], st[1], st[2], s);
  }

  lemma {:induction false} FolderLoopOn(bucket: string, level: Level, paths: seq<string>, s: Stmt)
    requires bucket != ""
    ensures OnAll(FolderLoopSteps(bucket, level, paths), s) == FolderLooped(s, bucket, level, paths)
  {
    hide WithResources, Apply, Name, ListingSid, FolderPathSteps;
    if paths == [] {
      NothingAdded(s);
      assert PathResources(bucket, paths) == [];
    } else {
      var front, last := paths[..|paths| - 1], paths[|paths| - 1];
      OnAppend(FolderLoopSteps(bucket, level, front), FolderPathSteps(bucket, level, last), s);
      FolderLoopOn(bucket, level, front, s);
      FolderPathOn(bucket, level, last, FolderLooped(s, bucket, level, front));
      assert PathResources(bucket, paths)[..|paths| - 1] == PathResources(bucket, front);
      OneMore(s, PathResources(bucket, paths));
      NamesApart(bucket);
    }
  }

  /** What one statement becomes in `grant_folder_access`, without the revoke before it. */
  function FolderAdded(s: Stmt, root: string, level: Level, paths: seq<string>): Stmt
    requires HasSlash(root)
  {
    var bucket, full := BucketOf(root), FolderPaths(FolderOf(root), paths);
    if s.sid == Name(level) then WithResources(s, PathResources(bucket, full))
    else if s.sid == Name(RootFolderBucketMeta) then Added(s, Arn(bucket))
    else if s.sid == ListingSid(Equals, bucket) then WithPaths(Equals, Added(s, Arn(bucket)), Arn(bucket), full)
    else if s.sid == ListingSid(Like, bucket) then WithPaths(Like, Added(s, Arn(bucket)), Arn(bucket), full)
    else s
  }

  lemma {:induction false} AddBucketOn(bucket: string, s: Stmt)
    requires bucket != ""
    ensures OnAll(AddBucketSteps(bucket), s)
         == if s.sid == Name(RootFolderBucketMeta) || s.sid == ListingSid(Equals, bucket) || s.sid == ListingSid(Like, bucket)
            then Added(s, Arn(bucket)) else s
  {
    var a := AddBucketSteps(bucket);
    OnThree(a[0], a[1], a[2], s);
  }

  lemma {:induction false} AddFolderOn(root: string, level: Level, paths: seq<string>, s: Stmt)
    requires ValidRoot(root)
    ensures OnAll(GrantFolderSteps(root, level, paths), s) == FolderAdded(s, root, level, paths)
  {
    hide OnAll, AddBucketSteps, FolderLoopSteps, Added, WithResources, WithPaths, FolderPaths, PathResources, Name,
         ListingSid;
    var bucket, full := BucketOf(root), FolderPaths(FolderOf(root), paths);
    NamesApart(bucket);
    OnAppend(AddBucketSteps(bucket), FolderLoopSteps(bucket, level, full), s);
    AddBucketOn(bucket, s);
    FolderLoopOn(bucket, level, full, OnAll(AddBucketSteps(bucket), s));
  }

  function FolderGranted(s: Stmt, root: string, level: Level, paths: seq<string>): Stmt
    requires HasSlash(root)
  {
    FolderAdded(FolderRevoked(s, root), root, level, paths)
  }

  lemma {:induction false} GrantFolderOn(root: string, level: Level, paths: seq<string>, s: Stmt)
    requires ValidRoot(root)
    ensures OnAll(RevokeFolderSteps(root) + GrantFolderSteps(root, level, paths), s) == FolderGranted(s, root, level, paths)
  {
    OnAppend(RevokeFolderSteps(root), GrantFolderSteps(root, level, paths), s);
    RevokeFolderOn(root, s);
    AddFolderOn(root, level, paths, FolderRevoked(s, root));
  }
}
