/**
 Listing access to folders. A folder grant spreads it over two statements of the root bucket: the
 exact prefixes of `listFolder` and the patterns of `listSubFolders`. This module gives the closed
 form of both after a grant.
 */
module FolderListing {
  import opened Strings
  import opened PolicyDocument
  import opened RoleGrants
  import opened GrantLaws

  // ---------------------------------------------------------------- one listing statement

  /** The condition block of a listing statement with the given prefixes. */
  function Listing(op: Operator, prefixes: seq<string>): Condition {
    if op.Equals? then StringEquals(prefixes, ["/"]) else StringLike(prefixes)
  }

  /** The prefixes a listing statement starts from when it has none. */
  function Initial(op: Operator): seq<string> {
    if op.Equals? then [""] else []
  }

  function CurrentPrefixes(op: Operator, c: Condition): seq<string> {
    match Prefixes(c, op) case Some(ps) => ps case None => Initial(op)
  }

  function AddPath(op: Operator, prefixes: seq<string>, path: string): seq<string> {
    if op.Equals? then AddFolderPrefixes(prefixes, path) else AddOne(prefixes, path + "/*")
  }

  function AddPaths(op: Operator, prefixes: seq<string>, paths: seq<string>): seq<string> {
    if paths == [] then prefixes
    else AddPath(op, AddPaths(op, prefixes, paths[..|paths| - 1]), paths[|paths| - 1])
  }

  /** Adding paths to a statement that covers the bucket is adding them to its prefixes. */
  lemma {:induction false} WithPathsListing(op: Operator, s: Stmt, bucketArn: string, paths: seq<string>)
    requires bucketArn in Items(s.resource)
    ensures var r := WithPaths(op, s, bucketArn, paths);
            && r.resource == s.resource && r.body == s.body
            && CurrentPrefixes(op, r.condition) == AddPaths(op, CurrentPrefixes(op, s.condition), paths)
            && (paths != [] ==> r.condition == Listing(op, AddPaths(op, CurrentPrefixes(op, s.condition), paths)))
  {
    if paths != [] {
      WithPathsListing(op, s, bucketArn, paths[..|paths| - 1]);
    }
  }

  // ---------------------------------------------------------------- paths inside a folder

  /** `q` is the path `full` or one of its ancestors down to the folder itself. */
  predicate AncestorOrSelf(q: string, full: string, folder: string) {
    && StartsWith(full, q)
    && (|q| < |full| ==> full[|q|] == '/')
    && StartsWith(q, folder)
  }

  predicate InFolder(path: string, folder: string) {
    path == folder || StartsWith(path, folder + "/")
  }

  predicate EndsWithSlash(s: string) {
    s != "" && s[|s| - 1] == '/'
  }

  lemma {:induction false} FullPathsInFolder(root: string, paths: seq<string>)
    requires ValidRoot(root) && ValidPaths(paths)
    ensures forall p :: p in FolderPaths(FolderOf(root), paths) ==> InFolder(p, FolderOf(root))
  {
    var full := FolderPaths(FolderOf(root), paths);
    forall p | p in full
      ensures InFolder(p, FolderOf(root))
    {
      var i :| 0 <= i < |full| && full[i] == p;
      if paths != [] {
        assert paths[i] in paths;
      }
    }
  }

  lemma {:induction false} InFolderFirstSlash(path: string, folder: string)
    requires ValidBucket(folder) && InFolder(path, folder)
    ensures FirstSlash(path) == |folder|
  {
    assert forall i :: 0 <= i < |folder| ==> path[i] == folder[i] && NameChar(folder[i]);
    assert |folder| < |path| ==> path[|folder|] == (folder + "/")[|folder|] == '/';
  }

  lemma {:induction false} FirstJoined(s: string)
    ensures Join(Split(s)[..1]) == s[..FirstSlash(s)]
  {
  }

  /** The i-th ancestor the loop builds is the path cut before its (i+1)-th slash. */
  lemma {:induction false} AncestorIsCut(path: string, folder: string, i: nat)
    requires ValidBucket(folder) && InFolder(path, folder)
    requires i < |Split(path)| - 1
    ensures Ancestor(path, i) == Join(Split(path)[..i + 1])
    ensures AncestorOrSelf(Ancestor(path, i), path, folder)
  {
    var parts := Split(path);
    InFolderFirstSlash(path, folder);
    FirstJoined(path);
    var m := SplitPrefix(path, i + 1);
    assert !(m < FirstSlash(path));
    if i > 0 {
      var j := SplitPrefix(path, i);
      assert !(j < FirstSlash(path));
      assert parts[..i] + [parts[i]] == parts[..i + 1];
      JoinSnoc(parts[..i], parts[i]);
    } else {
      assert parts[..0] == [];
    }
  }

  /** Every proper ancestor is one of those the loop builds. */
  lemma {:induction false} CutIsAncestor(q: string, path: string, folder: string) returns (i: nat)
    requires ValidBucket(folder) && InFolder(path, folder)
    requires AncestorOrSelf(q, path, folder) && q != path
    ensures i < |Split(path)| - 1 && Ancestor(path, i) == q
  {
    var n := SplitAtSlash(path, |q|);
    i := n - 1;
    AncestorIsCut(path, folder, i);
  }

  // ---------------------------------------------------------------- what the loop adds

  predicate NoneUnder(prefixes: seq<string>, folder: string) {
    forall x :: x in prefixes ==> !StartsWith(x, folder)
  }

  predicate AllUnder(prefixes: seq<string>, folder: string) {
    forall x :: x in prefixes ==> StartsWith(x, folder)
  }

  /** The prefixes that a grant of these paths adds to a statement without any of the folder's. */
  function NewPrefixes(op: Operator, paths: seq<string>): seq<string> {
    AddPaths(op, [], paths)
  }

  lemma {:induction false} AncestorApart(old_: seq<string>, before: seq<string>, a: string, folder: string)
    requires NoneUnder(old_, folder) && AllUnder(before, folder) && StartsWith(a, folder)
    ensures a in old_ + before <==> a in before
    ensures old_ + before + [a] + [a + "/"] == old_ + (before + [a] + [a + "/"])
    ensures AllUnder(before + [a] + [a + "/"], folder)
  {
  }

  lemma {:induction false} AddAncestorsApart(old_: seq<string>, new_: seq<string>, path: string, folder: string,
                                             n: nat)
    requires ValidBucket(folder) && InFolder(path, folder)
    requires n < |Split(path)|
    requires NoneUnder(old_, folder) && AllUnder(new_, folder)
    ensures AddAncestors(old_ + new_, path, n) == old_ + AddAncestors(new_, path, n)
    ensures AllUnder(AddAncestors(new_, path, n), folder)
  {
    if n > 0 {
      AddAncestorsApart(old_, new_, path, folder, n - 1);
      AncestorIsCut(path, folder, n - 1);
      var a, before := Ancestor(path, n - 1), AddAncestors(new_, path, n - 1);
      AncestorApart(old_, before, a, folder);
      hide Ancestor, InFolder, Split, StartsWith, NoneUnder, AllUnder, AncestorOrSelf;
    }
  }

  lemma {:induction false} AddOneApart(old_: seq<string>, before: seq<string>, x: string, folder: string)
    requires NoneUnder(old_, folder) && AllUnder(before, folder) && StartsWith(x, folder)
    ensures AddOne(old_ + before, x) == old_ + AddOne(before, x)
    ensures AllUnder(AddOne(before, x), folder)
  {
  }

  lemma {:induction false} AddPathApart(op: Operator, old_: seq<string>, new_: seq<string>, path: string,
                                        folder: string)
    requires ValidBucket(folder) && InFolder(path, folder)
    requires NoneUnder(old_, folder) && AllUnder(new_, folder)
    ensures AddPath(op, old_ + new_, path) == old_ + AddPath(op, new_, path)
    ensures AllUnder(AddPath(op, new_, path), folder)
  {
    if op.Equals? {
      AddAncestorsApart(old_, new_, path, folder, |Split(path)| - 1);
      AddOneApart(old_, AddAncestors(new_, path, |Split(path)| - 1), path, folder);
    } else {
      AddOneApart(old_, new_, path + "/*", folder);
    }
  }

  /** Prefixes of other folders do not matter to what is added, and come first. */
  lemma {:induction false} AddPathsApart(op: Operator, old_: seq<string>, paths: seq<string>, folder: string)
    requires ValidBucket(folder) && NoneUnder(old_, folder)
    requires forall p :: p in paths ==> InFolder(p, folder)
    ensures AddPaths(op, old_, paths) == old_ + NewPrefixes(op, paths)
    ensures AllUnder(NewPrefixes(op, paths), folder)
  {
    if paths == [] {
      assert old_ + [] == old_;
    } else {
      var front, last := paths[..|paths| - 1], paths[|paths| - 1];
      AddPathsApart(op, old_, front, folder);
      AddPathApart(op, old_, NewPrefixes(op, front), last, folder);
    }
  }

  // ---------------------------------------------------------------- closed form of grant and revoke

  /** The prefixes that remain when a folder is taken out of a listing statement. */
  function Kept(op: Operator, s: Stmt, folder: string): seq<string> {
    match Prefixes(s.condition, op) case Some(ps) => Filter(NotUnder(folder), ps) case None => Initial(op)
  }

  /** The statement covers the bucket, or holds nothing at all. */
  predicate Owned(s: Stmt, bucketArn: string) {
    bucketArn in Items(s.resource) || (s.resource == Missing && s.condition == NoCondition)
  }

  function ListingGranted(op: Operator, s: Stmt, bucketArn: string, folder: string, paths: seq<string>): (r: Stmt)
    ensures r.sid == s.sid
  {
    var kept := Kept(op, s, folder);
    s.(resource := if NoPrefixesLeft(kept) then Many([bucketArn]) else s.resource,
       condition := Listing(op, kept + NewPrefixes(op, paths)))
  }

  lemma {:induction false} InitialNotUnder(op: Operator, folder: string)
    requires folder != ""
    ensures NoneUnder(Initial(op), folder) && NoPrefixesLeft(Initial(op))
  {
  }

  /** What a listing statement becomes when a folder is granted at role level. */
  lemma {:induction false} ListingGrantedForm(op: Operator, s: Stmt, bucketArn: string, folder: string,
                                              paths: seq<string>)
    requires Owned(s, bucketArn)
    requires ValidBucket(folder) && paths != []
    requires forall p :: p in paths ==> InFolder(p, folder)
    ensures WithPaths(op, Added(Apply(RemovePrefix(bucketArn, folder, op), s), bucketArn), bucketArn, paths)
         == ListingGranted(op, s, bucketArn, folder, paths)
  {
    var r := Apply(RemovePrefix(bucketArn, folder, op), s);
    var a := Added(r, bucketArn);
    var kept := Kept(op, s, folder);
    InitialNotUnder(op, folder);
    assert CurrentPrefixes(op, a.condition) == kept;
    WithPathsListing(op, a, bucketArn, paths);
    AddPathsApart(op, kept, paths, folder);
  }

  lemma {:induction false} FilterUnderNew(op: Operator, kept: seq<string>, paths: seq<string>, folder: string)
    requires NoneUnder(kept, folder) && AllUnder(NewPrefixes(op, paths), folder)
    ensures Filter(NotUnder(folder), kept + NewPrefixes(op, paths)) == kept
  {
    FilterAppend(NotUnder(folder), kept, NewPrefixes(op, paths));
    FilterAll(NotUnder(folder), kept);
    FilterNone(NotUnder(folder), NewPrefixes(op, paths));
  }

  /** Taking the folder out again gives the prefixes that were there before. */
  lemma {:induction false} KeptOfGranted(op: Operator, s: Stmt, bucketArn: string, folder: string, paths: seq<string>)
    requires ValidBucket(folder)
    requires forall p :: p in paths ==> InFolder(p, folder)
    ensures Kept(op, ListingGranted(op, s, bucketArn, folder, paths), folder) == Kept(op, s, folder)
    ensures NoneUnder(Kept(op, s, folder), folder)
  {
    InitialNotUnder(op, folder);
    AddPathsApart(op, Kept(op, s, folder), paths, folder);
    FilterUnderNew(op, Kept(op, s, folder), paths, folder);
  }

  /** A granted statement stays granted: it covers the bucket, and granting over it starts afresh. */
  lemma {:induction false} ListingRegranted(op: Operator, s: Stmt, bucketArn: string, folder: string,
                                            paths: seq<string>, paths': seq<string>)
    requires Owned(s, bucketArn) && ValidBucket(folder)
    requires forall p :: p in paths' ==> InFolder(p, folder)
    ensures var g := ListingGranted(op, s, bucketArn, folder, paths');
            && bucketArn in Items(g.resource)
            && ListingGranted(op, g, bucketArn, folder, paths) == ListingGranted(op, s, bucketArn, folder, paths)
  {
    InitialNotUnder(op, folder);
    KeptOfGranted(op, s, bucketArn, folder, paths');
  }

  /** Revoking right after granting. */
  lemma {:induction false} ListingUndone(op: Operator, s: Stmt, bucketArn: string, folder: string, paths: seq<string>)
    requires Owned(s, bucketArn) && ValidBucket(folder)
    requires forall p :: p in paths ==> InFolder(p, folder)
    ensures Norm(Apply(RemovePrefix(bucketArn, folder, op), ListingGranted(op, s, bucketArn, folder, paths)))
         == if NoPrefixesLeft(Kept(op, s, folder)) then Blank(s.sid)
            else Norm(s.(condition := Listing(op, Kept(op, s, folder))))
  {
    ListingRegranted(op, s, bucketArn, folder, paths, paths);
    KeptOfGranted(op, s, bucketArn, folder, paths);
  }
}
