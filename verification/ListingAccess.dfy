/**
 What a role may list in a root bucket after folder grants: exactly the granted paths with their
 ancestors and what the patterns match. The results are about all statements of the document.
 */
module ListingAccess {
  import opened Options
  import opened Strings
  import opened Permissions
  import opened PolicyDocument
  import opened RoleGrants
  import opened GrantLaws
  import opened GrantRefinement
  import opened FolderListing
  import opened FolderLaws

  // ---------------------------------------------------------------- the statements that list a bucket

  /** The statement is about listing the bucket, whatever its condition. */
  predicate Lists(s: Stmt, bucket: string) {
    Gives(s.body, LIST_BUCKET) && Matches(s.resource, Arn(bucket))
  }

  /** Only under the given Sids are there statements about listing the bucket. */
  ghost predicate ListedUnder(d: Document, bucket: string, sids: set<string>) {
    forall sid :: sid !in sids ==> !Lists(Lookup(d, sid), bucket)
  }

  function ListingSids(bucket: string): set<string> {
    {Name(List), ListingSid(Equals, bucket), ListingSid(Like, bucket)}
  }

  predicate StmtAllows(s: Stmt, bucket: string, prefix: string) {
    Matches(s.resource, Arn(bucket)) && Holds(s.condition, Some(prefix))
  }

  /** `list` holds the bucket, so that all of it may be listed. */
  predicate ListCovers(d: Document, bucket: string) {
    Matches(Lookup(d, Name(List)).resource, Arn(bucket))
  }

  ghost predicate FolderStmtsAllow(d: Document, bucket: string, prefix: string) {
    exists op: Operator :: StmtAllows(Lookup(d, ListingSid(op, bucket)), bucket, prefix)
  }

  lemma {:induction false} StoredMember(d: Document, s: Stmt)
    requires Stored(d) && s in d
    ensures Lookup(d, s.sid) == s
  {
    var i :| 0 <= i < |d| && d[i] == s;
    LookupAt(d, i);
  }

  lemma {:induction false} StoredMatch(d: Document, sid: string, resource: string)
    requires Stored(d) && Matches(Lookup(d, sid).resource, resource)
    ensures Lookup(d, sid) in d
  {
    if HasSid(d, sid) {
      var i :| 0 <= i < |d| && Sids(d)[i] == sid;
      LookupAt(d, i);
    } else {
      LookupAbsent(d, sid);
    }
  }

  /** The three statements give the right to list, and deny nothing. */
  lemma {:induction false} ListingStatement(d: Document, bucket: string, sid: string)
    requires Stored(d) && sid in ListingSids(bucket)
    ensures var s := Lookup(d, sid); Gives(s.body, LIST_BUCKET) && Permissive(s.body) && !Denies(s.body)
  {
    hide Gives;
    var b, suffix := ListingBase(bucket, sid);
    SidRoundTrip(b, suffix);
    LoadedLookup(d, sid);
    ListingBodies(b);
    StandardBody(b);
    hide Lookup, Stored, ListingSids, LIST_BUCKET;
  }

  lemma {:induction false} ListingBase(bucket: string, sid: string) returns (b: Base, suffix: string)
    requires sid in ListingSids(bucket)
    ensures sid == ConstructSid(b, suffix) && (b.List? || b.ListFolder? || b.ListSubFolders?)
  {
    if sid == Name(List) {
      b, suffix := List, "";
    } else if sid == ListingSid(Equals, bucket) {
      b, suffix := ListFolder, bucket;
    } else {
      b, suffix := ListSubFolders, bucket;
    }
  }

  lemma {:induction false} StandardBody(b: Base)
    ensures Gives(Standard(b), LIST_BUCKET) <==> LIST_BUCKET in Actions(b)
  {
  }

  /** A statement about listing the bucket is one of the three. */
  lemma {:induction false} ListingMember(d: Document, bucket: string, s: Stmt)
    requires Stored(d) && ListedUnder(d, bucket, ListingSids(bucket))
    requires s in d && Lists(s, bucket)
    ensures s.sid in ListingSids(bucket) && Lookup(d, s.sid) == s && !Denies(s.body)
  {
    hide Stored, Lists, ListingSids, Lookup, Denies;
    StoredMember(d, s);
    ListingStatement(d, bucket, s.sid);
  }

  ghost predicate SomeAllows(d: Document, bucket: string, prefix: string) {
    exists sid :: sid in ListingSids(bucket) && StmtAllows(Lookup(d, sid), bucket, prefix)
  }

  lemma {:induction false} SomeAllowsIs(d: Document, bucket: string, prefix: string)
    requires Plain(d)
    ensures SomeAllows(d, bucket, prefix) <==> ListCovers(d, bucket) || FolderStmtsAllow(d, bucket, prefix)
  {
    assert Lookup(d, Name(List)).condition == NoCondition;
    ListingSidsHave(bucket);
    hide Plain, Lookup, Matches, ListingSid, Name;
    if SomeAllows(d, bucket, prefix) {
      var sid :| sid in ListingSids(bucket) && StmtAllows(Lookup(d, sid), bucket, prefix);
      if sid == Name(List) {
        assert ListCovers(d, bucket);
      } else if sid == ListingSid(Equals, bucket) {
        assert FolderStmtsAllow(d, bucket, prefix);
      } else {
        assert FolderStmtsAllow(d, bucket, prefix);
      }
    }
  }

  lemma {:induction false} ListingSidsHave(bucket: string)
    ensures Name(List) in ListingSids(bucket)
    ensures forall op: Operator :: ListingSid(op, bucket) in ListingSids(bucket)
  {
  }

  function ListRequest(bucket: string, prefix: string): Request {
    Request(LIST_BUCKET, Arn(bucket), Some(prefix))
  }

  lemma {:induction false} AppliesIs(s: Stmt, bucket: string, prefix: string)
    ensures Applies(s, ListRequest(bucket, prefix)) <==> Gives(s.body, LIST_BUCKET) && StmtAllows(s, bucket, prefix)
    ensures Applies(s, ListRequest(bucket, prefix)) ==> Lists(s, bucket)
  {
  }

  /** All statements of such a document together allow what these three say. */
  lemma {:induction false} AllowsByStatements(d: Document, bucket: string, prefix: string)
    requires Stored(d) && Plain(d) && ListedUnder(d, bucket, ListingSids(bucket))
    ensures AllowsListing(d, bucket, prefix) <==> ListCovers(d, bucket) || FolderStmtsAllow(d, bucket, prefix)
  {
    var q := ListRequest(bucket, prefix);
    assert AllowsListing(d, bucket, prefix) <==> Permits(d, q);
    SomeAllowsIs(d, bucket, prefix);
    hide Stored, Plain, ListedUnder, Applies, StmtAllows, Lists, Lookup, ListingSids, ListRequest, AllowsListing, Denies,
         Permissive, Gives, ListCovers, FolderStmtsAllow;
    if Permits(d, q) {
      var s :| s in d && Permissive(s.body) && Applies(s, q);
      AppliesIs(s, bucket, prefix);
      ListingMember(d, bucket, s);
    }
    if SomeAllows(d, bucket, prefix) {
      var sid :| sid in ListingSids(bucket) && StmtAllows(Lookup(d, sid), bucket, prefix);
      ListingStatement(d, bucket, sid);
      AppliesIs(Lookup(d, sid), bucket, prefix);
      StmtPresent(d, sid, bucket, prefix);
      forall s | s in d && Denies(s.body)
        ensures !Applies(s, q)
      {
        AppliesIs(s, bucket, prefix);
        if Lists(s, bucket) {
          ListingMember(d, bucket, s);
        }
      }
    }
  }

  lemma {:induction false} StmtPresent(d: Document, sid: string, bucket: string, prefix: string)
    requires Stored(d) && StmtAllows(Lookup(d, sid), bucket, prefix)
    ensures Lookup(d, sid) in d
  {
    StoredMatch(d, sid, Arn(bucket));
  }

  lemma {:induction false} AppliedMatches(e: Edit, s: Stmt, resource: string)
    requires !s.resource.Single?
    requires Matches(Apply(e, s).resource, resource)
    ensures Matches(s.resource, resource) || (e.AddResource? && Glob(e.arn, resource))
  {
  }

  lemma {:induction false} BucketMatch(u: string, v: string)
    requires ValidName(u) && Glob(Arn(u), Arn(v))
    ensures u == v
  {
    LiteralArn(u);
    GlobLiteral(Arn(u), Arn(v));
    assert Arn(u)[|S3_ARN|..] == u && Arn(v)[|S3_ARN|..] == v;
  }

  /** A step that adds the bucket itself to a statement about listing is one of its own, or about `list`. */
  lemma {:induction false} AddingStep(st: Step, name: string, bucket: string)
    requires Aimed(st, name) && ValidName(name) && LIST_BUCKET in Actions(st.base)
    requires st.edit.AddResource? && Glob(st.edit.arn, Arn(bucket))
    ensures StepSid(st) == Name(List) || (HasSlash(name) && BucketOf(name) == bucket && StepSid(st) in ListingSids(bucket))
  {
    ListingBodies(st.base);
    hide Actions, LIST_BUCKET, Glob, ValidName, Arn;
    if !st.base.List? {
      NoSlashInBucket(name);
      BucketIsName(name);
      BucketMatch(BucketOf(name), bucket);
    }
  }

  /** A step of an operation on another datasource gives no listing of the bucket, but for `list`. */
  lemma {:induction false} StepLists(st: Step, name: string, s: Stmt, bucket: string, sids: set<string>)
    requires Aimed(st, name) && ValidName(name)
    requires Name(List) in sids && (HasSlash(name) && BucketOf(name) == bucket ==> ListingSids(bucket) <= sids)
    requires s.sid !in sids && LoadStmt(s) == s && !(Managed(s.sid) && s.resource.Single?)
    requires Lists(On(st, s), bucket)
    ensures Lists(s, bucket)
  {
    hide Gives, Matches, LIST_BUCKET, Name, Managed, Apply, Glob, ValidName, Actions, Aimed, LoadStmt, ListingSids;
    if StepSid(st) == s.sid {
      ManagedBase(st.base, st.suffix, s);
      StandardBody(st.base);
      AppliedMatches(st.edit, s, Arn(bucket));
      if !Matches(s.resource, Arn(bucket)) {
        AddingStep(st, name, bucket);
      }
    }
  }

  lemma {:induction false} BucketIsName(name: string)
    requires ValidRoot(name)
    ensures ValidName(BucketOf(name))
  {
  }

  lemma {:induction false} ManagedBase(b: Base, suffix: string, s: Stmt)
    requires s.sid == ConstructSid(b, suffix) && LoadStmt(s) == s
    ensures Managed(s.sid) && s.body == Standard(b)
  {
    SidRoundTrip(b, suffix);
  }

  lemma {:induction false} StepKeepsLoaded(st: Step, s: Stmt)
    requires LoadStmt(s) == s && !(Managed(s.sid) && s.resource.Single?)
    ensures var r := On(st, s); LoadStmt(r) == r && !(Managed(r.sid) && r.resource.Single?)
  {
  }

  lemma {:induction false} StepsList(steps: seq<Step>, name: string, s: Stmt, bucket: string, sids: set<string>)
    requires AllAimed(steps, name) && ValidName(name)
    requires Name(List) in sids && (HasSlash(name) && BucketOf(name) == bucket ==> ListingSids(bucket) <= sids)
    requires s.sid !in sids && LoadStmt(s) == s && !(Managed(s.sid) && s.resource.Single?)
    requires !Lists(s, bucket)
    ensures var r := OnAll(steps, s); LoadStmt(r) == r && !(Managed(r.sid) && r.resource.Single?) && !Lists(r, bucket)
  {
    hide Lists, On, Aimed, ValidName, LoadStmt, Managed, Name, ListingSids;
    if steps != [] {
      var front, st := steps[..|steps| - 1], steps[|steps| - 1];
      StepsList(front, name, s, bucket, sids);
      StepKeepsLoaded(st, OnAll(front, s));
      if Lists(On(st, OnAll(front, s)), bucket) {
        StepLists(st, name, OnAll(front, s), bucket, sids);
      }
    }
  }

  lemma {:induction false} BlankListsNothing(sid: string, bucket: string)
    ensures !Lists(Blank(sid), bucket)
  {
  }

  /** No operation adds a statement about listing a bucket, but `list` and those of the bucket's own folders. */
  lemma {:induction false} OpListedUnder(d: Document, op: Op, bucket: string, sids: set<string>)
    requires Loadable(d) && ValidName(op.name)
    requires Name(List) in sids && (HasSlash(op.name) && BucketOf(op.name) == bucket ==> ListingSids(bucket) <= sids)
    requires ListedUnder(Load(d), bucket, sids)
    ensures ListedUnder(PerformOp(d, op), bucket, sids)
  {
    hide Lists, PerformOp, ValidName, Lookup, Load, Loadable, Name, ListingSids, OpSteps, AllAimed;
    PerformOpSteps(d, op);
    StepsAimed(op);
    LoadLoaded(d);
    forall sid | sid !in sids
      ensures !Lists(Lookup(PerformOp(d, op), sid), bucket)
    {
      PerformLookup(d, OpSteps(op), sid);
      LoadedLookup(Load(d), sid);
      BlankListsNothing(sid, bucket);
      StepsList(OpSteps(op), op.name, Lookup(Load(d), sid), bucket, sids);
    }
  }

  // ---------------------------------------------------------------- the listing statements of a bucket

  /** A pattern that starts with a bucket folder's name and a slash. */
  predicate FolderPattern(p: string) {
    exists k :: 0 <= k < |p| && p[k] == '/' && ValidBucket(p[..k])
  }

  /** The patterns of `listSubFolders` are all of that shape. */
  ghost predicate PatternsShaped(s: Stmt) {
    forall p :: p in CurrentPrefixes(Like, s.condition) ==> FolderPattern(p)
  }

  /** The statement covers the bucket, or holds nothing at all, and its patterns are shaped. */
  ghost predicate ReadyStmt(op: Operator, s: Stmt, bucketArn: string) {
    Owned(s, bucketArn) && (op == Like ==> PatternsShaped(s))
  }

  /** A document in which listing the bucket is up to `list` and its two listing statements. */
  ghost predicate ListingReady(d: Document, bucket: string) {
    && Plain(Load(d))
    && ListedUnder(Load(d), bucket, ListingSids(bucket))
    && (forall op: Operator :: ReadyStmt(op, Lookup(Load(d), ListingSid(op, bucket)), Arn(bucket)))
  }

  // ---------------------------------------------------------------- trailing slashes

  function TrailingSlashes(s: string): nat {
    if EndsWithSlash(s) then 1 + TrailingSlashes(s[..|s| - 1]) else 0
  }

  predicate OnlySlashes(s: string) {
    forall i :: 0 <= i < |s| ==> s[i] == '/'
  }

  /** The string is the path followed by slashes, if anything. */
  predicate Slashed(x: string, path: string) {
    StartsWith(x, path) && OnlySlashes(x[|path|..])
  }

  /** No granted path, with slashes or without. */
  predicate Clear(x: string, full: seq<string>) {
    forall t :: t in full ==> !Slashed(x, t)
  }

  /** On the list, or one slash longer than an element of it that ends in an even number of slashes. */
  predicate Present(x: string, visited: seq<string>) {
    x in visited || (TrailingSlashes(x) % 2 == 1 && x[..|x| - 1] in visited)
  }

  /** Apart from the granted paths, the prefixes are what the visited ancestors account for. */
  ghost predicate Regular(prefixes: seq<string>, visited: seq<string>, full: seq<string>) {
    forall x :: Clear(x, full) ==> (x in prefixes <==> Present(x, visited))
  }

  lemma {:induction false} SlashAdded(a: string)
    ensures EndsWithSlash(a + "/") && (a + "/")[..|a + "/"| - 1] == a
    ensures TrailingSlashes(a + "/") == 1 + TrailingSlashes(a)
  {
  }

  lemma {:induction false} SlashTaken(x: string)
    requires TrailingSlashes(x) > 0
    ensures EndsWithSlash(x) && x == x[..|x| - 1] + "/"
    ensures TrailingSlashes(x) == 1 + TrailingSlashes(x[..|x| - 1])
  {
  }

  lemma {:induction false} ClearShorter(a: string, full: seq<string>)
    requires Clear(a + "/", full)
    ensures Clear(a, full)
  {
    forall t | t in full
      ensures !Slashed(a, t)
    {
      SlashedMore(a, t);
    }
  }

  lemma {:induction false} SlashedMore(a: string, t: string)
    ensures Slashed(a, t) ==> Slashed(a + "/", t)
  {
    if Slashed(a, t) {
      assert (a + "/")[|t|..] == a[|t|..] + "/";
    }
  }

  /** What the loop does for one ancestor, which comes after the one that is a slash shorter. */
  lemma {:induction false} AncestorStep(prefixes: seq<string>, visited: seq<string>, a: string, full: seq<string>)
    requires Regular(prefixes, visited, full)
    requires EndsWithSlash(a) ==> a[..|a| - 1] in visited
    ensures Regular(if a in prefixes then prefixes else prefixes + [a] + [a + "/"], visited + [a], full)
  {
    var after := if a in prefixes then prefixes else prefixes + [a] + [a + "/"];
    hide Clear, TrailingSlashes, EndsWithSlash;
    forall x | Clear(x, full)
      ensures x in after <==> Present(x, visited + [a])
    {
      StepAt(prefixes, visited, a, full, x);
    }
  }

  lemma {:induction false} StepAt(prefixes: seq<string>, visited: seq<string>, a: string, full: seq<string>, x: string)
    requires Regular(prefixes, visited, full)
    requires EndsWithSlash(a) ==> a[..|a| - 1] in visited
    requires Clear(x, full)
    ensures x in (if a in prefixes then prefixes else prefixes + [a] + [a + "/"]) <==> Present(x, visited + [a])
  {
    hide Clear, TrailingSlashes, EndsWithSlash;
    SlashAdded(a);
    if x == a + "/" {
      ClearShorter(a, full);
      if TrailingSlashes(a) > 0 {
        SlashTaken(a);
      }
    } else if x == a {
      if TrailingSlashes(a) > 0 {
        SlashTaken(a);
      }
    } else if TrailingSlashes(x) > 0 {
      SlashTaken(x);
    }
  }

  lemma {:induction false} SlashedOnce(t: string)
    ensures Slashed(t + "/", t)
  {
  }

  /** A granted path, added by itself, does not matter to the others. */
  lemma {:induction false} PathStep(prefixes: seq<string>, visited: seq<string>, path: string, full: seq<string>)
    requires Regular(prefixes, visited, full) && path in full
    ensures Regular(AddOne(prefixes, path), visited + [path], full)
  {
    hide TrailingSlashes, EndsWithSlash;
    forall x | Clear(x, full)
      ensures x in AddOne(prefixes, path) <==> Present(x, visited + [path])
    {
      assert !Slashed(x, path);
      if TrailingSlashes(x) > 0 {
        SlashTaken(x);
        SlashedOnce(x[..|x| - 1]);
      }
    }
  }

  // ---------------------------------------------------------------- the loops

  /** The ancestors that the loop visits, in order. */
  function Ancestors(path: string, n: nat): seq<string>
    requires n < |Split(path)|
  {
    if n == 0 then [] else Ancestors(path, n - 1) + [Ancestor(path, n - 1)]
  }

  /** Everything that a grant of the paths visits. */
  function Trail(paths: seq<string>): seq<string> {
    if paths == [] then []
    else Trail(paths[..|paths| - 1]) + Ancestors(paths[|paths| - 1], |Split(paths[|paths| - 1])| - 1) + [paths[|paths| - 1]]
  }

  lemma {:induction false} SplitParts(s: string)
    ensures forall i :: 0 <= i < |Split(s)| ==> !HasSlash(Split(s)[i])
    decreases |s|
  {
    var k := FirstSlash(s);
    if k < |s| {
      SplitParts(s[k + 1..]);
    }
  }

  /** An ancestor that ends in a slash comes right after the one without it. */
  lemma {:induction false} SlashlessBefore(path: string, folder: string, i: nat)
    requires ValidBucket(folder) && InFolder(path, folder)
    requires i < |Split(path)| - 1
    requires EndsWithSlash(Ancestor(path, i))
    ensures i > 0 && Ancestor(path, i)[..|Ancestor(path, i)| - 1] == Ancestor(path, i - 1)
  {
    hide Split, Join, ValidBucket;
    var parts := Split(path);
    SplitParts(path);
    if i == 0 {
      FirstAncestor(path);
    } else {
      AncestorIsCut(path, folder, i - 1);
      CutNotEmpty(Ancestor(path, i - 1), path, folder);
      assert parts[..i - 1 + 1] == parts[..i];
      assert Ancestor(path, i) == Ancestor(path, i - 1) + "/" + parts[i];
      LastCharacter(parts[i], Ancestor(path, i - 1) + "/");
    }
  }

  lemma {:induction false} LastCharacter(part: string, head: string)
    requires !HasSlash(part)
    ensures EndsWithSlash(head + part) ==> part == ""
  {
    if part != "" {
      assert (head + part)[|head + part| - 1] == part[|part| - 1];
      assert part[|part| - 1] in part;
    }
  }

  lemma {:induction false} FirstAncestor(path: string)
    ensures Ancestor(path, 0) == Split(path)[0]
  {
    assert Split(path)[..0] == [];
  }

  lemma {:induction false} CutNotEmpty(q: string, path: string, folder: string)
    requires ValidBucket(folder) && AncestorOrSelf(q, path, folder)
    ensures q != ""
  {
  }

  lemma {:induction false} AncestorsRegular(prefixes: seq<string>, visited: seq<string>, path: string, folder: string,
                                            n: nat, full: seq<string>)
    requires ValidBucket(folder) && InFolder(path, folder) && n < |Split(path)|
    requires Regular(prefixes, visited, full)
    ensures Regular(AddAncestors(prefixes, path, n), visited + Ancestors(path, n), full)
  {
    hide Regular, Split, Ancestor, InFolder, ValidBucket, EndsWithSlash;
    if n == 0 {
      assert visited + [] == visited;
    } else {
      var before, a := visited + Ancestors(path, n - 1), Ancestor(path, n - 1);
      AncestorsRegular(prefixes, visited, path, folder, n - 1, full);
      if EndsWithSlash(a) {
        SlashlessBefore(path, folder, n - 1);
        assert Ancestors(path, n - 1)[|Ancestors(path, n - 1)| - 1] == Ancestor(path, n - 2);
      }
      AncestorStep(AddAncestors(prefixes, path, n - 1), before, a, full);
      assert before + [a] == visited + Ancestors(path, n);
    }
  }

  /** The paths that a grant adds go with their ancestors, with a slash where that is new. */
  lemma {:induction false} PathsRegular(paths: seq<string>, folder: string, full: seq<string>)
    requires ValidBucket(folder)
    requires forall p :: p in paths ==> p in full && InFolder(p, folder)
    ensures Regular(NewPrefixes(Equals, paths), Trail(paths), full)
  {
    hide Split, InFolder, ValidBucket, AddAncestors, Ancestors;
    if paths == [] {
      NothingRegular(full);
    } else {
      var front, last := paths[..|paths| - 1], paths[|paths| - 1];
      var n := |Split(last)| - 1;
      hide Regular;
      PathsRegular(front, folder, full);
      AncestorsRegular(NewPrefixes(Equals, front), Trail(front), last, folder, n, full);
      PathStep(AddAncestors(NewPrefixes(Equals, front), last, n), Trail(front) + Ancestors(last, n), last, full);
    }
  }

  lemma {:induction false} NothingRegular(full: seq<string>)
    ensures Regular([], [], full)
  {
  }

  // ---------------------------------------------------------------- what may be listed

  /** Some granted path has q as itself or as an ancestor. */
  predicate OnTheWay(q: string, paths: seq<string>, folder: string) {
    exists p :: p in paths && AncestorOrSelf(q, p, folder)
  }

  /** Some pattern of the granted paths matches. */
  predicate Below(prefix: string, paths: seq<string>) {
    exists p :: p in paths && Glob(p + "/*", prefix)
  }

  /**
   * What a grant of the paths lets a role list inside the folder: what is on the way to a path,
   * with one slash more if that makes their number odd, and what lies below a path.
   */
  predicate Listable(prefix: string, paths: seq<string>, folder: string) {
    || OnTheWay(prefix, paths, folder)
    || (TrailingSlashes(prefix) % 2 == 1 && OnTheWay(prefix[..|prefix| - 1], paths, folder))
    || Below(prefix, paths)
  }

  lemma {:induction false} AncestorsAre(path: string, folder: string, n: nat, q: string)
    requires ValidBucket(folder) && InFolder(path, folder) && n < |Split(path)|
    ensures q in Ancestors(path, n) <==> exists i :: 0 <= i < n && Ancestor(path, i) == q
  {
    if n > 0 {
      AncestorsAre(path, folder, n - 1, q);
      assert Ancestor(path, n - 1) == q ==> q in Ancestors(path, n);
    }
  }

  lemma {:induction false} PathTrail(path: string, folder: string, q: string)
    requires ValidBucket(folder) && InFolder(path, folder)
    ensures q in Ancestors(path, |Split(path)| - 1) + [path] <==> AncestorOrSelf(q, path, folder)
  {
    hide Split, Ancestor, ValidBucket;
    var n := |Split(path)| - 1;
    AncestorsAre(path, folder, n, q);
    if q in Ancestors(path, n) {
      var i :| 0 <= i < n && Ancestor(path, i) == q;
      AncestorIsCut(path, folder, i);
    }
    if AncestorOrSelf(q, path, folder) && q != path {
      var i := CutIsAncestor(q, path, folder);
    }
  }

  lemma {:induction false} TrailIsWay(paths: seq<string>, folder: string, q: string)
    requires ValidBucket(folder)
    requires forall p :: p in paths ==> InFolder(p, folder)
    ensures q in Trail(paths) <==> OnTheWay(q, paths, folder)
  {
    hide AncestorOrSelf, Split, Ancestors, ValidBucket, InFolder;
    if paths != [] {
      var front, last := paths[..|paths| - 1], paths[|paths| - 1];
      assert paths == front + [last];
      TrailIsWay(front, folder, q);
      PathTrail(last, folder, q);
    }
  }

  lemma {:induction false} PathsAdded(paths: seq<string>, p: string)
    requires p in paths
    ensures p in NewPrefixes(Equals, paths)
  {
    hide Split, AddAncestors;
    var front, last := paths[..|paths| - 1], paths[|paths| - 1];
    assert paths == front + [last];
    if p != last {
      PathsAdded(front, p);
      AncestorsKeep(NewPrefixes(Equals, front), last, |Split(last)| - 1);
    }
  }

  lemma {:induction false} AncestorsKeep(prefixes: seq<string>, path: string, n: nat)
    requires n < |Split(path)|
    ensures forall x :: x in prefixes ==> x in AddAncestors(prefixes, path, n)
  {
    hide Split, Ancestor;
    if n > 0 {
      AncestorsKeep(prefixes, path, n - 1);
    }
  }

  /** A granted path with further slashes is matched by its pattern. */
  lemma {:induction false} SlashedBelow(x: string, t: string)
    requires Slashed(x, t) && x != t
    ensures Glob(t + "/*", x)
  {
    var rest := x[|t| + 1..];
    GlobSelf(t + "/", rest);
    assert x[|t|] == x[|t|..][0] == '/';
    assert x == t + "/" + rest && t + "/" + "*" == t + "/*";
  }

  /** The prefixes and patterns that a grant adds allow exactly what is listable. */
  lemma {:induction false} NewPrefixesExact(full: seq<string>, folder: string, x: string)
    requires ValidBucket(folder)
    requires forall p :: p in full ==> InFolder(p, folder)
    ensures x in NewPrefixes(Equals, full) || Below(x, full) <==> Listable(x, full, folder)
  {
    PathsRegular(full, folder, full);
    TrailIsWay(full, folder, x);
    if TrailingSlashes(x) > 0 {
      TrailIsWay(full, folder, x[..|x| - 1]);
    }
    hide NewPrefixes, Glob, InFolder, TrailingSlashes, Slashed, ValidBucket, Trail;
    if !Clear(x, full) {
      var t :| t in full && Slashed(x, t);
      if x == t {
        PathsAdded(full, x);
        assert AncestorOrSelf(x, x, folder) by {
          SelfOnTheWay(x, folder);
        }
      } else {
        SlashedBelow(x, t);
      }
    }
  }

  lemma {:induction false} SelfOnTheWay(p: string, folder: string)
    requires InFolder(p, folder)
    ensures AncestorOrSelf(p, p, folder)
  {
  }

  lemma {:induction false} StarsAdded(paths: seq<string>)
    ensures NewPrefixes(Like, paths) == AddAll([], Stars(paths))
  {
    if paths != [] {
      StarsAdded(paths[..|paths| - 1]);
      assert Stars(paths)[..|paths| - 1] == Stars(paths[..|paths| - 1]);
    }
  }

  lemma {:induction false} PatternsBelow(full: seq<string>, prefix: string)
    ensures (exists x :: x in NewPrefixes(Like, full) && Glob(x, prefix)) <==> Below(prefix, full)
  {
    StarsAdded(full);
    hide Glob, NewPrefixes;
    if x :| x in NewPrefixes(Like, full) && Glob(x, prefix) {
      var i :| 0 <= i < |full| && Stars(full)[i] == x;
      assert full[i] in full;
    }
    if Below(prefix, full) {
      var p :| p in full && Glob(p + "/*", prefix);
      var i :| 0 <= i < |full| && full[i] == p;
      assert Stars(full)[i] in NewPrefixes(Like, full);
    }
  }

  // ---------------------------------------------------------------- after a grant

  /** What a listing statement holds after a role-level folder grant. */
  lemma {:induction false} ListingAfterGrant(d: Document, root: string, level: Level, paths: seq<string>,
                                             op: Operator)
    requires Loadable(d)
    requires ValidFolderGrant(root, paths) && ListingOwned(d, BucketOf(root))
    ensures var bucket, folder := BucketOf(root), FolderOf(root);
            var s, r := Lookup(Load(d), ListingSid(op, bucket)), Lookup(GrantFolder(d, root, level, paths), ListingSid(op, bucket));
            && r == ListingGranted(op, s, Arn(bucket), folder, FolderPaths(folder, paths))
            && Arn(bucket) in Items(r.resource)
  {
    var bucket, folder := BucketOf(root), FolderOf(root);
    var s := Lookup(Load(d), ListingSid(op, bucket));
    PerformLookup(d, RevokeFolderSteps(root) + GrantFolderSteps(root, level, paths), ListingSid(op, bucket));
    GrantFolderStmt(root, level, paths, s);
    FormAtListing(op, s, root, level, paths);
    FullPathsInFolder(root, paths);
    ListingTwice(op, s, Arn(bucket), folder, FolderPaths(folder, paths));
    ListingRegranted(op, s, Arn(bucket), folder, FolderPaths(folder, paths), FolderPaths(folder, paths));
  }

  /** A pattern of another folder matches nothing that starts with this folder's name. */
  lemma {:induction false} OtherPatternsApart(pattern: string, prefix: string, folder: string)
    requires FolderPattern(pattern) && ValidBucket(folder)
    requires Glob(pattern, prefix) && StartsWith(prefix, folder)
    ensures StartsWith(pattern, folder)
  {
    var k :| 0 <= k < |pattern| && pattern[k] == '/' && ValidBucket(pattern[..k]);
    var head := pattern[..k + 1];
    assert forall i :: 0 <= i < k ==> head[i] == pattern[..k][i];
    assert Literal(head);
    assert pattern == head + pattern[k + 1..];
    GlobLiteralHead(head, pattern[k + 1..], prefix);
    assert prefix[k] == head[k] == '/';
    assert forall i :: 0 <= i < |folder| ==> prefix[i] == folder[i] && NameChar(folder[i]);
    assert |folder| <= k;
    assert pattern[..|folder|] == head[..|folder|] == prefix[..|folder|] == folder;
  }

  lemma {:induction false} KeptNotMatching(s: Stmt, folder: string, x: string, prefix: string)
    requires ValidBucket(folder) && PatternsShaped(s) && x in Kept(Like, s, folder)
    requires StartsWith(prefix, folder)
    ensures !Glob(x, prefix)
  {
    assert x in CurrentPrefixes(Like, s.condition);
    if Glob(x, prefix) {
      OtherPatternsApart(x, prefix, folder);
    }
  }

  /** What was there before the grant lists nothing of the folder; only the new prefixes do. */
  lemma {:induction false} GrantedHolds(op: Operator, s: Stmt, bucketArn: string, folder: string,
                                        full: seq<string>, prefix: string)
    requires ValidBucket(folder) && StartsWith(prefix, folder)
    requires forall p :: p in full ==> InFolder(p, folder)
    requires op == Like ==> PatternsShaped(s)
    ensures Holds(ListingGranted(op, s, bucketArn, folder, full).condition, Some(prefix))
       <==> if op.Equals? then prefix in NewPrefixes(Equals, full) else Below(prefix, full)
  {
    hide NewPrefixes, InFolder, ValidBucket, PatternsShaped, Glob;
    var kept, new_ := Kept(op, s, folder), NewPrefixes(op, full);
    KeptOfGranted(op, s, bucketArn, folder, full);
    if op == Equals {
      assert prefix in kept + new_ <==> prefix in new_;
    } else {
      PatternsBelow(full, prefix);
      forall x | x in kept
        ensures !Glob(x, prefix)
      {
        KeptNotMatching(s, folder, x, prefix);
      }
      assert forall x :: x in kept + new_ && Glob(x, prefix) <==> x in new_ && Glob(x, prefix);
    }
  }

  lemma {:induction false} OwnMatch(r: Resource, bucket: string)
    requires ValidBucket(bucket) && Arn(bucket) in Items(r)
    ensures Matches(r, Arn(bucket))
  {
    assert ValidName(bucket);
    LiteralArn(bucket);
    GlobLiteral(Arn(bucket), Arn(bucket));
  }

  lemma {:induction false} FolderOpKeepsList(d: Document, op: Op)
    requires Loadable(d) && ValidRoot(op.name)
    ensures Lookup(PerformOp(d, op), Name(List)).resource == Norm(Lookup(Load(d), Name(List))).resource
  {
    PerformOpSteps(d, op);
    PerformLookup(d, OpSteps(op), Name(List));
    NamesDiffer();
    FolderOpOn(op, Lookup(Load(d), Name(List)));
  }

  lemma {:induction false} ListCoversKept(d: Document, op: Op, bucket: string)
    requires Loadable(d) && ValidRoot(op.name)
    ensures ListCovers(PerformOp(d, op), bucket) <==> ListCovers(d, bucket)
  {
    FolderOpKeepsList(d, op);
    LoadLookup(d, Name(List));
    hide PerformOp, Lookup, Glob, Loadable;
  }

  /** A folder grant or revoke leaves a document of which the three statements speak for the bucket. */
  lemma {:induction false} FolderOpStatements(d: Document, op: Op, prefix: string)
    requires Loadable(d) && ValidRoot(op.name) && ListingReady(d, BucketOf(op.name))
    ensures var d', bucket := PerformOp(d, op), BucketOf(op.name);
            AllowsListing(d', bucket, prefix) <==> ListCovers(d, bucket) || FolderStmtsAllow(d', bucket, prefix)
  {
    hide PerformOp, Lookup, Stored, Plain, ListedUnder, AllowsListing, ListCovers, FolderStmtsAllow, ListingSids;
    var bucket := BucketOf(op.name);
    assert Name(List) in ListingSids(bucket) by {
      ListingSidsHave(bucket);
    }
    OpStored(d, op);
    OpKeepsPlain(d, op);
    OpListedUnder(d, op, bucket, ListingSids(bucket));
    AllowsByStatements(PerformOp(d, op), bucket, prefix);
    ListCoversKept(d, op, bucket);
  }

  /**
   * Exact: after a folder grant, a prefix that starts with the folder's name may be listed if and
   * only if the granted paths make it listable, unless `list` allows all of the bucket anyway.
   */
  lemma {:induction false} ListingExact(d: Document, root: string, level: Level, paths: seq<string>, prefix: string)
    requires Loadable(d)
    requires ValidFolderGrant(root, paths) && ListingReady(d, BucketOf(root))
    requires StartsWith(prefix, FolderOf(root))
    ensures AllowsListing(GrantFolder(d, root, level, paths), BucketOf(root), prefix)
       <==> ListCovers(d, BucketOf(root)) || Listable(prefix, FolderPaths(FolderOf(root), paths), FolderOf(root))
  {
    var d', bucket, folder := GrantFolder(d, root, level, paths), BucketOf(root), FolderOf(root);
    var full := FolderPaths(folder, paths);
    FullPathsInFolder(root, paths);
    FolderOpStatements(d, GrantOp(root, Grant(level, paths)), prefix);
    NewPrefixesExact(full, folder, prefix);
    hide Lookup, GrantFolder, ListingGranted, Holds, NewPrefixes, Below, Listable, InFolder, ListCovers, AllowsListing;
    forall op: Operator
      ensures StmtAllows(Lookup(d', ListingSid(op, bucket)), bucket, prefix)
         <==> if op.Equals? then prefix in NewPrefixes(Equals, full) else Below(prefix, full)
    {
      ListingAfterGrant(d, root, level, paths, op);
      OwnMatch(Lookup(d', ListingSid(op, bucket)).resource, bucket);
      GrantedHolds(op, Lookup(Load(d), ListingSid(op, bucket)), Arn(bucket), folder, full, prefix);
    }
    assert FolderStmtsAllow(d', bucket, prefix) <==>
      StmtAllows(Lookup(d', ListingSid(Equals, bucket)), bucket, prefix) || StmtAllows(Lookup(d', ListingSid(Like, bucket)), bucket, prefix);
  }

  lemma {:induction false} NewNotEmpty(full: seq<string>, folder: string)
    requires ValidBucket(folder)
    requires forall p :: p in full ==> InFolder(p, folder)
    ensures "" !in NewPrefixes(Equals, full) && !Below("", full)
  {
    AddPathsApart(Equals, [], full, folder);
    assert [] + NewPrefixes(Equals, full) == NewPrefixes(Equals, full);
    forall p | p in full
      ensures !Glob(p + "/*", "")
    {
      HeadNotEmpty(p, folder);
    }
  }

  lemma {:induction false} HeadNotEmpty(p: string, folder: string)
    requires ValidBucket(folder) && InFolder(p, folder)
    ensures !Glob(p + "/*", "")
  {
    PlainLiteral(folder);
    var rest := (p + "/*")[|folder|..];
    assert p + "/*" == folder + rest;
    if Glob(p + "/*", "") {
      GlobLiteralHead(folder, rest, "");
    }
  }

  lemma {:induction false} PatternsNotEmpty(s: Stmt, folder: string)
    requires PatternsShaped(s)
    ensures forall x :: x in Kept(Like, s, folder) ==> !Glob(x, "")
  {
    forall x | x in Kept(Like, s, folder)
      ensures !Glob(x, "")
    {
      assert x in CurrentPrefixes(Like, s.condition);
      assert FolderPattern(x);
      ShapedNotEmpty(x);
    }
  }

  lemma {:induction false} ShapedNotEmpty(x: string)
    requires FolderPattern(x)
    ensures !Glob(x, "")
  {
    var k :| 0 <= k < |x| && x[k] == '/' && ValidBucket(x[..k]);
    assert x[0] == x[..k][0];
  }

  /** The statement allows the empty prefix after a grant if it listed nothing of the bucket before, or that prefix. */
  lemma {:induction false} GrantedRoot(op: Operator, s: Stmt, bucketArn: string, folder: string, full: seq<string>)
    requires ValidBucket(folder) && (op == Like ==> PatternsShaped(s))
    requires forall p :: p in full ==> InFolder(p, folder)
    ensures Holds(ListingGranted(op, s, bucketArn, folder, full).condition, Some(""))
       <==> op.Equals? && (s.condition.StringEquals? ==> "" in s.condition.prefixes)
  {
    hide NewPrefixes, InFolder, PatternsShaped, Glob;
    NewNotEmpty(full, folder);
    PatternsBelow(full, "");
    if op == Like {
      PatternsNotEmpty(s, folder);
      assert forall x :: x in Kept(Like, s, folder) + NewPrefixes(Like, full) <==> x in Kept(Like, s, folder) || x in NewPrefixes(Like, full);
    }
  }

  /**
   * The root of the bucket may be listed after a folder grant exactly if the bucket's `listFolder`
   * statement did not limit prefixes before, or had the empty one, or `list` allows the bucket anyway.
   */
  lemma {:induction false} RootListed(d: Document, root: string, level: Level, paths: seq<string>)
    requires Loadable(d)
    requires ValidFolderGrant(root, paths) && ListingReady(d, BucketOf(root))
    ensures AllowsListing(GrantFolder(d, root, level, paths), BucketOf(root), "")
       <==> var before := Lookup(Load(d), ListingSid(Equals, BucketOf(root))).condition;
            ListCovers(d, BucketOf(root)) || (before.StringEquals? ==> "" in before.prefixes)
  {
    var d', bucket, folder := GrantFolder(d, root, level, paths), BucketOf(root), FolderOf(root);
    var full := FolderPaths(folder, paths);
    FullPathsInFolder(root, paths);
    FolderOpStatements(d, GrantOp(root, Grant(level, paths)), "");
    hide Lookup, GrantFolder, ListingGranted, Holds, InFolder, ListCovers, AllowsListing;
    forall op: Operator
      ensures StmtAllows(Lookup(d', ListingSid(op, bucket)), bucket, "")
         <==> var c := Lookup(Load(d), ListingSid(op, bucket)).condition; op.Equals? && (c.StringEquals? ==> "" in c.prefixes)
    {
      ListingAfterGrant(d, root, level, paths, op);
      OwnMatch(Lookup(d', ListingSid(op, bucket)).resource, bucket);
      GrantedRoot(op, Lookup(Load(d), ListingSid(op, bucket)), Arn(bucket), folder, full);
    }
    assert FolderStmtsAllow(d', bucket, "") <==>
      StmtAllows(Lookup(d', ListingSid(Equals, bucket)), bucket, "") || StmtAllows(Lookup(d', ListingSid(Like, bucket)), bucket, "");
  }

  /**
   * Every granted path and every ancestor of it inside the folder may be listed. The same with a
   * further slash may be listed unless the ancestor ends in an odd number of slashes.
   */
  lemma {:induction false} ListingComplete(d: Document, root: string, level: Level, paths: seq<string>, q: string)
    requires Loadable(d)
    requires ValidFolderGrant(root, paths) && ListingReady(d, BucketOf(root))
    requires OnTheWay(q, FolderPaths(FolderOf(root), paths), FolderOf(root))
    ensures var d', bucket, folder := GrantFolder(d, root, level, paths), BucketOf(root), FolderOf(root);
            var full := FolderPaths(folder, paths);
            && AllowsListing(d', bucket, q)
            && (AllowsListing(d', bucket, q + "/") <==>
                  || ListCovers(d, bucket)
                  || TrailingSlashes(q) % 2 == 0
                  || OnTheWay(q + "/", full, folder)
                  || Below(q + "/", full))
  {
    var folder := FolderOf(root);
    var full := FolderPaths(folder, paths);
    WayStarts(q, full, folder);
    ListingExact(d, root, level, paths, q);
    ListingExact(d, root, level, paths, q + "/");
    hide *;
    ListableWay(q, full, folder);
  }

  lemma {:induction false} ListableWay(q: string, full: seq<string>, folder: string)
    requires OnTheWay(q, full, folder)
    ensures Listable(q, full, folder)
    ensures Listable(q + "/", full, folder)
       <==> TrailingSlashes(q) % 2 == 0 || OnTheWay(q + "/", full, folder) || Below(q + "/", full)
  {
    SlashAdded(q);
    hide OnTheWay, Below, TrailingSlashes;
  }

  lemma {:induction false} WayStarts(q: string, full: seq<string>, folder: string)
    requires OnTheWay(q, full, folder)
    ensures StartsWith(q, folder) && StartsWith(q + "/", folder)
  {
  }

  /** A path without two slashes in a row has no ancestor that ends in one. */
  lemma {:induction false} CleanAncestors(p: string, q: string, folder: string)
    requires ValidBucket(folder) && AncestorOrSelf(q, p, folder) && q != p
    requires forall i :: 0 <= i < |p| - 1 ==> !(p[i] == '/' && p[i + 1] == '/')
    ensures TrailingSlashes(q) == 0
  {
  }

  /** The exception is real: after a grant of "/b//c" the ancestor "f/b/" is listed, but not with a further slash. */
  lemma {:induction false} EmptyComponentGap(d: Document, root: string, level: Level, b: string, c: string)
    requires Loadable(d)
    requires ValidRoot(root) && ListingReady(d, BucketOf(root)) && !ListCovers(d, BucketOf(root))
    requires ValidBucket(b) && ValidBucket(c)
    ensures var d', bucket := GrantFolder(d, root, level, ["/" + b + "//" + c]), BucketOf(root);
            var q := FolderOf(root) + "/" + b + "/";
            AllowsListing(d', bucket, q) && !AllowsListing(d', bucket, q + "/")
  {
    var f, path := FolderOf(root), "/" + b + "//" + c;
    GapStrings(f, b, c);
    GapPattern(f, b, c);
    OnePath(root, path, f + "/" + b + "/");
    GapOfPath(d, root, level, [path], f + "/" + b + "/");
  }

  lemma {:induction false} GapOfPath(d: Document, root: string, level: Level, paths: seq<string>, q: string)
    requires Loadable(d)
    requires ValidFolderGrant(root, paths) && ListingReady(d, BucketOf(root)) && !ListCovers(d, BucketOf(root))
    requires var folder := FolderOf(root);
             var full := FolderPaths(folder, paths);
             OnTheWay(q, full, folder) && TrailingSlashes(q) % 2 == 1 && !OnTheWay(q + "/", full, folder) && !Below(q + "/", full)
    ensures var d', bucket := GrantFolder(d, root, level, paths), BucketOf(root);
            AllowsListing(d', bucket, q) && !AllowsListing(d', bucket, q + "/")
  {
    ListingComplete(d, root, level, paths, q);
    hide *;
  }

  lemma {:induction false} OnePath(root: string, path: string, q: string)
    requires ValidRoot(root) && StartsWith(path, "/")
    ensures var f, full := FolderOf(root), FolderPaths(FolderOf(root), [path]);
            && (OnTheWay(q, full, f) <==> AncestorOrSelf(q, f + path, f))
            && (OnTheWay(q + "/", full, f) <==> AncestorOrSelf(q + "/", f + path, f))
            && (Below(q + "/", full) <==> Glob(f + path + "/*", q + "/"))
    ensures ValidFolderGrant(root, [path])
  {
    var f := FolderOf(root);
    assert FolderPaths(f, [path]) == [f + path];
    assert [f + path][0] == f + path;
    hide ValidBucket, Glob, AncestorOrSelf, FolderPaths;
  }

  lemma {:induction false} GapStrings(f: string, b: string, c: string)
    requires ValidBucket(b) && ValidBucket(c)
    ensures var q, p := f + "/" + b + "/", f + ("/" + b + "//" + c);
            AncestorOrSelf(q, p, f) && !AncestorOrSelf(q + "/", p, f) && TrailingSlashes(q) % 2 == 1
  {
    var q, p := f + "/" + b + "/", f + ("/" + b + "//" + c);
    assert p == q + "/" + c;
    SlashAdded(f + "/" + b);
    assert (f + "/" + b)[|f + "/" + b| - 1] == b[|b| - 1];
    assert p[|q + "/"|] == c[0];
  }

  lemma {:induction false} GapPattern(f: string, b: string, c: string)
    requires ValidBucket(f) && ValidBucket(b) && ValidBucket(c)
    ensures !Glob(f + ("/" + b + "//" + c) + "/*", f + "/" + b + "/" + "/")
  {
    var p, prefix := f + ("/" + b + "//" + c), f + "/" + b + "/" + "/";
    assert Literal(p) by {
      PlainLiteral(f);
      PlainLiteral(b);
      PlainLiteral(c);
    }
    if Glob(p + "/*", prefix) {
      GlobLiteralHead(p, "/*", prefix);
    }
  }

  lemma {:induction false} PlainLiteral(s: string)
    requires ValidBucket(s)
    ensures Literal(s)
  {
  }

  // ---------------------------------------------------------------- after a revoke

  lemma {:induction false} RevokedHoldsNothing(op: Operator, s: Stmt, bucketArn: string, folder: string, prefix: string)
    requires ReadyStmt(op, s, bucketArn) && ValidBucket(folder) && StartsWith(prefix, folder)
    ensures var r := Norm(Apply(RemovePrefix(bucketArn, folder, op), s));
            r.resource == Missing || !Holds(r.condition, Some(prefix))
  {
    hide FolderPattern, Glob, ValidBucket;
    if Prefixes(s.condition, op).Some? {
      var ps := Prefixes(s.condition, op).value;
      forall x | x in Filter(NotUnder(folder), ps)
        ensures x != prefix && (op == Like ==> !Glob(x, prefix))
      {
        if op == Like {
          KeptNotMatching(s, folder, x, prefix);
        }
      }
    }
  }

  /** After a folder revoke nothing that starts with the folder's name may be listed any more. */
  lemma {:induction false} RevokedListsNothing(d: Document, root: string, prefix: string)
    requires Loadable(d)
    requires ValidRoot(root) && ListingReady(d, BucketOf(root)) && StartsWith(prefix, FolderOf(root))
    ensures AllowsListing(RevokeFolder(d, root), BucketOf(root), prefix) <==> ListCovers(d, BucketOf(root))
  {
    var bucket := BucketOf(root);
    FolderOpStatements(d, RevokeOp(root), prefix);
    hide Lookup, RevokeFolder, Holds, AllowsListing, ListCovers, FolderRevoked, Apply;
    forall op: Operator
      ensures !StmtAllows(Lookup(RevokeFolder(d, root), ListingSid(op, bucket)), bucket, prefix)
    {
      var s := Lookup(Load(d), ListingSid(op, bucket));
      RevokedStmt(d, root, op);
      RevokedHoldsNothing(op, s, Arn(bucket), FolderOf(root), prefix);
    }
  }

  lemma {:induction false} RevokedStmt(d: Document, root: string, op: Operator)
    requires Loadable(d) && ValidRoot(root)
    ensures Lookup(RevokeFolder(d, root), ListingSid(op, BucketOf(root)))
         == Norm(Apply(RemovePrefix(Arn(BucketOf(root)), FolderOf(root), op), Lookup(Load(d), ListingSid(op, BucketOf(root)))))
  {
    var s := Lookup(Load(d), ListingSid(op, BucketOf(root)));
    PerformLookup(d, RevokeFolderSteps(root), ListingSid(op, BucketOf(root)));
    RevokeFolderOn(root, s);
    FormAtListing(op, s, root, ReadOnly, []);
  }

  // ---------------------------------------------------------------- the prefixes, from one operation to the next

  /** A listing statement with the condition block that the class writes. */
  ghost predicate WrittenStmt(op: Operator, s: Stmt, bucketArn: string) {
    && ReadyStmt(op, s, bucketArn)
    && (Live(s) ==> s.condition == Listing(op, CurrentPrefixes(op, s.condition)))
    && (!Live(s) ==> s == Blank(s.sid))
  }

  /** A stored document in which this class alone wrote what is about listing the bucket. */
  ghost predicate ListingWritten(d: Document, bucket: string) {
    && Stored(d) && Plain(d)
    && ListedUnder(d, bucket, ListingSids(bucket))
    && (forall op: Operator :: WrittenStmt(op, Lookup(d, ListingSid(op, bucket)), Arn(bucket)))
  }

  /** The prefixes, or patterns, that a document holds for a bucket. */
  function ListPrefixes(d: Document, bucket: string, op: Operator): seq<string> {
    CurrentPrefixes(op, Lookup(d, ListingSid(op, bucket)).condition)
  }

  predicate AllowedBy(op: Operator, prefixes: seq<string>, prefix: string) {
    if op.Equals? then prefix in prefixes else exists x :: x in prefixes && Glob(x, prefix)
  }

  /** What a folder operation adds to them. */
  function AddedPrefixes(op: Op, which: Operator): seq<string>
    requires HasSlash(op.name)
  {
    match op
    case GrantOp(n, grant) => NewPrefixes(which, FolderPaths(FolderOf(n), grant.paths))
    case RevokeOp(_) => []
  }

  lemma {:induction false} WrittenReady(d: Document, bucket: string)
    requires ListingWritten(d, bucket)
    ensures Loadable(d) && Load(d) == d && ListingReady(d, bucket)
  {
    StoredLoads(d);
    hide Plain, ListedUnder;
  }

  lemma {:induction false} WrittenAllows(op: Operator, s: Stmt, bucket: string, prefix: string)
    requires WrittenStmt(op, s, Arn(bucket)) && ValidBucket(bucket) && prefix != ""
    ensures StmtAllows(s, bucket, prefix) <==> AllowedBy(op, CurrentPrefixes(op, s.condition), prefix)
  {
    hide FolderPattern, Glob;
    if Live(s) {
      OwnMatch(s.resource, bucket);
    }
  }

  /** The prefixes and patterns say what may be listed. */
  lemma {:induction false} WrittenListing(d: Document, bucket: string, prefix: string)
    requires ListingWritten(d, bucket) && ValidBucket(bucket) && prefix != ""
    ensures AllowsListing(d, bucket, prefix)
       <==> ListCovers(d, bucket) || exists op: Operator :: AllowedBy(op, ListPrefixes(d, bucket, op), prefix)
  {
    hide Stored, Plain, ListedUnder, Lookup, AllowsListing, ListCovers, ValidBucket, AllowedBy, StmtAllows, WrittenStmt;
    AllowsByStatements(d, bucket, prefix);
    forall op: Operator
      ensures StmtAllows(Lookup(d, ListingSid(op, bucket)), bucket, prefix) <==> AllowedBy(op, ListPrefixes(d, bucket, op), prefix)
    {
      WrittenAllows(op, Lookup(d, ListingSid(op, bucket)), bucket, prefix);
    }
  }

  lemma {:induction false} RevokedPrefixes(op: Operator, s: Stmt, bucketArn: string, folder: string, x: string)
    requires WrittenStmt(op, s, bucketArn) && x != ""
    ensures x in CurrentPrefixes(op, Norm(Apply(RemovePrefix(bucketArn, folder, op), s)).condition)
       <==> x in CurrentPrefixes(op, s.condition) && !StartsWith(x, folder)
  {
    hide PatternsShaped;
  }

  lemma {:induction false} GrantedPrefixes(op: Operator, s: Stmt, bucketArn: string, folder: string, full: seq<string>,
                                           x: string)
    requires WrittenStmt(op, s, bucketArn) && x != ""
    ensures x in CurrentPrefixes(op, ListingGranted(op, s, bucketArn, folder, full).condition)
       <==> (x in CurrentPrefixes(op, s.condition) && !StartsWith(x, folder)) || x in NewPrefixes(op, full)
  {
    hide PatternsShaped, NewPrefixes;
  }

  /** A folder operation takes out what starts with the folder's name and adds the new prefixes. */
  lemma {:induction false} OwnPrefixes(d: Document, op: Op, which: Operator, x: string)
    requires ValidRoot(op.name) && (op.GrantOp? ==> ValidPaths(op.grant.paths))
    requires ListingWritten(d, BucketOf(op.name)) && x != ""
    ensures var bucket := BucketOf(op.name);
            x in ListPrefixes(PerformOp(d, op), bucket, which) <==>
              (x in ListPrefixes(d, bucket, which) && !StartsWith(x, FolderOf(op.name))) || x in AddedPrefixes(op, which)
  {
    var root, bucket := op.name, BucketOf(op.name);
    var s := Lookup(d, ListingSid(which, bucket));
    WrittenReady(d, bucket);
    hide Lookup, NewPrefixes, CurrentPrefixes, ListingGranted, WrittenStmt, Stored, Loadable, GrantFolder, RevokeFolder,
         ReadyStmt;
    match op {
      case GrantOp(_, grant) =>
        assert ListingOwned(d, bucket) by {
          OwnedOfReady(d, bucket);
        }
        ListingAfterGrant(d, root, grant.level, grant.paths, which);
        GrantedPrefixes(which, s, Arn(bucket), FolderOf(root), FolderPaths(FolderOf(root), grant.paths), x);
      case RevokeOp(_) =>
        RevokedStmt(d, root, which);
        RevokedPrefixes(which, s, Arn(bucket), FolderOf(root), x);
    }
  }

  lemma {:induction false} OwnedOfReady(d: Document, bucket: string)
    requires ListingReady(d, bucket)
    ensures ListingOwned(d, bucket)
  {
  }

  // ---------------------------------------------------------------- every operation keeps the form

  lemma {:induction false} StarPattern(folder: string, full: seq<string>, p: string)
    requires ValidBucket(folder) && p in Stars(full)
    requires forall q :: q in full ==> InFolder(q, folder)
    ensures FolderPattern(p)
  {
    var i :| 0 <= i < |full| && Stars(full)[i] == p;
    assert full[i] in full;
    assert p[|folder|] == '/' && p[..|folder|] == folder;
  }

  lemma {:induction false} GrantedPatterns(s: Stmt, bucketArn: string, folder: string, full: seq<string>, p: string)
    requires ValidBucket(folder) && PatternsShaped(s)
    requires forall q :: q in full ==> InFolder(q, folder)
    requires p in CurrentPrefixes(Like, ListingGranted(Like, s, bucketArn, folder, full).condition)
    ensures FolderPattern(p)
  {
    hide FolderPattern, InFolder, ValidBucket, NewPrefixes, NoPrefixesLeft;
    StarsAdded(full);
    if p !in Kept(Like, s, folder) {
      StarPattern(folder, full, p);
    }
  }

  lemma {:induction false} WrittenAfterGrant(op: Operator, s: Stmt, bucketArn: string, folder: string, full: seq<string>)
    requires WrittenStmt(op, s, bucketArn) && ValidBucket(folder)
    requires forall p :: p in full ==> InFolder(p, folder)
    ensures WrittenStmt(op, Norm(ListingGranted(op, s, bucketArn, folder, full)), bucketArn)
  {
    hide FolderPattern, InFolder, ValidBucket, NewPrefixes;
    ListingTwice(op, s, bucketArn, folder, full);
    if op == Like {
      forall p | p in CurrentPrefixes(Like, ListingGranted(op, s, bucketArn, folder, full).condition)
        ensures FolderPattern(p)
      {
        GrantedPatterns(s, bucketArn, folder, full, p);
      }
    }
  }

  lemma {:induction false} WrittenAfterRevoke(op: Operator, s: Stmt, bucketArn: string, folder: string)
    requires WrittenStmt(op, s, bucketArn)
    ensures WrittenStmt(op, Norm(Apply(RemovePrefix(bucketArn, folder, op), s)), bucketArn)
  {
    hide FolderPattern;
  }

  lemma {:induction false} OwnListing(d: Document, op: Op, which: Operator)
    requires ValidRoot(op.name) && (op.GrantOp? ==> ValidPaths(op.grant.paths))
    requires ListingWritten(d, BucketOf(op.name))
    ensures WrittenStmt(which, Lookup(PerformOp(d, op), ListingSid(which, BucketOf(op.name))), Arn(BucketOf(op.name)))
  {
    var root, bucket := op.name, BucketOf(op.name);
    var s := Lookup(d, ListingSid(which, bucket));
    WrittenReady(d, bucket);
    hide Lookup, ListingGranted, WrittenStmt, Stored, Loadable, GrantFolder, RevokeFolder, ReadyStmt, InFolder;
    match op {
      case GrantOp(_, grant) =>
        var full := FolderPaths(FolderOf(root), grant.paths);
        OwnedOfReady(d, bucket);
        ListingAfterGrant(d, root, grant.level, grant.paths, which);
        FullPathsInFolder(root, grant.paths);
        WrittenAfterGrant(which, s, Arn(bucket), FolderOf(root), full);
        GrantedLive(which, s, Arn(bucket), FolderOf(root), full);
      case RevokeOp(_) =>
        RevokedStmt(d, root, which);
        WrittenAfterRevoke(which, s, Arn(bucket), FolderOf(root));
    }
  }

  lemma {:induction false} GrantedLive(op: Operator, s: Stmt, bucketArn: string, folder: string, full: seq<string>)
    requires bucketArn in Items(ListingGranted(op, s, bucketArn, folder, full).resource)
    ensures Norm(ListingGranted(op, s, bucketArn, folder, full)) == ListingGranted(op, s, bucketArn, folder, full)
  {
  }

  lemma {:induction false} OtherListingSid(which: Operator, bucket: string, other: string)
    requires bucket != "" && other != "" && Md5(bucket) != Md5(other)
    ensures forall op: Operator :: ListingSid(op, other) != ListingSid(which, bucket)
  {
    forall op: Operator
      ensures ListingSid(op, other) != ListingSid(which, bucket)
    {
      if ListingSid(op, other) == ListingSid(which, bucket) {
        SidInjective(if op.Equals? then ListFolder else ListSubFolders, other,
                     if which.Equals? then ListFolder else ListSubFolders, bucket);
      }
    }
  }

  lemma {:induction false} AimedAtListing(st: Step, name: string, which: Operator, bucket: string)
    requires Aimed(st, name) && ValidName(name) && bucket != ""
    requires HasSlash(name) ==> Md5(BucketOf(name)) != Md5(bucket)
    ensures StepSid(st) != ListingSid(which, bucket)
  {
    NamesApart(bucket);
    if HasSlash(name) {
      NoSlashInBucket(name);
      OtherListingSid(which, bucket, BucketOf(name));
      assert st.base.ListFolder? ==> StepSid(st) == ListingSid(Equals, BucketOf(name)) || st.suffix == "";
      assert st.base.ListSubFolders? ==> StepSid(st) == ListingSid(Like, BucketOf(name)) || st.suffix == "";
    }
  }

  /** Operations on other datasources leave the listing statements of a bucket alone. */
  lemma {:induction false} OtherListing(d: Document, op: Op, which: Operator, bucket: string)
    requires Stored(d) && ValidName(op.name) && bucket != ""
    requires HasSlash(op.name) ==> Md5(BucketOf(op.name)) != Md5(bucket)
    ensures Lookup(PerformOp(d, op), ListingSid(which, bucket)) == Lookup(d, ListingSid(which, bucket))
  {
    var sid := ListingSid(which, bucket);
    StoredLoads(d);
    PerformOpSteps(d, op);
    PerformLookup(d, OpSteps(op), sid);
    StepsAimed(op);
    LookupNorm(d, sid);
    hide PerformOp, OpSteps, Aimed, ValidName, Stored, Md5, StepSid, ListingSid;
    forall st | st in OpSteps(op)
      ensures StepSid(st) != sid
    {
      AimedAtListing(st, op.name, which, bucket);
    }
    Untouched(OpSteps(op), Lookup(d, sid));
  }

  /** Every operation, on whatever datasource, keeps what is about listing a bucket in its form. */
  lemma {:induction false} OpKeepsListing(d: Document, op: Op, bucket: string)
    requires ListingWritten(d, bucket) && bucket != ""
    requires ValidName(op.name) && (op.GrantOp? ==> ValidPaths(op.grant.paths))
    requires HasSlash(op.name) && BucketOf(op.name) != bucket ==> Md5(BucketOf(op.name)) != Md5(bucket)
    ensures ListingWritten(PerformOp(d, op), bucket)
  {
    WrittenReady(d, bucket);
    ListingSidsHave(bucket);
    OpStored(d, op);
    OpKeepsPlain(d, op);
    OpListedUnder(d, op, bucket, ListingSids(bucket));
    hide PerformOp, Lookup, ListingSids, ListedUnder, Plain, Stored, WrittenStmt, ValidPaths, Md5;
    forall which: Operator
      ensures WrittenStmt(which, Lookup(PerformOp(d, op), ListingSid(which, bucket)), Arn(bucket))
    {
      if HasSlash(op.name) && BucketOf(op.name) == bucket {
        NoSlashInBucket(op.name);
        OwnListing(d, op, which);
      } else {
        OtherListing(d, op, which, bucket);
      }
    }
  }

  lemma {:induction false} BaseListing(bucket: string)
    requires bucket != ""
    ensures ListingWritten(BASE_S3_ACCESS_POLICY, bucket)
  {
    BaseEncodesNothing();
    EncodedDocument(BASE_S3_ACCESS_POLICY, map[]);
    BaseListedUnder(bucket, ListingSids(bucket));
    hide BASE_S3_ACCESS_POLICY, Stored, Plain, ListedUnder, ListingSids, WrittenStmt, Lookup;
    forall op: Operator
      ensures WrittenStmt(op, Lookup(BASE_S3_ACCESS_POLICY, ListingSid(op, bucket)), Arn(bucket))
    {
      SidRoundTrip(if op.Equals? then ListFolder else ListSubFolders, bucket);
      BaseDocument(ListingSid(op, bucket));
      BlankWritten(op, ListingSid(op, bucket), Arn(bucket));
    }
  }

  lemma {:induction false} BlankWritten(op: Operator, sid: string, bucketArn: string)
    ensures WrittenStmt(op, Blank(sid), bucketArn)
  {
  }

  lemma {:induction false} BaseListedUnder(bucket: string, sids: set<string>)
    ensures ListedUnder(BASE_S3_ACCESS_POLICY, bucket, sids)
  {
    forall sid
      ensures !Lists(Lookup(BASE_S3_ACCESS_POLICY, sid), bucket)
    {
      UserBucketsInert(LIST_BUCKET);
      BlankListsNothing(sid, bucket);
    }
  }

  // ---------------------------------------------------------------- sibling folders

  lemma {:induction false} SiblingInside(x: string, sibling: string, folder: string)
    requires ValidBucket(folder) && ValidBucket(sibling)
    requires InFolder(x, sibling) && StartsWith(x, folder)
    ensures StartsWith(sibling, folder)
  {
    assert forall i :: 0 <= i < |folder| ==> x[i] == folder[i] && NameChar(folder[i]);
    assert |x| > |sibling| ==> x[|sibling|] == (sibling + "/")[|sibling|] == '/';
    assert |folder| <= |sibling|;
    assert sibling == x[..|sibling|];
    assert sibling[..|folder|] == x[..|folder|] == folder;
  }

  /** A pattern that starts with the folder's name matches only what does so too. */
  lemma {:induction false} PatternStarts(pattern: string, prefix: string, folder: string)
    requires FolderPattern(pattern) && ValidBucket(folder)
    requires Glob(pattern, prefix) && StartsWith(pattern, folder)
    ensures StartsWith(prefix, folder)
  {
    var k :| 0 <= k < |pattern| && pattern[k] == '/' && ValidBucket(pattern[..k]);
    var head := pattern[..k + 1];
    assert forall i :: 0 <= i < k ==> head[i] == pattern[..k][i];
    assert Literal(head);
    assert pattern == head + pattern[k + 1..];
    GlobLiteralHead(head, pattern[k + 1..], prefix);
    assert forall i :: 0 <= i < |folder| ==> pattern[i] == folder[i] && NameChar(folder[i]);
    assert |folder| <= k;
    assert prefix[..|folder|] == head[..|folder|] == pattern[..|folder|] == folder;
  }

  lemma {:induction false} AddedUnder(op: Op, which: Operator)
    requires ValidRoot(op.name) && (op.GrantOp? ==> ValidPaths(op.grant.paths))
    ensures AllUnder(AddedPrefixes(op, which), FolderOf(op.name))
    ensures which.Like? ==> forall x :: x in AddedPrefixes(op, which) ==> FolderPattern(x)
  {
    if op.GrantOp? {
      var full := FolderPaths(FolderOf(op.name), op.grant.paths);
      FullPathsInFolder(op.name, op.grant.paths);
      AddPathsApart(which, [], full, FolderOf(op.name));
      StarsAdded(full);
      hide NewPrefixes, FolderPaths, InFolder, FolderPattern, ValidRoot, AllUnder;
      forall x | which.Like? && x in AddedPrefixes(op, which)
        ensures FolderPattern(x)
      {
        StarPattern(FolderOf(op.name), full, x);
      }
    }
  }

  /** An operation on one folder keeps, of the listing of another, what does not start with its name. */
  lemma {:induction false} SiblingKept(d: Document, op: Op, which: Operator, prefix: string)
    requires ValidRoot(op.name) && (op.GrantOp? ==> ValidPaths(op.grant.paths))
    requires ListingWritten(d, BucketOf(op.name)) && prefix != "" && !StartsWith(prefix, FolderOf(op.name))
    ensures var bucket := BucketOf(op.name);
            AllowedBy(which, ListPrefixes(PerformOp(d, op), bucket, which), prefix) <==> AllowedBy(which, ListPrefixes(d, bucket, which), prefix)
  {
    var bucket, folder := BucketOf(op.name), FolderOf(op.name);
    var before, after := ListPrefixes(d, bucket, which), ListPrefixes(PerformOp(d, op), bucket, which);
    assert ValidBucket(folder);
    AddedUnder(op, which);
    hide ValidRoot, ValidPaths, ListPrefixes, PerformOp, Glob, FolderPattern, AddedPrefixes, ValidBucket;
    OwnPrefixes(d, op, which, prefix);
    forall x | which.Like? && x != "" && Glob(x, prefix)
      ensures x in after <==> x in before
    {
      OwnPrefixes(d, op, which, x);
      if x in before {
        WrittenPattern(d, bucket, x);
      }
      if FolderPattern(x) && StartsWith(x, folder) {
        PatternStarts(x, prefix, folder);
      }
    }
    GlobEmpty(prefix);
    hide ListingWritten, AllUnder;
  }

  lemma {:induction false} GlobEmpty(prefix: string)
    ensures Glob("", prefix) <==> prefix == ""
  {
  }

  lemma {:induction false} WrittenPattern(d: Document, bucket: string, x: string)
    requires ListingWritten(d, bucket) && x in ListPrefixes(d, bucket, Like)
    ensures FolderPattern(x)
  {
    assert ReadyStmt(Like, Lookup(d, ListingSid(Like, bucket)), Arn(bucket));
  }

  /** Nothing inside a sibling whose name extends the folder's is listable by the folder's paths. */
  lemma {:induction false} ExtensionNotListable(prefix: string, full: seq<string>, folder: string, sibling: string)
    requires ValidBucket(folder) && ValidBucket(sibling) && sibling != folder && StartsWith(sibling, folder)
    requires InFolder(prefix, sibling)
    requires forall p :: p in full ==> InFolder(p, folder)
    ensures !Listable(prefix, full, folder)
  {
    assert NameChar(sibling[|folder|]) && prefix[|folder|] == sibling[|folder|];
    assert TrailingSlashes(prefix) > 0 ==> prefix[|prefix| - 1] == '/' && |prefix| > |sibling|;
    forall p | p in full
      ensures !AncestorOrSelf(prefix, p, folder)
      ensures TrailingSlashes(prefix) > 0 ==> !AncestorOrSelf(prefix[..|prefix| - 1], p, folder)
      ensures !Glob(p + "/*", prefix)
    {
      assert |p| > |folder| ==> p[|folder|] == (folder + "/")[|folder|] == '/';
      FolderHead(p, folder, prefix);
    }
  }

  lemma {:induction false} FolderHead(p: string, folder: string, prefix: string)
    requires ValidBucket(folder) && InFolder(p, folder)
    requires |prefix| > |folder| && prefix[|folder|] != '/'
    ensures !Glob(p + "/*", prefix)
  {
    PlainLiteral(folder);
    assert Literal(folder + "/");
    var pattern := p + "/*";
    var rest := pattern[|folder| + 1..];
    assert pattern == folder + "/" + rest by {
      assert pattern[|folder|] == '/';
    }
    if Glob(pattern, prefix) {
      GlobLiteralHead(folder + "/", rest, prefix);
    }
  }

  /** What starts with the folder's name, inside a sibling, is not listed any more. */
  lemma {:induction false} ExtensionLost(d: Document, op: Op, sibling: string, prefix: string)
    requires ValidRoot(op.name) && (op.GrantOp? ==> ValidPaths(op.grant.paths))
    requires ListingWritten(d, BucketOf(op.name)) && !ListCovers(d, BucketOf(op.name))
    requires ValidBucket(sibling) && sibling != FolderOf(op.name) && StartsWith(sibling, FolderOf(op.name))
    requires InFolder(prefix, sibling)
    ensures !AllowsListing(PerformOp(d, op), BucketOf(op.name), prefix)
  {
    WrittenReady(d, BucketOf(op.name));
    match op {
      case GrantOp(root, grant) =>
        FullPathsInFolder(root, grant.paths);
        ListingExact(d, root, grant.level, grant.paths, prefix);
        ExtensionNotListable(prefix, FolderPaths(FolderOf(root), grant.paths), FolderOf(root), sibling);
      case RevokeOp(root) =>
        RevokedListsNothing(d, root, prefix);
    }
  }

  /**
   * Granting or revoking one folder leaves the listing of a listed sibling alone exactly when the
   * sibling's name does not start with the folder's.
   */
  lemma {:induction false} SparesSibling(d: Document, op: Op, sibling: string)
    requires ValidRoot(op.name) && (op.GrantOp? ==> ValidPaths(op.grant.paths))
    requires ListingWritten(d, BucketOf(op.name)) && !ListCovers(d, BucketOf(op.name))
    requires ValidBucket(sibling) && sibling != FolderOf(op.name)
    requires exists prefix :: InFolder(prefix, sibling) && AllowsListing(d, BucketOf(op.name), prefix)
    ensures (forall prefix :: InFolder(prefix, sibling) ==>
               (AllowsListing(PerformOp(d, op), BucketOf(op.name), prefix) <==> AllowsListing(d, BucketOf(op.name), prefix)))
       <==> !StartsWith(sibling, FolderOf(op.name))
  {
    hide PerformOp, AllowsListing, ListCovers, ListingWritten, ValidPaths;
    if StartsWith(sibling, FolderOf(op.name)) {
      var prefix :| InFolder(prefix, sibling) && AllowsListing(d, BucketOf(op.name), prefix);
      ExtensionLost(d, op, sibling, prefix);
    } else {
      forall prefix | InFolder(prefix, sibling)
        ensures AllowsListing(PerformOp(d, op), BucketOf(op.name), prefix) <==> AllowsListing(d, BucketOf(op.name), prefix)
      {
        SiblingListing(d, op, sibling, prefix);
      }
    }
  }

  lemma {:induction false} SiblingListing(d: Document, op: Op, sibling: string, prefix: string)
    requires ValidRoot(op.name) && (op.GrantOp? ==> ValidPaths(op.grant.paths))
    requires ListingWritten(d, BucketOf(op.name))
    requires ValidBucket(sibling) && !StartsWith(sibling, FolderOf(op.name)) && InFolder(prefix, sibling)
    ensures AllowsListing(PerformOp(d, op), BucketOf(op.name), prefix) <==> AllowsListing(d, BucketOf(op.name), prefix)
  {
    var bucket, folder := BucketOf(op.name), FolderOf(op.name);
    assert ValidBucket(bucket) && ValidBucket(folder) && bucket != "";
    assert prefix != "";
    if StartsWith(prefix, folder) {
      SiblingInside(prefix, sibling, folder);
    }
    WrittenReady(d, bucket);
    assert ValidName(op.name);
    OpKeepsListing(d, op, bucket);
    ListCoversKept(d, op, bucket);
    hide PerformOp, AllowsListing, ListCovers, ListingWritten, ListingReady, ValidPaths, AllowedBy, ListPrefixes, ValidBucket,
         ValidRoot;
    WrittenListing(d, bucket, prefix);
    WrittenListing(PerformOp(d, op), bucket, prefix);
    forall which: Operator
      ensures AllowedBy(which, ListPrefixes(PerformOp(d, op), bucket, which), prefix) <==> AllowedBy(which, ListPrefixes(d, bucket, which), prefix)
    {
      SiblingKept(d, op, which, prefix);
    }
  }
}
