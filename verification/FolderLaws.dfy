/**
 Laws of folder grants on stored documents: repeating, overriding and undoing them, and what they
 allow. The counterparts for buckets are in GrantLaws.
 */
module FolderLaws {
  import opened Strings
  import opened PolicyDocument
  import opened RoleGrants
  import opened GrantLaws
  import opened GrantRefinement
  import opened FolderListing

  /** Both listing statements of the bucket cover it, or are absent. */
  ghost predicate ListingOwned(d: Document, bucket: string) {
    forall op: Operator :: Owned(Lookup(Load(d), ListingSid(op, bucket)), Arn(bucket))
  }

  ghost predicate ValidFolderGrant(root: string, paths: seq<string>) {
    ValidRoot(root) && ValidPaths(paths)
  }

  // ---------------------------------------------------------------- closed form of a folder grant

  function FolderForm(s: Stmt, root: string, level: Level, paths: seq<string>): (r: Stmt)
    requires HasSlash(root)
    ensures r.sid == s.sid
  {
    var bucket, folder := BucketOf(root), FolderOf(root);
    if s.sid == Name(level) then WithResources(Removed(s, Arn(root)), Objects(root, paths))
    else if s.sid == Name(Other(level)) then Removed(s, Arn(root))
    else if s.sid == Name(RootFolderBucketMeta) then WithResources(Removed(s, Arn(bucket)), [Arn(bucket)])
    else if s.sid == ListingSid(Equals, bucket) then ListingGranted(Equals, s, Arn(bucket), folder, FolderPaths(folder, paths))
    else if s.sid == ListingSid(Like, bucket) then ListingGranted(Like, s, Arn(bucket), folder, FolderPaths(folder, paths))
    else s
  }

  predicate OwnedIfListing(s: Stmt, bucket: string) {
    s.sid == ListingSid(Equals, bucket) || s.sid == ListingSid(Like, bucket) ==> Owned(s, Arn(bucket))
  }

  lemma {:induction false} ListingApart(bucket: string)
    requires bucket != ""
    ensures |ListingSid(Equals, bucket)| == 42 && |ListingSid(Like, bucket)| == 46
    ensures forall b: Base :: |Name(b)| <= 20
  {
  }

  /** The closed form where a listing statement is concerned. */
  lemma {:induction false} GrantedAtListing(op: Operator, s: Stmt, root: string, level: Level, paths: seq<string>)
    requires ValidRoot(root) && s.sid == ListingSid(op, BucketOf(root))
    ensures FolderGranted(s, root, level, paths)
         == WithPaths(op, Added(Apply(RemovePrefix(Arn(BucketOf(root)), FolderOf(root), op), s), Arn(BucketOf(root))),
                      Arn(BucketOf(root)), FolderPaths(FolderOf(root), paths))
  {
    hide Apply, WithPaths, FolderPaths;
    var bucket := BucketOf(root);
    ListingApart(bucket);
    assert s.sid != Name(ReadOnly) && s.sid != Name(ReadWrite) && s.sid != Name(RootFolderBucketMeta);
    assert FolderRevoked(s, root) == Apply(RemovePrefix(Arn(bucket), FolderOf(root), op), s) by {
      FormAtListing(op, s, root, level, paths);
    }
    if op.Equals? {
      assert s.sid == ListingSid(Equals, bucket);
    } else {
      assert s.sid == ListingSid(Like, bucket) && s.sid != ListingSid(Equals, bucket);
    }
  }

  lemma {:induction false} ListingFormGranted(op: Operator, s: Stmt, root: string, level: Level, paths: seq<string>)
    requires ValidFolderGrant(root, paths) && s.sid == ListingSid(op, BucketOf(root)) && Owned(s, Arn(BucketOf(root)))
    ensures FolderGranted(s, root, level, paths) == FolderForm(s, root, level, paths)
  {
    hide FolderGranted, FolderForm, ListingGranted;
    FullPathsInFolder(root, paths);
    GrantedAtListing(op, s, root, level, paths);
    ListingGrantedForm(op, s, Arn(BucketOf(root)), FolderOf(root), FolderPaths(FolderOf(root), paths));
    FormAtListing(op, s, root, level, paths);
  }

  lemma {:induction false} ArnsFormGranted(b: Base, s: Stmt, root: string, level: Level, paths: seq<string>)
    requires ValidFolderGrant(root, paths) && HoldsArns(b) && s.sid == Name(b)
    ensures FolderGranted(s, root, level, paths) == FolderForm(s, root, level, paths)
  {
    hide Apply, WithResources, FolderForm, WithPaths, ListingSid, Name, PathResources, FolderPaths, Objects,
         Removed, Added, Arn;
    FolderObjects(root, paths);
    FormAtArns(b, s, root, level, paths);
    NamesApart(BucketOf(root));
    NothingAdded(Removed(s, ArnAt(b, root)));
    if b.RootFolderBucketMeta? {
      AddedOne(Removed(s, ArnAt(b, root)), ArnAt(b, root));
    }
  }

  lemma {:induction false} FolderGrantedForm(s: Stmt, root: string, level: Level, paths: seq<string>)
    requires ValidFolderGrant(root, paths) && OwnedIfListing(s, BucketOf(root))
    ensures FolderGranted(s, root, level, paths) == FolderForm(s, root, level, paths)
  {
    var bucket := BucketOf(root);
    ListingApart(bucket);
    if s.sid == ListingSid(Equals, bucket) {
      ListingFormGranted(Equals, s, root, level, paths);
    } else if s.sid == ListingSid(Like, bucket) {
      ListingFormGranted(Like, s, root, level, paths);
    } else if s.sid == Name(RootFolderBucketMeta) {
      ArnsFormGranted(RootFolderBucketMeta, s, root, level, paths);
    } else if s.sid == Name(ReadOnly) {
      ArnsFormGranted(ReadOnly, s, root, level, paths);
    } else if s.sid == Name(ReadWrite) {
      ArnsFormGranted(ReadWrite, s, root, level, paths);
    } else {
      FormElsewhere(s, root, level, paths);
    }
  }

  lemma {:induction false} GrantFolderStmt(root: string, level: Level, paths: seq<string>, s: Stmt)
    requires ValidFolderGrant(root, paths) && OwnedIfListing(s, BucketOf(root))
    ensures OnAll(RevokeFolderSteps(root) + GrantFolderSteps(root, level, paths), s) == FolderForm(s, root, level, paths)
  {
    GrantFolderOn(root, level, paths, s);
    FolderGrantedForm(s, root, level, paths);
  }

  lemma {:induction false} OwnedLookup(d: Document, bucket: string, sid: string)
    requires ListingOwned(d, bucket)
    ensures OwnedIfListing(Lookup(Load(d), sid), bucket)
  {
  }

  // ---------------------------------------------------------------- repeating

  lemma {:induction false} FormAtListing(op: Operator, s: Stmt, root: string, level: Level, paths: seq<string>)
    requires ValidRoot(root) && s.sid == ListingSid(op, BucketOf(root))
    ensures FolderForm(s, root, level, paths)
         == ListingGranted(op, s, Arn(BucketOf(root)), FolderOf(root), FolderPaths(FolderOf(root), paths))
    ensures FolderRevoked(s, root) == Apply(RemovePrefix(Arn(BucketOf(root)), FolderOf(root), op), s)
  {
    var bucket := BucketOf(root);
    ListingApart(bucket);
    assert s.sid != Name(level) && s.sid != Name(Other(level)) && s.sid != Name(RootFolderBucketMeta);
    if op.Equals? {
      assert s.sid == ListingSid(Equals, bucket);
    } else {
      assert s.sid == ListingSid(Like, bucket) && s.sid != ListingSid(Equals, bucket);
    }
  }

  lemma {:induction false} ListingTwice(op: Operator, s: Stmt, bucketArn: string, folder: string, paths: seq<string>)
    requires Owned(s, bucketArn) && ValidBucket(folder)
    requires forall p :: p in paths ==> InFolder(p, folder)
    ensures var g := ListingGranted(op, s, bucketArn, folder, paths);
            Norm(g) == g && Owned(g, bucketArn) && ListingGranted(op, g, bucketArn, folder, paths) == g
  {
    ListingRegranted(op, s, bucketArn, folder, paths, paths);
  }

  lemma {:induction false} ListingFormTwice(op: Operator, s: Stmt, root: string, level: Level, paths: seq<string>)
    requires ValidFolderGrant(root, paths) && Owned(s, Arn(BucketOf(root)))
    requires s.sid == ListingSid(op, BucketOf(root))
    ensures var r := Norm(FolderForm(s, root, level, paths));
            Owned(r, Arn(BucketOf(root))) && Norm(FolderForm(r, root, level, paths)) == r
  {
    FullPathsInFolder(root, paths);
    ListingTwice(op, s, Arn(BucketOf(root)), FolderOf(root), FolderPaths(FolderOf(root), paths));
    FormAtListing(op, s, root, level, paths);
    FormAtListing(op, FolderForm(s, root, level, paths), root, level, paths);
  }

  lemma {:induction false} ArnsFormTwice(b: Base, s: Stmt, root: string, level: Level, paths: seq<string>)
    requires ValidFolderGrant(root, paths) && HoldsArns(b) && s.sid == Name(b)
    ensures var r := Norm(FolderForm(s, root, level, paths));
            OwnedIfListing(r, BucketOf(root)) && Norm(FolderForm(r, root, level, paths)) == r
  {
    hide FolderForm, WithResources, Removed, AddedAt;
    FormAtArns(b, s, root, level, paths);
    FormAtArns(b, Norm(FolderForm(s, root, level, paths)), root, level, paths);
    FormTwice(s, ArnAt(b, root), AddedAt(b, root, level, paths));
  }

  lemma {:induction false} FolderFormTwice(s: Stmt, root: string, level: Level, paths: seq<string>)
    requires ValidFolderGrant(root, paths) && OwnedIfListing(s, BucketOf(root))
    ensures var r := Norm(FolderForm(s, root, level, paths));
            OwnedIfListing(r, BucketOf(root)) && Norm(FolderForm(r, root, level, paths)) == r
  {
    hide FolderForm;
    var bucket := BucketOf(root);
    ListingApart(bucket);
    if s.sid == ListingSid(Equals, bucket) {
      ListingFormTwice(Equals, s, root, level, paths);
    } else if s.sid == ListingSid(Like, bucket) {
      ListingFormTwice(Like, s, root, level, paths);
    } else if s.sid == Name(level) {
      ArnsFormTwice(level, s, root, level, paths);
    } else if s.sid == Name(Other(level)) {
      ArnsFormTwice(Other(level), s, root, level, paths);
    } else if s.sid == Name(RootFolderBucketMeta) {
      ArnsFormTwice(RootFolderBucketMeta, s, root, level, paths);
    } else {
      FormElsewhere(s, root, level, paths);
      FormElsewhere(Norm(s), root, level, paths);
    }
  }

  /** Repeating a folder grant leaves the stored document identical, order included. */
  lemma {:induction false} GrantFolderRepeated(d: Document, root: string, level: Level, paths: seq<string>)
    requires Loadable(d)
    requires ValidFolderGrant(root, paths) && ListingOwned(d, BucketOf(root))
    ensures GrantFolder(GrantFolder(d, root, level, paths), root, level, paths) == GrantFolder(d, root, level, paths)
  {
    var steps := RevokeFolderSteps(root) + GrantFolderSteps(root, level, paths);
    forall sid
      ensures var r := Effect(steps, Lookup(Load(d), sid)); Effect(steps, r) == r
    {
      var s := Lookup(Load(d), sid);
      OwnedLookup(d, BucketOf(root), sid);
      FolderFormTwice(s, root, level, paths);
      GrantFolderStmt(root, level, paths, s);
      GrantFolderStmt(root, level, paths, Effect(steps, s));
    }
    RepeatLaw(d, steps);
  }

  // ---------------------------------------------------------------- overriding

  lemma {:induction false} ArnsFormOverridden(b: Base, s: Stmt, root: string, level: Level, paths: seq<string>,
                                              level': Level, paths': seq<string>)
    requires ValidFolderGrant(root, paths) && ValidFolderGrant(root, paths')
    requires HoldsArns(b) && s.sid == Name(b) && PlainStmt(s)
    ensures var r := Norm(FolderForm(s, root, level', paths'));
            Norm(FolderForm(r, root, level, paths)) == Norm(FolderForm(s, root, level, paths))
  {
    hide FolderForm, Removed, Objects;
    var r := Norm(FolderForm(s, root, level', paths'));
    var arn, added, added' := ArnAt(b, root), AddedAt(b, root, level, paths), AddedAt(b, root, level', paths');
    FormAtArns(b, s, root, level', paths');
    FormAtArns(b, s, root, level, paths);
    FormAtArns(b, r, root, level, paths);
    FormOverridden(s, arn, added, added');
  }

  lemma {:induction false} ListingFormOverridden(op: Operator, s: Stmt, root: string, level: Level,
                                                 paths: seq<string>,
                                                 level': Level, paths': seq<string>)
    requires ValidFolderGrant(root, paths) && ValidFolderGrant(root, paths')
    requires s.sid == ListingSid(op, BucketOf(root)) && Owned(s, Arn(BucketOf(root)))
    ensures var r := Norm(FolderForm(s, root, level', paths'));
            && Owned(r, Arn(BucketOf(root)))
            && Norm(FolderForm(r, root, level, paths)) == Norm(FolderForm(s, root, level, paths))
  {
    hide FolderForm, ListingGranted;
    var bucketArn, folder := Arn(BucketOf(root)), FolderOf(root);
    FullPathsInFolder(root, paths');
    FormAtListing(op, s, root, level', paths');
    FormAtListing(op, s, root, level, paths);
    ListingTwice(op, s, bucketArn, folder, FolderPaths(folder, paths'));
    FormAtListing(op, FolderForm(s, root, level', paths'), root, level, paths);
    ListingRegranted(op, s, bucketArn, folder, FolderPaths(folder, paths), FolderPaths(folder, paths'));
  }

  lemma {:induction false} FolderFormOverridden(s: Stmt, root: string, level: Level, paths: seq<string>,
                                                level': Level, paths': seq<string>)
    requires ValidFolderGrant(root, paths) && ValidFolderGrant(root, paths') && OwnedIfListing(s, BucketOf(root))
    requires Listed(s.sid) || s.sid == Name(RootFolderBucketMeta) ==> PlainStmt(s)
    ensures var r := Norm(FolderForm(s, root, level', paths'));
            && OwnedIfListing(r, BucketOf(root))
            && Norm(FolderForm(r, root, level, paths)) == Norm(FolderForm(s, root, level, paths))
  {
    var bucket := BucketOf(root);
    ListingApart(bucket);
    if s.sid == ListingSid(Equals, bucket) {
      ListingFormOverridden(Equals, s, root, level, paths, level', paths');
    } else if s.sid == ListingSid(Like, bucket) {
      ListingFormOverridden(Like, s, root, level, paths, level', paths');
    } else if s.sid == Name(ReadOnly) {
      ArnsFormOverridden(ReadOnly, s, root, level, paths, level', paths');
    } else if s.sid == Name(ReadWrite) {
      ArnsFormOverridden(ReadWrite, s, root, level, paths, level', paths');
    } else if s.sid == Name(RootFolderBucketMeta) {
      ArnsFormOverridden(RootFolderBucketMeta, s, root, level, paths, level', paths');
    } else {
      FormElsewhere(s, root, level', paths');
      FormElsewhere(s, root, level, paths);
      FormElsewhere(Norm(s), root, level, paths);
    }
  }

  lemma {:induction false} FormElsewhere(s: Stmt, root: string, level: Level, paths: seq<string>)
    requires HasSlash(root)
    requires s.sid != ListingSid(Equals, BucketOf(root)) && s.sid != ListingSid(Like, BucketOf(root))
    requires s.sid != Name(ReadOnly) && s.sid != Name(ReadWrite) && s.sid != Name(RootFolderBucketMeta)
    ensures FolderForm(s, root, level, paths) == s
    ensures FolderGranted(s, root, level, paths) == s
  {
  }

  lemma {:induction false} PlainStatements(d: Document, sid: string)
    requires Plain(d)
    ensures Listed(sid) || sid == Name(RootFolderBucketMeta) ==> PlainStmt(Lookup(d, sid))
    ensures Load(d) == d && Loadable(d)
  {
    PlainLookup(d, ReadOnly);
    PlainLookup(d, ReadWrite);
    PlainLookup(d, List);
    PlainLookup(d, RootFolderBucketMeta);
  }

  /** The last folder grant decides, under every Sid: objects, listing prefixes and bucket metadata. */
  lemma {:induction false} GrantFolderOverrides(d: Document, root: string, level: Level, paths: seq<string>,
                                                level': Level, paths': seq<string>, sid: string)
    requires Plain(d)
    requires ValidFolderGrant(root, paths) && ValidFolderGrant(root, paths') && ListingOwned(d, BucketOf(root))
    ensures Lookup(GrantFolder(GrantFolder(d, root, level', paths'), root, level, paths), sid)
         == Lookup(GrantFolder(d, root, level, paths), sid)
  {
    hide FolderForm, PlainStmt, Plain, Lookup, Load, Loadable, Owned, Norm, OnAll, RevokeFolderSteps,
         GrantFolderSteps;
    var first := RevokeFolderSteps(root) + GrantFolderSteps(root, level', paths');
    var second := RevokeFolderSteps(root) + GrantFolderSteps(root, level, paths);
    PlainStatements(d, sid);
    var s := Lookup(d, sid);
    OwnedLookup(d, BucketOf(root), sid);
    FolderFormOverridden(s, root, level, paths, level', paths');
    GrantFolderStmt(root, level', paths', s);
    GrantFolderStmt(root, level, paths, Effect(first, s));
    GrantFolderStmt(root, level, paths, s);
    OverrideStatement(d, first, second, sid);
  }

  // ---------------------------------------------------------------- undoing

  /**
   * A listing statement that a folder grant and its revoke leave alone: an absent one, or one that
   * covers the bucket, lists something of other folders and nothing that starts with this name.
   */
  predicate ListingSpared(op: Operator, s: Stmt, bucketArn: string, folder: string) {
    || !Live(s)
    || (&& bucketArn in Items(s.resource)
        && Prefixes(s.condition, op).Some?
        && s.condition == Listing(op, Prefixes(s.condition, op).value)
        && NoneUnder(Prefixes(s.condition, op).value, folder)
        && !NoPrefixesLeft(Prefixes(s.condition, op).value))
  }

  ghost predicate NoFolderTrace(d: Document, root: string)
    requires HasSlash(root)
  {
    var bucket, folder := BucketOf(root), FolderOf(root);
    && NoneOf(Res(d, Name(ReadOnly)), Arn(root))
    && NoneOf(Res(d, Name(ReadWrite)), Arn(root))
    && NoneOf(Res(d, Name(RootFolderBucketMeta)), Arn(bucket))
    && forall op: Operator :: ListingSpared(op, Lookup(d, ListingSid(op, bucket)), Arn(bucket), folder)
  }

  lemma {:induction false} ListingSparedUndone(op: Operator, s: Stmt, bucketArn: string, folder: string,
                                               paths: seq<string>)
    requires s == Norm(s) && Owned(s, bucketArn)
    requires ValidBucket(folder) && paths != []
    requires forall p :: p in paths ==> InFolder(p, folder)
    ensures var g := ListingGranted(op, s, bucketArn, folder, paths);
            && Live(g) && Norm(g) == g
            && (Norm(Apply(RemovePrefix(bucketArn, folder, op), g)) == s <==> ListingSpared(op, s, bucketArn, folder))
  {
    ListingRegranted(op, s, bucketArn, folder, paths, paths);
    ListingUndone(op, s, bucketArn, folder, paths);
    InitialNotUnder(op, folder);
    var kept := Kept(op, s, folder);
    match Prefixes(s.condition, op)
    case None =>
    case Some(ps) =>
      if NoneUnder(ps, folder) {
        FilterAll(NotUnder(folder), ps);
      }
      if kept == ps {
        FilterSame(NotUnder(folder), ps);
      }
  }

  /** A statement that held other buckets only keeps the bucket's ARN after the revoke. */
  lemma {:induction false} ListingUnownedChanged(op: Operator, s: Stmt, bucketArn: string, folder: string,
                                                 paths: seq<string>)
    requires s == Norm(s) && !Owned(s, bucketArn)
    ensures var g := WithPaths(op, Added(Apply(RemovePrefix(bucketArn, folder, op), s), bucketArn), bucketArn, paths);
            && Norm(Apply(RemovePrefix(bucketArn, folder, op), Norm(g))) != s
            && !ListingSpared(op, s, bucketArn, folder)
  {
    var a := Added(Apply(RemovePrefix(bucketArn, folder, op), s), bucketArn);
    WithPathsListing(op, a, bucketArn, paths);
  }

  /** Grant, put, load, revoke, put: what becomes of one listing statement. */
  lemma {:induction false} ListingRoundTrip(op: Operator, d: Document, root: string, level: Level, paths: seq<string>)
    requires Stored(d)
    requires ValidFolderGrant(root, paths)
    ensures var first := RevokeFolderSteps(root) + GrantFolderSteps(root, level, paths);
            var s := Lookup(d, ListingSid(op, BucketOf(root)));
            && (Effect(RevokeFolderSteps(root), Effect(first, s)) == s
                <==> ListingSpared(op, s, Arn(BucketOf(root)), FolderOf(root)))
            && (ListingSpared(op, s, Arn(BucketOf(root)), FolderOf(root)) ==> Live(OnAll(first, s)))
  {
    hide FolderGranted, FolderRevoked, Apply, ListingGranted, ListingSpared, Owned, Lookup, Stored, OnAll, Norm;
    var bucket, folder := BucketOf(root), FolderOf(root);
    var full := FolderPaths(folder, paths);
    var s := Lookup(d, ListingSid(op, bucket));
    LookupNorm(d, ListingSid(op, bucket));
    GrantFolderOn(root, level, paths, s);
    var g := FolderGranted(s, root, level, paths);
    GrantedAtListing(op, s, root, level, paths);
    RevokeFolderOn(root, Norm(g));
    FormAtListing(op, Norm(g), root, level, paths);
    FullPathsInFolder(root, paths);
    if Owned(s, Arn(bucket)) {
      ListingGrantedForm(op, s, Arn(bucket), folder, full);
      ListingSparedUndone(op, s, Arn(bucket), folder, full);
    } else {
      ListingUnownedChanged(op, s, Arn(bucket), folder, full);
    }
  }

  /** The ARN that folder grants and revokes are about in a statement of ARNs, and what they add. */
  function ArnAt(b: Base, root: string): string {
    if b.RootFolderBucketMeta? then Arn(BucketOf(root)) else Arn(root)
  }

  function AddedAt(b: Base, root: string, level: Level, paths: seq<string>): seq<string> {
    if b.RootFolderBucketMeta? then [Arn(BucketOf(root))] else if b == level then Objects(root, paths) else []
  }

  predicate HoldsArns(b: Base) {
    b.ReadOnly? || b.ReadWrite? || b.RootFolderBucketMeta?
  }

  lemma {:induction false} AddedArePart(b: Base, root: string, level: Level, paths: seq<string>)
    requires ValidPaths(paths)
    ensures forall r :: r in AddedAt(b, root, level, paths) ==> PartOf(r, ArnAt(b, root))
  {
    ObjectsArePart(root, paths);
  }

  lemma {:induction false} RevokedAtArns(b: Base, s: Stmt, root: string)
    requires ValidRoot(root) && HoldsArns(b) && s.sid == Name(b)
    ensures FolderRevoked(s, root) == Removed(s, ArnAt(b, root))
    ensures OwnedIfListing(s, BucketOf(root))
  {
    hide Removed, Apply, Owned, Arn;
    NamesApart(BucketOf(root));
  }

  lemma {:induction false} FormAtArns(b: Base, s: Stmt, root: string, level: Level, paths: seq<string>)
    requires ValidFolderGrant(root, paths) && HoldsArns(b) && s.sid == Name(b)
    ensures FolderForm(s, root, level, paths) == WithResources(Removed(s, ArnAt(b, root)), AddedAt(b, root, level, paths))
    ensures FolderRevoked(s, root) == Removed(s, ArnAt(b, root))
    ensures OwnedIfListing(s, BucketOf(root))
    ensures forall r :: r in AddedAt(b, root, level, paths) ==> PartOf(r, ArnAt(b, root))
  {
    hide Removed, Objects, ListingGranted, Apply, PartOf, Owned, Arn, WithResources, ListingSid, FolderRevoked,
         OwnedIfListing, FolderPaths;
    NamesApart(BucketOf(root));
    AddedArePart(b, root, level, paths);
    RevokedAtArns(b, s, root);
    NothingAdded(Removed(s, Arn(root)));
  }

  /** The same for the statements that hold ARNs. */
  lemma {:induction false} ArnsRoundTrip(b: Base, d: Document, root: string, level: Level, paths: seq<string>)
    requires Stored(d)
    requires ValidFolderGrant(root, paths) && HoldsArns(b)
    ensures var first := RevokeFolderSteps(root) + GrantFolderSteps(root, level, paths);
            var s := Lookup(d, Name(b));
            && (Effect(RevokeFolderSteps(root), Effect(first, s)) == s <==> NoneOf(Items(s.resource), ArnAt(b, root)))
            && (NoneOf(Items(s.resource), ArnAt(b, root)) && Live(s) ==> Live(OnAll(first, s)))
  {
    var s := Lookup(d, Name(b));
    SidRoundTrip(b, "");
    LoadedLookup(d, Name(b));
    LookupNorm(d, Name(b));
    FormAtArns(b, s, root, level, paths);
    GrantFolderStmt(root, level, paths, s);
    var g := Norm(WithResources(Removed(s, ArnAt(b, root)), AddedAt(b, root, level, paths)));
    RevokeFolderOn(root, g);
    FormAtArns(b, g, root, level, paths);
    ArnsUndone(s, ArnAt(b, root), AddedAt(b, root, level, paths));
  }

  lemma {:induction false} OthersUntouched(s: Stmt, root: string, level: Level, paths: seq<string>)
    requires ValidRoot(root)
    requires s.sid != Name(ReadOnly) && s.sid != Name(ReadWrite) && s.sid != Name(RootFolderBucketMeta)
    requires forall op: Operator :: s.sid != ListingSid(op, BucketOf(root))
    ensures OnAll(RevokeFolderSteps(root) + GrantFolderSteps(root, level, paths), s) == s
    ensures OnAll(RevokeFolderSteps(root), s) == s
  {
    GrantFolderOn(root, level, paths, s);
    RevokeFolderOn(root, s);
    assert s.sid != ListingSid(Equals, BucketOf(root)) && s.sid != ListingSid(Like, BucketOf(root));
  }

  lemma {:induction false} TracedUnlessUndone(d: Document, root: string, level: Level, paths: seq<string>)
    requires Stored(d)
    requires ValidFolderGrant(root, paths)
    requires RevokeFolder(GrantFolder(d, root, level, paths), root) == d
    ensures NoFolderTrace(d, root)
  {
    var first, second := RevokeFolderSteps(root) + GrantFolderSteps(root, level, paths), RevokeFolderSteps(root);
    forall b: Base | HoldsArns(b)
      ensures NoneOf(Res(d, Name(b)), ArnAt(b, root))
    {
      UndoneStatement(d, first, second, Name(b));
      ArnsRoundTrip(b, d, root, level, paths);
    }
    assert HoldsArns(ReadOnly) && HoldsArns(ReadWrite) && HoldsArns(RootFolderBucketMeta);
    forall op: Operator
      ensures ListingSpared(op, Lookup(d, ListingSid(op, BucketOf(root))), Arn(BucketOf(root)), FolderOf(root))
    {
      UndoneStatement(d, first, second, ListingSid(op, BucketOf(root)));
      ListingRoundTrip(op, d, root, level, paths);
    }
  }

  /**
   * Revoking undoes a folder grant, statement by statement and in order, exactly on the documents
   * without object resources of the folder, without metadata access to its bucket, and whose two
   * listing statements for the bucket are absent or spared.
   */
  lemma {:induction false} RevokeUndoesGrantFolder(d: Document, root: string, level: Level, paths: seq<string>)
    requires Stored(d)
    requires ValidFolderGrant(root, paths)
    ensures RevokeFolder(GrantFolder(d, root, level, paths), root) == d <==> NoFolderTrace(d, root)
  {
    var first, second := RevokeFolderSteps(root) + GrantFolderSteps(root, level, paths), RevokeFolderSteps(root);
    if NoFolderTrace(d, root) {
      forall sid
        ensures Effect(second, Effect(first, Lookup(d, sid))) == Lookup(d, sid)
        ensures HasSid(d, sid) ==> Live(OnAll(first, Lookup(d, sid)))
      {
        UndoneUnlessTraced(d, root, level, paths, sid);
      }
      UndoLaw(d, first, second);
    }
    if RevokeFolder(GrantFolder(d, root, level, paths), root) == d {
      TracedUnlessUndone(d, root, level, paths);
    }
  }

  lemma {:induction false} UndoneUnlessTraced(d: Document, root: string, level: Level, paths: seq<string>,
                                              sid: string)
    requires Stored(d)
    requires ValidFolderGrant(root, paths) && NoFolderTrace(d, root)
    ensures var first, s := RevokeFolderSteps(root) + GrantFolderSteps(root, level, paths), Lookup(d, sid);
            && Effect(RevokeFolderSteps(root), Effect(first, s)) == s
            && (HasSid(d, sid) ==> Live(OnAll(first, s)))
  {
    StoredPresence(d, sid);
    LookupNorm(d, sid);
    if sid == Name(ReadOnly) {
      ArnsRoundTrip(ReadOnly, d, root, level, paths);
    } else if sid == Name(ReadWrite) {
      ArnsRoundTrip(ReadWrite, d, root, level, paths);
    } else if sid == Name(RootFolderBucketMeta) {
      ArnsRoundTrip(RootFolderBucketMeta, d, root, level, paths);
    } else if sid == ListingSid(Equals, BucketOf(root)) {
      ListingRoundTrip(Equals, d, root, level, paths);
    } else if sid == ListingSid(Like, BucketOf(root)) {
      ListingRoundTrip(Like, d, root, level, paths);
    } else {
      OthersUntouched(Lookup(d, sid), root, level, paths);
    }
  }

  // ---------------------------------------------------------------- metadata of the root bucket

  /**
   * A folder grant gives access to its bucket's metadata; a folder revoke takes it away, also when
   * other folders of the bucket stay granted. Other buckets keep theirs.
   */
  lemma {:induction false} MetadataAfter(d: Document, root: string, level: Level, paths: seq<string>)
    requires Loadable(d)
    requires ValidFolderGrant(root, paths)
    ensures var before, arn := Res(d, Name(RootFolderBucketMeta)), Arn(BucketOf(root));
            && Res(GrantFolder(d, root, level, paths), Name(RootFolderBucketMeta)) == Filter(NotPartOf(arn), before) + [arn]
            && Res(RevokeFolder(d, root), Name(RootFolderBucketMeta)) == Filter(NotPartOf(arn), before)
  {
    var sid, arn := Name(RootFolderBucketMeta), Arn(BucketOf(root));
    var s := Lookup(Load(d), sid);
    FormAtArns(RootFolderBucketMeta, s, root, level, paths);
    GrantFolderStmt(root, level, paths, s);
    RevokeFolderOn(root, s);
    LoadLookup(d, sid);
    hide FolderForm, FolderRevoked, OnAll, RevokeFolderSteps, GrantFolderSteps, Loadable, Owned, Perform, PartOf;
    PerformedItems(d, RevokeFolderSteps(root) + GrantFolderSteps(root, level, paths), sid);
    PerformedItems(d, RevokeFolderSteps(root), sid);
    ReplacedItems(s, arn);
  }

  lemma {:induction false} PerformedItems(d: Document, steps: seq<Step>, sid: string)
    requires Loadable(d)
    ensures Res(Perform(d, steps), sid) == Items(OnAll(steps, Lookup(Load(d), sid)).resource)
    ensures Items(Lookup(Load(d), sid).resource) == Res(d, sid)
  {
    PerformLookup(d, steps, sid);
    NormItems(OnAll(steps, Lookup(Load(d), sid)));
    LoadLookup(d, sid);
  }

  lemma {:induction false} ReplacedItems(s: Stmt, arn: string)
    ensures Items(Removed(s, arn).resource) == Filter(NotPartOf(arn), Items(s.resource))
    ensures Items(WithResources(Removed(s, arn), [arn]).resource) == Filter(NotPartOf(arn), Items(s.resource)) + [arn]
  {
    var left := Filter(NotPartOf(arn), Items(s.resource));
    assert [arn][..0] == [];
    assert AddAll(left, []) == left && arn !in left;
    assert AddAll(left, [arn]) == AddOne(left, arn);
  }

  /** The three listing edits leave a statement alone whose resources do not have the bucket. */
  lemma {:induction false} UnownedUntouched(s: Stmt, bucketArn: string, folder: string, op: Operator)
    requires bucketArn !in Items(s.resource)
    ensures Apply(RemovePrefix(bucketArn, folder, op), s) == s
    ensures Apply(AddFolder(bucketArn, folder), s) == s && Apply(AddSubFolders(bucketArn, folder), s) == s
  {
  }

  /** So a folder revoke does nothing to a listing statement that another bucket holds under the same Sid. */
  lemma {:induction false} RevokeSparesUnowned(d: Document, root: string, op: Operator)
    requires Loadable(d) && ValidRoot(root)
    requires Arn(BucketOf(root)) !in Res(d, ListingSid(op, BucketOf(root)))
    ensures Lookup(RevokeFolder(d, root), ListingSid(op, BucketOf(root))) == Norm(Lookup(Load(d), ListingSid(op, BucketOf(root))))
  {
    var sid := ListingSid(op, BucketOf(root));
    var s := Lookup(Load(d), sid);
    PerformLookup(d, RevokeFolderSteps(root), sid);
    RevokeFolderOn(root, s);
    FormAtListing(op, s, root, ReadOnly, []);
    LoadLookup(d, sid);
    UnownedUntouched(s, Arn(BucketOf(root)), FolderOf(root), op);
  }
}
