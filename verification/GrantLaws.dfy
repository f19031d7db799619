/**
 Laws of whole role operations on stored documents: repeating a grant changes nothing, the last
 grant decides, and a revoke undoes a grant exactly when the document mentioned nothing of it before.
 */
module GrantLaws {
  import opened Strings
  import opened PolicyDocument
  import opened RoleGrants

  // ---------------------------------------------------------------- laws for any steps

  /** What is left of a statement once the document has been put and loaded again. */
  function Norm(s: Stmt): (r: Stmt)
    ensures r.sid == s.sid
  {
    if Live(s) then s else Blank(s.sid)
  }

  /** One operation, seen from one statement. */
  function Effect(steps: seq<Step>, s: Stmt): (r: Stmt)
    ensures r.sid == s.sid
  {
    Norm(OnAll(steps, s))
  }

  lemma {:induction false} PerformLookup(d: Document, steps: seq<Step>, sid: string)
    requires Loadable(d)
    ensures Stored(Perform(d, steps))
    ensures Lookup(Perform(d, steps), sid) == Effect(steps, Lookup(Load(d), sid))
  {
    LoadLoaded(d);
    ExecLoaded(Load(d), steps);
    PutStored(Exec(Load(d), steps));
    PutLookup(Exec(Load(d), steps), sid);
    ExecLookup(Load(d), steps, sid);
  }

  lemma {:induction false} PerformStored(d: Document, steps: seq<Step>)
    requires Loadable(d)
    ensures Stored(Perform(d, steps))
  {
    PerformLookup(d, steps, "");
  }

  /** Repeating an operation changes nothing when it changes nothing in any one statement. */
  lemma {:induction false} RepeatLaw(d: Document, steps: seq<Step>)
    requires Loadable(d)
    requires forall sid :: var r := Effect(steps, Lookup(Load(d), sid)); Effect(steps, r) == r
    ensures Perform(Perform(d, steps), steps) == Perform(d, steps)
  {
    var d1 := Perform(d, steps);
    PerformStored(d, steps);
    ExecShape(d1, steps);
    var x := Exec(d1, steps);
    forall sid
      ensures Norm(Lookup(x, sid)) == Lookup(d1, sid)
      ensures HasSid(d1, sid) <==> Live(Lookup(d1, sid))
    {
      PerformLookup(d, steps, sid);
      ExecLookup(d1, steps, sid);
      StoredPresence(d1, sid);
    }
    PutOfExtension(d1, x);
  }

  lemma {:induction false} SidsPrefix(d: Document, x: Document, rest: Document)
    requires Sids(d) <= Sids(x)
    ensures Sids(d) <= Sids(x[..|d|] + rest)
  {
  }

  lemma {:induction false} PutKeepsOrder(d: Document, x: Document)
    requires Distinct(x)
    requires Sids(d) <= Sids(x)
    requires forall sid :: HasSid(d, sid) ==> Live(Lookup(x, sid))
    ensures Sids(d) <= Sids(Put(x))
  {
    var a, b := x[..|d|], x[|d|..];
    forall s | s in a
      ensures Live(s)
    {
      var i :| 0 <= i < |a| && a[i] == s;
      assert Sids(d)[i] == Sids(x)[i] == s.sid;
      LookupAt(x, i);
    }
    assert x == a + b;
    FilterAppend(IsLive(), a, b);
    FilterAll(IsLive(), a);
    assert Put(x) == a + Put(b);
    SidsPrefix(d, x, Put(b));
  }

  /** Two operations that leave every statement as it was leave the document as it was. */
  lemma {:induction false} UndoLaw(d: Document, first: seq<Step>, second: seq<Step>)
    requires Stored(d)
    requires forall sid :: Effect(second, Effect(first, Lookup(d, sid))) == Lookup(d, sid)
    requires forall sid :: HasSid(d, sid) ==> Live(OnAll(first, Lookup(d, sid)))
    ensures Perform(Perform(d, first), second) == d
  {
    var d1 := Perform(d, first);
    PerformStored(d, first);
    ExecShape(d, first);
    ExecLoaded(d, first);
    forall sid | HasSid(d, sid)
      ensures Live(Lookup(Exec(d, first), sid))
    {
      ExecLookup(d, first, sid);
    }
    PutKeepsOrder(d, Exec(d, first));
    ExecShape(d1, second);
    var x := Exec(d1, second);
    forall sid
      ensures Norm(Lookup(x, sid)) == Lookup(d, sid)
      ensures HasSid(d, sid) <==> Live(Lookup(d, sid))
    {
      PerformLookup(d, first, sid);
      ExecLookup(d1, second, sid);
      StoredPresence(d, sid);
    }
    PutOfExtension(d, x);
  }

  /** The converse: if the document comes back, so does every statement. */
  lemma {:induction false} UndoneStatement(d: Document, first: seq<Step>, second: seq<Step>, sid: string)
    requires Stored(d)
    requires Perform(Perform(d, first), second) == d
    ensures Effect(second, Effect(first, Lookup(d, sid))) == Lookup(d, sid)
  {
    PerformStored(d, first);
    PerformLookup(d, first, sid);
    PerformLookup(Perform(d, first), second, sid);
  }

  lemma {:induction false} OverrideStatement(d: Document, first: seq<Step>, second: seq<Step>, sid: string)
    requires Loadable(d)
    requires var s := Lookup(Load(d), sid); Effect(second, Effect(first, s)) == Effect(second, s)
    ensures Lookup(Perform(Perform(d, first), second), sid) == Lookup(Perform(d, second), sid)
  {
    PerformStored(d, first);
    PerformLookup(d, first, sid);
    PerformLookup(Perform(d, first), second, sid);
    PerformLookup(d, second, sid);
  }

  // ---------------------------------------------------------------- removing and adding resources

  lemma {:induction false} StarsWithin(arn: string, arns: seq<string>)
    requires Within(arn, arns)
    ensures forall r :: r in Stars(arns) ==> PartOf(r, arn)
  {
  }

  /** Removing what was added gives what removing alone gives. */
  lemma {:induction false} RemovedWithResources(s: Stmt, arn: string, rs: seq<string>)
    requires forall r :: r in rs ==> PartOf(r, arn)
    ensures Items(Removed(WithResources(Removed(s, arn), rs), arn).resource) == Items(Removed(s, arn).resource)
  {
    var left := Items(Removed(s, arn).resource);
    FilterAddAll(NotPartOf(arn), left, rs);
    FilterAll(NotPartOf(arn), left);
  }

  lemma {:induction false} RemovedTwice(s: Stmt, arn: string)
    ensures Removed(Removed(s, arn), arn) == Removed(s, arn)
  {
    FilterAll(NotPartOf(arn), Items(Removed(s, arn).resource));
  }

  lemma {:induction false} RemovedUntouched(s: Stmt, arn: string)
    requires forall r :: r in Items(s.resource) ==> !PartOf(r, arn)
    ensures Removed(s, arn) == s
  {
    FilterAll(NotPartOf(arn), Items(s.resource));
  }

  // ---------------------------------------------------------------- bucket grants

  /** The document gives no access to the bucket: nothing of it in the three statements. */
  ghost predicate NoTrace(d: Document, arn: string) {
    forall b: Base :: (b.ReadOnly? || b.ReadWrite? || b.List?) ==> NoneOf(Res(d, Name(b)), arn)
  }

  predicate NoneOf(rs: seq<string>, arn: string) {
    forall r :: r in rs ==> !PartOf(r, arn)
  }

  /** The three statements that bucket grants and revokes are about. */
  predicate Listed(sid: string) {
    sid == Name(ReadOnly) || sid == Name(ReadWrite) || sid == Name(List)
  }

  /** What a bucket grant adds to one of them, after removing what is part of the ARN. */
  function AddedByGrant(sid: string, arn: string, level: Level, pathArns: seq<string>): seq<string> {
    if sid == Name(level) then Stars(PathArns(arn, pathArns)) else if sid == Name(List) then [arn] else []
  }

  lemma {:induction false} GrantedForm(s: Stmt, arn: string, level: Level, pathArns: seq<string>)
    requires ValidBucketGrant(arn, pathArns) && Listed(s.sid)
    ensures BucketGranted(s, arn, level, pathArns) == WithResources(Removed(s, arn), AddedByGrant(s.sid, arn, level, pathArns))
    ensures BucketRevoked(s, arn) == Removed(s, arn)
    ensures forall r :: r in AddedByGrant(s.sid, arn, level, pathArns) ==> PartOf(r, arn)
  {
    hide Removed, Added, Stars;
    StarsWithin(arn, PathArns(arn, pathArns));
    AddedOne(Removed(s, arn), arn);
  }

  lemma {:induction false} GrantedElsewhere(s: Stmt, arn: string, level: Level, pathArns: seq<string>)
    requires !Listed(s.sid)
    ensures BucketGranted(s, arn, level, pathArns) == s && BucketRevoked(s, arn) == s
  {
  }

  ghost predicate ValidBucketGrant(arn: string, pathArns: seq<string>) {
    && arn != ""
    && Within(arn, PathArns(arn, pathArns))
  }

  /** Repeating a bucket grant leaves the stored document identical, order included. */
  lemma {:induction false} GrantBucketRepeated(d: Document, arn: string, level: Level, pathArns: seq<string>)
    requires Loadable(d)
    requires ValidBucketGrant(arn, pathArns)
    ensures GrantBucket(GrantBucket(d, arn, level, pathArns), arn, level, pathArns) == GrantBucket(d, arn, level, pathArns)
  {
    var steps := GrantBucketSteps(arn, level, pathArns);
    forall sid
      ensures var r := Effect(steps, Lookup(Load(d), sid)); Effect(steps, r) == r
    {
      var s := Lookup(Load(d), sid);
      GrantBucketOn(arn, level, pathArns, s);
      GrantBucketOn(arn, level, pathArns, Effect(steps, s));
      BucketGrantedTwice(s, arn, level, pathArns);
    }
    RepeatLaw(d, steps);
  }

  lemma {:induction false} AddedOne(s: Stmt, r: string)
    ensures Added(s, r) == WithResources(s, [r])
  {
    assert AddAll(Items(s.resource), [r][..0]) == Items(s.resource);
  }

  /** Remove and add again: the statement is live, and doing it twice is doing it once. */
  lemma {:induction false} RegrantedTwice(s: Stmt, arn: string, rs: seq<string>)
    requires rs != []
    requires forall r :: r in rs ==> PartOf(r, arn)
    ensures var g := WithResources(Removed(s, arn), rs);
            Live(g) && WithResources(Removed(g, arn), rs) == g
  {
    RemovedWithResources(s, arn, rs);
    assert rs[0] in AddAll(Items(Removed(s, arn).resource), rs);
  }

  lemma {:induction false} RevokedTwice(s: Stmt, arn: string)
    ensures var r := Norm(Removed(s, arn)); Norm(Removed(r, arn)) == r
  {
    RemovedTwice(s, arn);
  }

  /** Revoked or regranted, twice is once. */
  lemma {:induction false} FormTwice(s: Stmt, arn: string, rs: seq<string>)
    requires forall r :: r in rs ==> PartOf(r, arn)
    ensures var r := Norm(WithResources(Removed(s, arn), rs));
            Norm(WithResources(Removed(r, arn), rs)) == r
  {
    if rs == [] {
      RevokedTwice(s, arn);
    } else {
      RegrantedTwice(s, arn, rs);
    }
  }

  lemma {:induction false} BucketGrantedTwice(s: Stmt, arn: string, level: Level, pathArns: seq<string>)
    requires ValidBucketGrant(arn, pathArns)
    ensures var r := Norm(BucketGranted(s, arn, level, pathArns));
            Norm(BucketGranted(r, arn, level, pathArns)) == r
  {
    hide BucketGranted, WithResources, Removed, AddedByGrant;
    if Listed(s.sid) {
      GrantedForm(s, arn, level, pathArns);
      FormTwice(s, arn, AddedByGrant(s.sid, arn, level, pathArns));
      GrantedForm(Norm(BucketGranted(s, arn, level, pathArns)), arn, level, pathArns);
    } else {
      GrantedElsewhere(s, arn, level, pathArns);
      GrantedElsewhere(Norm(s), arn, level, pathArns);
    }
  }

  /** A statement of a managed, unsuffixed Sid as this class writes it. */
  ghost predicate PlainStmt(s: Stmt) {
    && s.condition == NoCondition
    && s.body == Blank(s.sid).body
    && !s.resource.Single?
  }

  /** The statements that hold bucket and object ARNs carry no conditions. */
  ghost predicate Plain(d: Document) {
    && Loaded(d)
    && forall b: Base :: Lookup(d, Name(b)).condition == NoCondition
  }

  lemma {:induction false} PlainLookup(d: Document, b: Base)
    requires Plain(d)
    ensures PlainStmt(Lookup(d, Name(b)))
  {
    SidRoundTrip(b, "");
    LoadedLookup(d, Name(b));
  }

  /** After another grant on the same ARN, a grant finds what it would have found without it. */
  lemma {:induction false} RegrantOverridden(s: Stmt, other: Stmt, arn: string, rs: seq<string>, rs': seq<string>)
    requires PlainStmt(s)
    requires rs != []
    requires forall r :: r in rs' ==> PartOf(r, arn)
    requires other == Norm(WithResources(Removed(s, arn), rs'))
    ensures WithResources(Removed(other, arn), rs) == WithResources(Removed(s, arn), rs)
  {
    RemovedWithResources(s, arn, rs');
  }

  lemma {:induction false} RevokeOverridden(s: Stmt, other: Stmt, arn: string, rs': seq<string>)
    requires PlainStmt(s)
    requires forall r :: r in rs' ==> PartOf(r, arn)
    requires other == Norm(WithResources(Removed(s, arn), rs'))
    ensures Norm(Removed(other, arn)) == Norm(Removed(s, arn))
  {
    RemovedWithResources(s, arn, rs');
  }

  /**
   * The last grant decides: what a second grant leaves under every Sid is what it would have left
   * alone, whatever level and paths the first one had.
   */
  lemma {:induction false} GrantBucketOverrides(d: Document, arn: string, level: Level, pathArns: seq<string>,
                                                level': Level, pathArns': seq<string>, sid: string)
    requires Plain(d)
    requires ValidBucketGrant(arn, pathArns) && ValidBucketGrant(arn, pathArns')
    ensures Lookup(GrantBucket(GrantBucket(d, arn, level', pathArns'), arn, level, pathArns), sid)
         == Lookup(GrantBucket(d, arn, level, pathArns), sid)
  {
    var first, second := GrantBucketSteps(arn, level', pathArns'), GrantBucketSteps(arn, level, pathArns);
    var s := Lookup(d, sid);
    GrantBucketOn(arn, level', pathArns', s);
    GrantBucketOn(arn, level, pathArns, Effect(first, s));
    GrantBucketOn(arn, level, pathArns, s);
    PlainLookup(d, ReadOnly);
    PlainLookup(d, ReadWrite);
    PlainLookup(d, List);
    BucketGrantOverridden(s, arn, level, pathArns, level', pathArns');
    OverrideStatement(d, first, second, sid);
  }

  lemma {:induction false} FormOverridden(s: Stmt, arn: string, rs: seq<string>, rs': seq<string>)
    requires PlainStmt(s)
    requires forall r :: r in rs' ==> PartOf(r, arn)
    ensures Norm(WithResources(Removed(Norm(WithResources(Removed(s, arn), rs')), arn), rs)) == Norm(WithResources(Removed(s, arn), rs))
  {
    if rs == [] {
      RevokeOverridden(s, Norm(WithResources(Removed(s, arn), rs')), arn, rs');
    } else {
      RegrantOverridden(s, Norm(WithResources(Removed(s, arn), rs')), arn, rs, rs');
    }
  }

  lemma {:induction false} BucketGrantOverridden(s: Stmt, arn: string, level: Level, pathArns: seq<string>,
                                                 level': Level, pathArns': seq<string>)
    requires ValidBucketGrant(arn, pathArns) && ValidBucketGrant(arn, pathArns')
    requires Listed(s.sid) ==> PlainStmt(s)
    ensures Norm(BucketGranted(Norm(BucketGranted(s, arn, level', pathArns')), arn, level, pathArns))
         == Norm(BucketGranted(s, arn, level, pathArns))
  {
    hide BucketGranted, WithResources, Removed, AddedByGrant, PlainStmt;
    var other := Norm(BucketGranted(s, arn, level', pathArns'));
    if Listed(s.sid) {
      GrantedForm(s, arn, level', pathArns');
      GrantedForm(s, arn, level, pathArns);
      GrantedForm(other, arn, level, pathArns);
      FormOverridden(s, arn, AddedByGrant(s.sid, arn, level, pathArns), AddedByGrant(s.sid, arn, level', pathArns'));
    } else {
      GrantedElsewhere(s, arn, level', pathArns');
      GrantedElsewhere(s, arn, level, pathArns);
      GrantedElsewhere(other, arn, level, pathArns);
    }
  }

  // ---------------------------------------------------------------- undoing a bucket grant

  lemma {:induction false} RegrantUndone(s: Stmt, arn: string, rs: seq<string>)
    requires NoneOf(Items(s.resource), arn)
    requires s == Norm(s) && !s.resource.Single?
    requires forall r :: r in rs ==> PartOf(r, arn)
    ensures Norm(Removed(Norm(WithResources(Removed(s, arn), rs)), arn)) == s
  {
    RemovedUntouched(s, arn);
    if rs != [] {
      RemovedWithResources(s, arn, rs);
      RegrantedTwice(s, arn, rs);
    }
  }

  lemma {:induction false} NothingLeft(s: Stmt, arn: string)
    ensures NoneOf(Items(Norm(Removed(s, arn)).resource), arn)
  {
  }

  /**
   * Revoking undoes a grant, statement by statement and in order, exactly on those documents that
   * gave no access to the bucket before.
   */
  lemma {:induction false} RevokeUndoesGrantBucket(d: Document, arn: string, level: Level, pathArns: seq<string>)
    requires Stored(d)
    requires ValidBucketGrant(arn, pathArns)
    ensures RevokeBucket(GrantBucket(d, arn, level, pathArns), arn) == d <==> NoTrace(d, arn)
  {
    var first, second := GrantBucketSteps(arn, level, pathArns), RevokeBucketSteps(arn);
    if NoTrace(d, arn) {
      forall sid
        ensures Effect(second, Effect(first, Lookup(d, sid))) == Lookup(d, sid)
        ensures HasSid(d, sid) ==> Live(OnAll(first, Lookup(d, sid)))
      {
        StoredPresence(d, sid);
        LookupNorm(d, sid);
        GrantBucketUndone(d, arn, level, pathArns, sid);
      }
      UndoLaw(d, first, second);
    }
    if RevokeBucket(GrantBucket(d, arn, level, pathArns), arn) == d {
      forall b: Base | b.ReadOnly? || b.ReadWrite? || b.List?
        ensures NoneOf(Res(d, Name(b)), arn)
      {
        UndoneStatement(d, first, second, Name(b));
        var mid := Effect(first, Lookup(d, Name(b)));
        RevokeBucketOn(arn, mid);
        NothingLeft(mid, arn);
      }
    }
  }

  lemma {:induction false} LookupNorm(d: Document, sid: string)
    requires Stored(d)
    ensures Norm(Lookup(d, sid)) == Lookup(d, sid)
  {
    StoredPresence(d, sid);
    if !HasSid(d, sid) {
      LookupAbsent(d, sid);
    }
  }

  lemma {:induction false} ArnsUndone(s: Stmt, arn: string, rs: seq<string>)
    requires s == Norm(s) && !s.resource.Single?
    requires forall r :: r in rs ==> PartOf(r, arn)
    ensures var g := WithResources(Removed(s, arn), rs);
            && (Norm(Removed(Norm(g), arn)) == s <==> NoneOf(Items(s.resource), arn))
            && (NoneOf(Items(s.resource), arn) && Live(s) ==> Live(g))
  {
    var g := WithResources(Removed(s, arn), rs);
    NothingLeft(Norm(g), arn);
    if NoneOf(Items(s.resource), arn) {
      RegrantUndone(s, arn, rs);
      RemovedUntouched(s, arn);
    }
  }

  lemma {:induction false} GrantBucketUndone(d: Document, arn: string, level: Level, pathArns: seq<string>,
                                             sid: string)
    requires Stored(d)
    requires ValidBucketGrant(arn, pathArns)
    requires NoTrace(d, arn)
    ensures var first, s := GrantBucketSteps(arn, level, pathArns), Lookup(d, sid);
            && Effect(RevokeBucketSteps(arn), Effect(first, s)) == s
            && (Live(s) ==> Live(OnAll(first, s)))
  {
    var s := Lookup(d, sid);
    LookupNorm(d, sid);
    GrantBucketOn(arn, level, pathArns, s);
    RevokeBucketOn(arn, Effect(GrantBucketSteps(arn, level, pathArns), s));
    if Listed(sid) {
      ListedNoTrace(d, arn, sid);
      GrantedForm(s, arn, level, pathArns);
      GrantedForm(Norm(BucketGranted(s, arn, level, pathArns)), arn, level, pathArns);
      hide BucketGranted, BucketRevoked, WithResources, Removed, AddedByGrant, Lookup, Stored, OnAll,
           GrantBucketSteps, RevokeBucketSteps;
      ArnsUndone(s, arn, AddedByGrant(sid, arn, level, pathArns));
    } else {
      GrantedElsewhere(s, arn, level, pathArns);
    }
  }

  lemma {:induction false} ListedNoTrace(d: Document, arn: string, sid: string)
    requires Stored(d) && NoTrace(d, arn) && Listed(sid)
    ensures NoneOf(Res(d, sid), arn)
    ensures !Lookup(d, sid).resource.Single?
  {
    LoadedLookup(d, sid);
    SidRoundTrip(ReadOnly, "");
    SidRoundTrip(ReadWrite, "");
    SidRoundTrip(List, "");
  }
}
