/**
 The S3 access policy document as a value: statements, their Sids, the single edits that the
 policy class makes to one statement, loading, and the final clean-up before a document is stored.
 */
module PolicyDocument {
  import opened Options
  import opened Strings

  // ---------------------------------------------------------------- Sids

  /** The statements of BASE_S3_ACCESS_STATEMENT. */
  datatype Base = List | ReadOnly | ReadWrite | ListFolder | ListSubFolders | RootFolderBucketMeta

  function Name(b: Base): (name: string)
    ensures |name| == match b
                      case List => 4
                      case ReadOnly => 8
                      case ReadWrite => 9
                      case ListFolder => 10
                      case ListSubFolders => 14
                      case RootFolderBucketMeta => 20
  {
    match b
    case List => "list"
    case ReadOnly => "readonly"
    case ReadWrite => "readwrite"
    case ListFolder => "listFolder"
    case ListSubFolders => "listSubFolders"
    case RootFolderBucketMeta => "rootFolderBucketMeta"
  }

  const BASES: seq<Base> := [List, ReadOnly, ReadWrite, ListFolder, ListSubFolders, RootFolderBucketMeta]

  /** `sid in base_s3_access_sids`, and which one. */
  function BaseNamed(name: string, bases: seq<Base> := BASES): (b: Option<Base>)
    ensures b.Some? ==> Name(b.value) == name
    ensures b.None? ==> forall x :: x in bases ==> Name(x) != name
  {
    if bases == [] then None
    else if Name(bases[0]) == name then Some(bases[0])
    else BaseNamed(name, bases[1..])
  }

  const SID_SUFFIX_LEN := 32

  /** A hexadecimal MD5 digest is 32 characters long; nothing else about it is used. */
  type Digest = f: string -> string | forall s :: |f(s)| == 32
    witness (s: string) => "00000000000000000000000000000000"

  const MD5: Digest

  function Md5(s: string): (h: string)
    ensures |h| == SID_SUFFIX_LEN
  {
    MD5(s)
  }

  /** The empty suffix stands for Python's None: both give the base Sid itself. */
  function ConstructSid(b: Base, suffix: string): string {
    if suffix == "" then Name(b) else Name(b) + Md5(suffix)
  }

  /** The base statement that loading picks for a Sid: the exact name first, then without 32 characters. */
  function Classify(sid: string): Option<Base> {
    var exact := BaseNamed(sid);
    if exact.Some? then exact
    else if |sid| <= SID_SUFFIX_LEN then None
    else BaseNamed(sid[..|sid| - SID_SUFFIX_LEN])
  }

  predicate Managed(sid: string) {
    Classify(sid).Some?
  }

  lemma {:induction false} BaseNamedName(b: Base)
    ensures BaseNamed(Name(b)) == Some(b)
  {
  }

  /** Loading recovers, from every Sid the class can build, the base and whether it is suffixed. */
  lemma {:induction false} SidRoundTrip(b: Base, suffix: string)
    ensures Classify(ConstructSid(b, suffix)) == Some(b)
    ensures BaseNamed(ConstructSid(b, suffix)).Some? <==> suffix == ""
  {
    BaseNamedName(b);
    if suffix != "" {
      var sid := ConstructSid(b, suffix);
      assert sid[..|sid| - SID_SUFFIX_LEN] == Name(b);
    }
  }

  /** The managed Sids are exactly the six names and each of them with 32 characters more. */
  lemma {:induction false} ClassifyExact(sid: string, b: Base)
    ensures Classify(sid) == Some(b) <==>
              sid == Name(b) || (|sid| == |Name(b)| + 32 && sid[..|Name(b)|] == Name(b))
  {
    BaseNamedName(b);
    if |sid| == |Name(b)| + 32 {
      assert BaseNamed(sid).Some? ==> |Name(BaseNamed(sid).value)| <= 20;
    }
  }

  /** Two Sids agree only for the same base and suffixes that MD5 does not tell apart. */
  lemma {:induction false} SidInjective(b: Base, s: string, c: Base, t: string)
    requires ConstructSid(b, s) == ConstructSid(c, t)
    ensures b == c
    ensures s == "" <==> t == ""
    ensures s != "" ==> Md5(s) == Md5(t)
  {
    SidRoundTrip(b, s);
    SidRoundTrip(c, t);
    if s != "" {
      var sid := ConstructSid(b, s);
      assert sid[|Name(b)|..] == Md5(s);
      assert sid[|Name(c)|..] == Md5(t);
    }
  }

  // ---------------------------------------------------------------- statements

  /** The Effect and Action of a statement: as BASE_S3_ACCESS_STATEMENT has them, or anything else. */
  datatype Body = Standard(base: Base) | Custom(effect: string, actions: seq<string>)

  datatype Resource =
    | Missing                      // no "Resource" key
    | Single(pattern: string)      // a plain string, in statements this class does not manage
    | Many(patterns: seq<string>)

  datatype Condition =
    | NoCondition
    | StringEquals(prefixes: seq<string>, delimiter: seq<string>)
    | StringLike(prefixes: seq<string>)
    | OtherCondition(json: string) // without the operator and key that are asked for

  datatype Stmt = Stmt(sid: string, body: Body, resource: Resource, condition: Condition)

  type Document = seq<Stmt>

  const LIST_ALL := "s3:ListAllMyBuckets"
  const LIST_ACCESS_POINTS := "s3:ListAccessPoints"
  const GET_ACCOUNT_BLOCK := "s3:GetAccountPublicAccessBlock"

  const LIST_USER_BUCKETS: Stmt :=
    Stmt("ListUserBuckets", Custom("Allow", [LIST_ALL, LIST_ACCESS_POINTS, GET_ACCOUNT_BLOCK]), Single("*"), NoCondition)

  const BASE_S3_ACCESS_POLICY: Document := [LIST_USER_BUCKETS]

  /** The resource list as the edits see it. */
  function Items(r: Resource): seq<string> {
    if r.Many? then r.patterns else []
  }

  /** `stmt.get("Resource")` is truthy. */
  predicate Live(s: Stmt) {
    match s.resource
    case Missing => false
    case Single(p) => p != ""
    case Many(ps) => ps != []
  }

  function Blank(sid: string): Stmt {
    Stmt(sid, match Classify(sid) case Some(b) => Standard(b) case None => Custom("", []), Missing, NoCondition)
  }

  // ---------------------------------------------------------------- names and ARNs

  const S3_ARN := "arn:aws:s3:::"

  function Arn(name: string): string {
    S3_ARN + name
  }

  predicate NameChar(c: char) {
    'a' <= c <= 'z' || '0' <= c <= '9' || c == '-' || c == '.'
  }

  /** `_is_arn_part_of_resource`: the resource is the ARN, or goes on with a character no name has. */
  predicate PartOf(resource: string, arn: string) {
    StartsWith(resource, arn) && (|resource| > |arn| ==> !NameChar(resource[|arn|]))
  }

  function NotPartOf(arn: string): string -> bool {
    (r: string) => !PartOf(r, arn)
  }

  function NotUnder(folder: string): string -> bool {
    (prefix: string) => !StartsWith(prefix, folder)
  }

  // ---------------------------------------------------------------- edits of one statement

  datatype Operator = Equals | Like

  datatype Edit =
    | AddResource(arn: string)
    | RemoveResource(arn: string)
    | RemovePrefix(bucketArn: string, folder: string, op: Operator)
    | AddFolder(bucketArn: string, folder: string)
    | AddSubFolders(bucketArn: string, folder: string)

  /** `statement["Condition"][op]["s3:prefix"]`, None for a KeyError. */
  function Prefixes(c: Condition, op: Operator): Option<seq<string>> {
    match op
    case Equals => if c.StringEquals? then Some(c.prefixes) else None
    case Like => if c.StringLike? then Some(c.prefixes) else None
  }

  function WithPrefixes(c: Condition, prefixes: seq<string>): Condition {
    match c
    case StringEquals(_, d) => StringEquals(prefixes, d)
    case StringLike(_) => StringLike(prefixes)
    case _ => c
  }

  predicate NoPrefixesLeft(prefixes: seq<string>) {
    prefixes == [] || prefixes == [""]
  }

  /** The ancestors of a folder path: for "f/a/b" the list "f", "f/a". */
  function Ancestor(folder: string, i: nat): string
    requires i < |Split(folder)|
  {
    Under(Join(Split(folder)[..i]), Split(folder)[i])
  }

  /** The loop of `_add_folder_to_list_folder_prefixes` after its first n rounds. */
  function AddAncestors(prefixes: seq<string>, folder: string, n: nat): seq<string>
    requires n < |Split(folder)|
  {
    if n == 0 then prefixes
    else
      var before := AddAncestors(prefixes, folder, n - 1);
      var path := Ancestor(folder, n - 1);
      if path in before then before else before + [path] + [path + "/"]
  }

  function AddFolderPrefixes(prefixes: seq<string>, folder: string): seq<string> {
    AddOne(AddAncestors(prefixes, folder, |Split(folder)| - 1), folder)
  }

  function Apply(e: Edit, s: Stmt): (r: Stmt)
    ensures r.sid == s.sid && r.body == s.body
  {
    match e
    case AddResource(arn) =>
      s.(resource := Many(AddOne(Items(s.resource), arn)))
    case RemoveResource(arn) =>
      if s.resource.Many? then s.(resource := Many(Filter(NotPartOf(arn), s.resource.patterns))) else s
    case RemovePrefix(bucketArn, folder, op) =>
      if bucketArn !in Items(s.resource) then s
      else
        (match Prefixes(s.condition, op)
         case None => s.(resource := Missing)
         case Some(ps) =>
           var left := Filter(NotUnder(folder), ps);
           s.(condition := WithPrefixes(s.condition, left),
              resource := if NoPrefixesLeft(left) then Missing else s.resource))
    case AddFolder(bucketArn, folder) =>
      if bucketArn !in Items(s.resource) then s
      else
        var ps := (match Prefixes(s.condition, Equals) case Some(ps) => ps case None => [""]);
        s.(condition := StringEquals(AddFolderPrefixes(ps, folder), ["/"]))
    case AddSubFolders(bucketArn, folder) =>
      if bucketArn !in Items(s.resource) then s
      else
        var ps := (match Prefixes(s.condition, Like) case Some(ps) => ps case None => []);
        s.(condition := StringLike(AddOne(ps, folder + "/*")))
  }

  // ---------------------------------------------------------------- documents

  function Sids(d: Document): (r: seq<string>)
    ensures |r| == |d|
    ensures forall i :: 0 <= i < |d| ==> r[i] == d[i].sid
  {
    seq(|d|, i requires 0 <= i < |d| => d[i].sid)
  }

  predicate HasSid(d: Document, sid: string) {
    sid in Sids(d)
  }

  ghost predicate Distinct(d: Document) {
    forall i, j :: 0 <= i < j < |d| ==> d[i].sid != d[j].sid
  }

  /** The statement with the given Sid; a blank one when the document has none. */
  function Lookup(d: Document, sid: string): (s: Stmt)
    ensures s.sid == sid
  {
    if d == [] then Blank(sid)
    else if d[|d| - 1].sid == sid then d[|d| - 1]
    else Lookup(d[..|d| - 1], sid)
  }

  /** The resources a document holds under a Sid. */
  function Res(d: Document, sid: string): seq<string> {
    Items(Lookup(d, sid).resource)
  }

  /** `statement()`: get or build. */
  function Ensure(d: Document, sid: string): Document {
    if HasSid(d, sid) then d else d + [Blank(sid)]
  }

  function Update(d: Document, sid: string, e: Edit): (r: Document)
    ensures |r| == |d|
    ensures forall i :: 0 <= i < |d| ==> r[i] == if d[i].sid == sid then Apply(e, d[i]) else d[i]
  {
    seq(|d|, i requires 0 <= i < |d| => if d[i].sid == sid then Apply(e, d[i]) else d[i])
  }

  /** One edit of the statement with the given base and suffix. */
  datatype Step = Step(base: Base, suffix: string, edit: Edit)

  function StepSid(st: Step): string {
    ConstructSid(st.base, st.suffix)
  }

  function Do(d: Document, st: Step): Document {
    Update(Ensure(d, StepSid(st)), StepSid(st), st.edit)
  }

  function Exec(d: Document, steps: seq<Step>): Document {
    if steps == [] then d else Do(Exec(d, steps[..|steps| - 1]), steps[|steps| - 1])
  }

  /** Loading resets Action and Effect of every managed statement to their base. */
  function LoadStmt(s: Stmt): Stmt {
    match Classify(s.sid) case Some(b) => s.(body := Standard(b)) case None => s
  }

  function Load(d: Document): (r: Document)
    ensures |r| == |d|
    ensures forall i :: 0 <= i < |d| ==> r[i] == LoadStmt(d[i])
  {
    seq(|d|, i requires 0 <= i < |d| => LoadStmt(d[i]))
  }

  function IsLive(): Stmt -> bool {
    (s: Stmt) => Live(s)
  }

  /** `put`: statements without resources are dropped. */
  function Put(d: Document): Document {
    Filter(IsLive(), d)
  }

  // ---------------------------------------------------------------- reading documents

  lemma {:induction false} LookupAt(d: Document, i: nat)
    requires Distinct(d) && i < |d|
    ensures Lookup(d, d[i].sid) == d[i]
  {
    if i < |d| - 1 {
      LookupAt(d[..|d| - 1], i);
    }
  }

  lemma {:induction false} LookupAbsent(d: Document, sid: string)
    requires !HasSid(d, sid)
    ensures Lookup(d, sid) == Blank(sid)
  {
    if d != [] {
      assert Sids(d)[|d| - 1] == d[|d| - 1].sid;
      assert forall i :: 0 <= i < |d| - 1 ==> Sids(d[..|d| - 1])[i] == Sids(d)[i];
      LookupAbsent(d[..|d| - 1], sid);
    }
  }

  // ---------------------------------------------------------------- steps

  lemma {:induction false} LookupUpdate(d: Document, sid: string, e: Edit, other: string)
    requires HasSid(d, sid)
    ensures Lookup(Update(d, sid, e), other)
         == if other == sid then Apply(e, Lookup(d, sid)) else Lookup(d, other)
  {
    var last := d[|d| - 1];
    assert Update(d, sid, e)[..|d| - 1] == Update(d[..|d| - 1], sid, e);
    if last.sid == sid && other == sid {
    } else if HasSid(d[..|d| - 1], sid) {
      LookupUpdate(d[..|d| - 1], sid, e, other);
    } else {
      assert last.sid == sid by {
        var i :| 0 <= i < |d| && Sids(d)[i] == sid;
        assert i < |d| - 1 ==> Sids(d[..|d| - 1])[i] == sid;
      }
      assert Update(d[..|d| - 1], sid, e) == d[..|d| - 1] by {
        forall i | 0 <= i < |d| - 1
          ensures d[i].sid != sid
        {
          assert Sids(d[..|d| - 1])[i] == d[i].sid;
        }
      }
    }
  }

  lemma {:induction false} LookupEnsure(d: Document, sid: string, other: string)
    ensures Lookup(Ensure(d, sid), other) == Lookup(d, other)
  {
    if !HasSid(d, sid) {
      assert Ensure(d, sid)[..|d|] == d;
      LookupAbsent(d, sid);
    }
  }

  lemma {:induction false} EnsureShape(d: Document, sid: string)
    requires Distinct(d)
    ensures Distinct(Ensure(d, sid)) && HasSid(Ensure(d, sid), sid)
    ensures Sids(Ensure(d, sid)) == if HasSid(d, sid) then Sids(d) else Sids(d) + [sid]
  {
    if !HasSid(d, sid) {
      var r := Ensure(d, sid);
      assert Sids(r)[|d|] == sid;
      forall i | 0 <= i < |d|
        ensures r[i].sid != sid
      {
        assert Sids(d)[i] == r[i].sid;
      }
    }
  }

  /** One step changes what the document holds under its own Sid, and nothing else. */
  lemma {:induction false} DoLookup(d: Document, st: Step, sid: string)
    ensures Lookup(Do(d, st), sid)
         == if sid == StepSid(st) then Apply(st.edit, Lookup(d, sid)) else Lookup(d, sid)
  {
    var own := StepSid(st);
    assert HasSid(Ensure(d, own), own) by {
      if !HasSid(d, own) {
        assert Sids(Ensure(d, own))[|d|] == own;
      }
    }
    LookupUpdate(Ensure(d, own), own, st.edit, sid);
    LookupEnsure(d, own, sid);
  }

  /** A step seen from one statement. */
  function On(st: Step, s: Stmt): (r: Stmt)
    ensures r.sid == s.sid
  {
    if s.sid == StepSid(st) then Apply(st.edit, s) else s
  }

  function OnAll(steps: seq<Step>, s: Stmt): (r: Stmt)
    ensures r.sid == s.sid
  {
    if steps == [] then s else On(steps[|steps| - 1], OnAll(steps[..|steps| - 1], s))
  }

  /** Steps act on every statement independently of the rest of the document. */
  lemma {:induction false} ExecLookup(d: Document, steps: seq<Step>, sid: string)
    ensures Lookup(Exec(d, steps), sid) == OnAll(steps, Lookup(d, sid))
  {
    if steps != [] {
      ExecLookup(d, steps[..|steps| - 1], sid);
      DoLookup(Exec(d, steps[..|steps| - 1]), steps[|steps| - 1], sid);
    }
  }

  lemma {:induction false} OnAppend(a: seq<Step>, b: seq<Step>, s: Stmt)
    ensures OnAll(a + b, s) == OnAll(b, OnAll(a, s))
  {
    hide On;
    if b == [] {
      assert a + b == a;
    } else {
      assert (a + b)[..|a + b| - 1] == a + b[..|b| - 1];
      OnAppend(a, b[..|b| - 1], s);
    }
  }

  lemma {:induction false} OnOne(a: Step, s: Stmt)
    ensures OnAll([a], s) == On(a, s)
  {
  }

  lemma {:induction false} OnTwo(a: Step, b: Step, s: Stmt)
    ensures OnAll([a, b], s) == On(b, On(a, s))
  {
    hide On;
    assert [a, b] == [a] + [b];
    OnAppend([a], [b], s);
    OnOne(a, s);
    OnOne(b, On(a, s));
  }

  lemma {:induction false} OnThree(a: Step, b: Step, c: Step, s: Stmt)
    ensures OnAll([a, b, c], s) == On(c, On(b, On(a, s)))
  {
    hide On;
    assert [a, b, c] == [a, b] + [c];
    OnAppend([a, b], [c], s);
    OnTwo(a, b, s);
    OnOne(c, On(b, On(a, s)));
  }

  /** Steps only ever append statements: the old Sids stay in place and Sids stay distinct. */
  lemma {:induction false} DoShape(d: Document, st: Step)
    requires Distinct(d)
    ensures Distinct(Do(d, st))
    ensures Sids(d) <= Sids(Do(d, st))
    ensures forall sid :: HasSid(Do(d, st), sid) ==> HasSid(d, sid) || sid == StepSid(st)
  {
    EnsureShape(d, StepSid(st));
    assert Sids(Do(d, st)) == Sids(Ensure(d, StepSid(st)));
  }

  lemma {:induction false} ExecShape(d: Document, steps: seq<Step>)
    requires Distinct(d)
    ensures Distinct(Exec(d, steps))
    ensures Sids(d) <= Sids(Exec(d, steps))
    ensures forall sid :: HasSid(Exec(d, steps), sid) ==> HasSid(d, sid) || exists st :: st in steps && sid == StepSid(st)
  {
    if steps != [] {
      var front, st := steps[..|steps| - 1], steps[|steps| - 1];
      ExecShape(d, front);
      DoShape(Exec(d, front), st);
      forall sid | HasSid(Exec(d, steps), sid) && !HasSid(d, sid)
        ensures exists st :: st in steps && sid == StepSid(st)
      {
        if sid != StepSid(st) {
          var st' :| st' in front && sid == StepSid(st');
          assert st' in steps;
        }
      }
    }
  }

  lemma {:induction false} ExecOne(d: Document, steps: seq<Step>, st: Step)
    ensures Exec(d, steps + [st]) == Do(Exec(d, steps), st)
  {
  }

  lemma {:induction false} ExecTwo(d: Document, a: Step, b: Step)
    ensures Exec(d, [a, b]) == Do(Do(d, a), b)
  {
    hide Do;
    ExecOne(d, [], a);
    ExecOne(d, [a], b);
    assert [] + [a] == [a] && [a] + [b] == [a, b];
  }

  lemma {:induction false} ExecThree(d: Document, a: Step, b: Step, c: Step)
    ensures Exec(d, [a, b, c]) == Do(Do(Do(d, a), b), c)
  {
    hide Do;
    ExecTwo(d, a, b);
    ExecOne(d, [a, b], c);
    assert [a, b] + [c] == [a, b, c];
  }

  lemma {:induction false} ExecAppend(d: Document, a: seq<Step>, b: seq<Step>)
    ensures Exec(d, a + b) == Exec(Exec(d, a), b)
  {
    hide Do;
    if b == [] {
      assert a + b == a;
    } else {
      assert a + b == a + b[..|b| - 1] + [b[|b| - 1]];
      ExecOne(d, a + b[..|b| - 1], b[|b| - 1]);
      ExecAppend(d, a, b[..|b| - 1]);
    }
  }

  // ---------------------------------------------------------------- loading and storing

  /** A statement that is dropped reads back as a blank one. */
  lemma {:induction false} PutLookup(d: Document, sid: string)
    requires Distinct(d)
    ensures Lookup(Put(d), sid) == if Live(Lookup(d, sid)) then Lookup(d, sid) else Blank(sid)
  {
    if d != [] {
      var front, last := d[..|d| - 1], d[|d| - 1];
      PutLookup(front, sid);
      if Live(last) {
        assert Put(d)[..|Put(front)|] == Put(front);
      } else {
        assert Put(d) == Put(front);
        if last.sid == sid {
          assert forall i :: 0 <= i < |front| ==> Sids(front)[i] == d[i].sid != sid;
          LookupAbsent(front, sid);
        }
      }
    }
  }

  lemma {:induction false} PutShape(d: Document)
    requires Distinct(d)
    ensures Distinct(Put(d))
    ensures forall s :: s in Put(d) ==> Live(s)
  {
    if d != [] {
      var front, last := d[..|d| - 1], d[|d| - 1];
      PutShape(front);
      forall i | 0 <= i < |Put(front)|
        ensures Put(front)[i].sid != last.sid
      {
        assert Put(front)[i] in front;
      }
    }
  }

  lemma {:induction false} LoadLookup(d: Document, sid: string)
    ensures Lookup(Load(d), sid) == LoadStmt(Lookup(d, sid))
  {
    if d != [] {
      assert Load(d)[..|d| - 1] == Load(d[..|d| - 1]);
      LoadLookup(d[..|d| - 1], sid);
    }
  }

  /** What is asked of a document that is to be loaded: distinct Sids, lists under managed Sids. */
  ghost predicate Loadable(d: Document) {
    && Distinct(d)
    && (forall s :: s in d && Managed(s.sid) ==> !s.resource.Single?)
  }

  /** Documents as `put` leaves them: as loaded, and every statement live. */
  ghost predicate Stored(d: Document) {
    && Loaded(d)
    && (forall s :: s in d ==> Live(s))
  }

  /** Documents as a policy object loads them. */
  ghost predicate Loaded(d: Document) {
    && Loadable(d)
    && Load(d) == d
  }

  lemma {:induction false} LoadLoaded(d: Document)
    requires Loadable(d)
    ensures Loaded(Load(d))
  {
  }

  lemma {:induction false} DoLoadable(d: Document, st: Step)
    requires Loadable(d)
    ensures Loadable(Do(d, st))
  {
    DoShape(d, st);
    var e := Ensure(d, StepSid(st));
    forall i | 0 <= i < |e| && Managed(e[i].sid)
      ensures !Do(d, st)[i].resource.Single?
    {
      assert i < |d| ==> d[i] in d;
    }
  }

  lemma {:induction false} DoLoaded(d: Document, st: Step)
    requires Loaded(d)
    ensures Loaded(Do(d, st))
  {
    DoLoadable(d, st);
    var e := Ensure(d, StepSid(st));
    assert forall i :: 0 <= i < |d| ==> Load(d)[i] == d[i];
    assert forall i :: 0 <= i < |e| ==> LoadStmt(e[i]) == e[i];
    assert Load(Do(d, st)) == Do(d, st);
  }

  lemma {:induction false} ExecLoaded(d: Document, steps: seq<Step>)
    requires Loaded(d)
    ensures Loaded(Exec(d, steps))
  {
    if steps != [] {
      ExecLoaded(d, steps[..|steps| - 1]);
      DoLoaded(Exec(d, steps[..|steps| - 1]), steps[|steps| - 1]);
    }
  }

  lemma {:induction false} PutStored(d: Document)
    requires Loaded(d)
    ensures Stored(Put(d))
  {
    PutShape(d);
    var p := Put(d);
    forall i | 0 <= i < |p|
      ensures LoadStmt(p[i]) == p[i]
    {
      assert p[i] in d;
      var j :| 0 <= j < |d| && d[j] == p[i];
      assert Load(d)[j] == d[j];
    }
    assert Load(p) == p;
    assert forall s :: s in p ==> s in d;
  }

  /** Load fixpoint: loading a stored document and putting it back changes nothing. */
  lemma {:induction false} StoredFixpoint(d: Document)
    requires Stored(d)
    ensures Put(Load(d)) == d
  {
    FilterAll(IsLive(), d);
  }

  lemma {:induction false} ExtensionOld(d: Document, x: Document)
    requires Distinct(d) && Distinct(x)
    requires Sids(d) <= Sids(x)
    requires forall sid :: HasSid(d, sid) ==> Lookup(x, sid) == Lookup(d, sid)
    ensures x[..|d|] == d
  {
    forall i | 0 <= i < |d|
      ensures x[i] == d[i]
    {
      assert Sids(d)[i] == Sids(x)[i];
      LookupAt(x, i);
      LookupAt(d, i);
      assert HasSid(d, d[i].sid);
    }
  }

  lemma {:induction false} ExtensionNew(d: Document, x: Document, j: nat)
    requires Distinct(x)
    requires Sids(d) <= Sids(x)
    requires |d| <= j < |x|
    ensures HasSid(x, x[j].sid) && !HasSid(d, x[j].sid)
    ensures Lookup(x, x[j].sid) == x[j]
  {
    LookupAt(x, j);
    assert Sids(x)[j] == x[j].sid;
    assert forall i :: 0 <= i < |d| ==> Sids(d)[i] == Sids(x)[i] == x[i].sid != x[j].sid;
  }

  /**
   * A document that kept every statement of d as it was, and holds nothing live beyond them,
   * is stored as d: same statements, same order.
   */
  lemma {:induction false} PutOfExtension(d: Document, x: Document)
    requires Stored(d) && Distinct(x)
    requires Sids(d) <= Sids(x)
    requires forall sid :: HasSid(d, sid) ==> Lookup(x, sid) == Lookup(d, sid)
    requires forall sid :: HasSid(x, sid) && !HasSid(d, sid) ==> !Live(Lookup(x, sid))
    ensures Put(x) == d
  {
    ExtensionOld(d, x);
    var old_, new_ := x[..|d|], x[|d|..];
    forall s | s in new_
      ensures !Live(s)
    {
      var j :| 0 <= j < |new_| && new_[j] == s;
      ExtensionNew(d, x, |d| + j);
    }
    assert x == old_ + new_;
    FilterAppend(IsLive(), old_, new_);
    FilterAll(IsLive(), d);
    FilterNone(IsLive(), new_);
  }

  /** In a stored document a Sid is present exactly when what it holds is live. */
  lemma {:induction false} StoredPresence(d: Document, sid: string)
    requires Stored(d)
    ensures HasSid(d, sid) <==> Live(Lookup(d, sid))
  {
    if HasSid(d, sid) {
      var i :| 0 <= i < |d| && Sids(d)[i] == sid;
      LookupAt(d, i);
      assert d[i] in d;
    } else {
      LookupAbsent(d, sid);
    }
  }

  /** What a loaded document holds under a Sid is as loading leaves it. */
  lemma {:induction false} LoadedLookup(d: Document, sid: string)
    requires Loaded(d)
    ensures LoadStmt(Lookup(d, sid)) == Lookup(d, sid)
    ensures Lookup(d, sid).body == Blank(sid).body || !Managed(sid)
    ensures Managed(sid) ==> !Lookup(d, sid).resource.Single?
  {
    LoadLookup(d, sid);
    if HasSid(d, sid) {
      var i :| 0 <= i < |d| && Sids(d)[i] == sid;
      LookupAt(d, i);
      assert d[i] in d;
    } else {
      LookupAbsent(d, sid);
    }
  }

  /** `put` keeps exactly the statements that have a Resource, in whatever form. */
  lemma {:induction false} PutExactly(d: Document, s: Stmt)
    ensures s in Put(d) <==> s in d && s.resource != Missing && s.resource != Single("") && s.resource != Many([])
  {
  }

  const NAME_CHARACTERS := "abcdefghijklmnopqrstuvwxyz0123456789-."

  lemma {:induction false} NameCharacter(c: char)
    ensures NameChar(c) <==> c in NAME_CHARACTERS
  {
    var digits, letters := "0123456789", "abcdefghijklmnopqrstuvwxyz";
    assert NAME_CHARACTERS == letters + digits + "-.";
    if '0' <= c <= '9' {
      assert digits[c as int - '0' as int] == c;
    }
    if 'a' <= c <= 'z' {
      assert letters[c as int - 'a' as int] == c;
    }
  }

  /** A resource is part of an ARN if it is that, or goes on with a character that no bucket name has. */
  lemma {:induction false} PartOfExactly(resource: string, arn: string)
    ensures PartOf(resource, arn) <==>
              resource == arn || (|resource| > |arn| && resource[..|arn|] == arn && resource[|arn|] !in NAME_CHARACTERS)
  {
    if |resource| > |arn| {
      NameCharacter(resource[|arn|]);
    }
    hide NAME_CHARACTERS;
  }

  // ---------------------------------------------------------------- statements of other owners

  function IsForeign(): Stmt -> bool {
    (s: Stmt) => !Managed(s.sid)
  }

  /** The statements whose Sids the class does not manage, in order. */
  function Foreign(d: Document): Document {
    Filter(IsForeign(), d)
  }

  lemma {:induction false} ForeignPointwise(d: Document, d': Document)
    requires |d| == |d'|
    requires forall i :: 0 <= i < |d| ==> d[i].sid == d'[i].sid && (!Managed(d[i].sid) ==> d[i] == d'[i])
    ensures Foreign(d) == Foreign(d')
  {
    if d != [] {
      ForeignPointwise(d[..|d| - 1], d'[..|d| - 1]);
    }
  }

  lemma {:induction false} DoForeign(d: Document, st: Step)
    ensures Foreign(Do(d, st)) == Foreign(d)
  {
    SidRoundTrip(st.base, st.suffix);
    var own := StepSid(st);
    ForeignPointwise(Ensure(d, own), Do(d, st));
    if !HasSid(d, own) {
      FilterAppend(IsForeign(), d, [Blank(own)]);
      FilterNone(IsForeign(), [Blank(own)]);
    }
  }

  /** No sequence of steps touches, moves, adds or drops a statement with an unmanaged Sid. */
  lemma {:induction false} ExecForeign(d: Document, steps: seq<Step>)
    ensures Foreign(Exec(d, steps)) == Foreign(d)
  {
    if steps != [] {
      ExecForeign(d, steps[..|steps| - 1]);
      DoForeign(Exec(d, steps[..|steps| - 1]), steps[|steps| - 1]);
    }
  }

  lemma {:induction false} LoadForeign(d: Document)
    ensures Foreign(Load(d)) == Foreign(d)
  {
    ForeignPointwise(d, Load(d));
  }

  /** Storing drops, of those statements, only the ones without resources. */
  lemma {:induction false} PutForeign(d: Document)
    ensures Foreign(Put(d)) == Put(Foreign(d))
  {
    if d != [] {
      PutForeign(d[..|d| - 1]);
      FilterAppend(IsForeign(), Put(d[..|d| - 1]), if Live(d[|d| - 1]) then [d[|d| - 1]] else []);
      FilterAppend(IsLive(), Foreign(d[..|d| - 1]), if !Managed(d[|d| - 1].sid) then [d[|d| - 1]] else []);
      assert Filter(IsForeign(), [d[|d| - 1]]) == if !Managed(d[|d| - 1].sid) then [d[|d| - 1]] else [];
      assert Filter(IsLive(), [d[|d| - 1]]) == if Live(d[|d| - 1]) then [d[|d| - 1]] else [];
    }
  }
}
