/**
 The policy object that edits a role's S3 access policy in place. The statement list of the document
 and the lookup table hold the same mutable statement objects; every method is proved to keep that
 sharing and to do to the document's value what the steps of RoleGrants say.
 */
module AccessPolicy {
  import opened Options
  import opened Strings
  import opened PolicyDocument
  import opened RoleGrants

  /** One statement record. */
  class Statement {
    var sid: string
    var body: Body
    var resource: Resource
    var condition: Condition

    constructor (s: Stmt)
      ensures Value() == s
    {
      sid, body, resource, condition := s.sid, s.body, s.resource, s.condition;
    }

    function Value(): Stmt
      reads this
    {
      Stmt(sid, body, resource, condition)
    }

    /** `stmt.update(BASE_S3_ACCESS_STATEMENT[...])` for a managed Sid, suffixed or not. */
    method Reset()
      modifies this`body
      ensures Value() == LoadStmt(old(Value()))
    {
      var base := Classify(sid);
      if base.Some? {
        body := Standard(base.value);
      }
    }
  }

  /** The role's inline policy as AWS stores it; None before it exists. */
  class RolePolicy {
    var stored: Option<Document>

    constructor ()
      ensures stored == None
    {
      stored := None;
    }
  }

  /** The document that loading starts from: the stored one, or a copy of the base policy. */
  function Current(stored: Option<Document>): Document {
    if stored.Some? then stored.value else BASE_S3_ACCESS_POLICY
  }

  /** The stored document, if any, has distinct Sids and lists under the managed ones. */
  ghost predicate CanLoad(policy: RolePolicy)
    reads policy
  {
    Loadable(Current(policy.stored))
  }

  class S3AccessPolicy {
    const policy: RolePolicy
    var statements: map<string, Statement>
    var document: seq<Statement>

    /** The document's value, and the objects that make it up. */
    ghost var model: Document
    ghost var Repr: set<object>

    /** The table and the document share their records, from load up to `put`. */
    ghost predicate Shared()
      reads this`statements, this`document, this`Repr, document`sid
    {
      && this in Repr && policy !in Repr
      && (forall i :: 0 <= i < |document| ==> document[i] in Repr)
      && (forall sid :: sid in statements ==> statements[sid] in document && statements[sid].sid == sid)
      && (forall i :: 0 <= i < |document| && Managed(document[i].sid) ==>
            document[i].sid in statements && statements[document[i].sid] == document[i])
    }

    ghost predicate Valid()
      reads this, Repr
      ensures Valid() ==> this in Repr && policy !in Repr && Matches()
    {
      && (forall i :: 0 <= i < |document| ==> document[i] in Repr)
      && Shared()
      && Loadable(model)
      && Matches()
    }

    /** The model is the value of the records in the document. */
    ghost predicate Matches()
      reads this`model, this`document, document
    {
      && |model| == |document|
      && forall i :: 0 <= i < |document| ==> document[i].Value() == model[i]
    }

    /** Whether the table has a Sid tells whether the document has it. */
    lemma {:induction false} TableComplete(sid: string)
      requires Valid() && Managed(sid)
      ensures sid in statements <==> HasSid(model, sid)
    {
      assert forall i :: 0 <= i < |document| ==> Sids(model)[i] == document[i].sid;
      if sid in statements {
        var i :| 0 <= i < |document| && document[i] == statements[sid];
        assert Sids(model)[i] == sid;
      }
      if HasSid(model, sid) {
        var i :| 0 <= i < |document| && Sids(model)[i] == sid;
        assert document[i] in document;
      }
    }

    // -------------------------------------------------------------- statements

    /** `_build_statement` */
    method BuildStatement(base: Base, sid: string) returns (statement: Statement)
      requires Valid()
      requires Classify(sid) == Some(base) && !HasSid(model, sid)
      modifies this
      ensures Valid() && fresh(Repr - old(Repr)) && Repr >= old(Repr)
      ensures model == old(model) + [Blank(sid)]
      ensures statement in document && statement.sid == sid
    {
      hide Blank, Loadable, Classify, HasSid, Managed;
      BlankManaged(base, sid);
      AppendLoadable(model, Blank(sid));
      statement := new Statement(Stmt(sid, Standard(base), Missing, NoCondition));
      assert sid !in statements by {
        TableComplete(sid);
      }
      statements := statements[sid := statement];
      document := document + [statement];
      model := model + [Blank(sid)];
      Repr := Repr + {statement};
    }

    /** `statement`: get or build. */
    method GetStatement(base: Base, suffix: string) returns (statement: Statement)
      requires Valid()
      modifies this
      ensures Valid() && fresh(Repr - old(Repr)) && Repr >= old(Repr)
      ensures model == Ensure(old(model), ConstructSid(base, suffix))
      ensures statement in document && statement in Repr && statement.sid == ConstructSid(base, suffix)
    {
      var sid := ConstructSid(base, suffix);
      SidRoundTrip(base, suffix);
      TableComplete(sid);
      if sid in statements {
        statement := statements[sid];
      } else {
        statement := BuildStatement(base, sid);
      }
    }

    /** The assignments to a record's fields, seen as one edit of the document. */
    method Write(s: Statement, resource: Resource, condition: Condition, ghost e: Edit)
      requires Valid() && s in document
      requires s.Value().(resource := resource, condition := condition) == Apply(e, s.Value())
      modifies this`model, s`resource, s`condition
      ensures Valid()
      ensures model == Update(old(model), s.sid, e)
      ensures Repr == old(Repr)
    {
      hide Loadable, Apply, Managed, Shared, Update, Classify;
      UpdateLoadable(model, s.sid, e);
      ghost var k :| 0 <= k < |document| && document[k] == s;
      OnlyOne(model, k);
      s.resource := resource;
      s.condition := condition;
      model := Update(model, s.sid, e);
      forall i | 0 <= i < |document|
        ensures document[i].Value() == model[i]
      {
        assert i != k ==> document[i] != s;
      }
    }

    // -------------------------------------------------------------- edits

    method AddResource(arn: string, base: Base, suffix: string)
      requires Valid()
      modifies Repr
      ensures Valid() && fresh(Repr - old(Repr)) && Repr >= old(Repr)
      ensures model == Do(old(model), Step(base, suffix, Edit.AddResource(arn)))
    {
      var statement := GetStatement(base, suffix);
      var resources := Items(statement.resource);
      if arn !in resources {
        resources := resources + [arn];
      }
      Write(statement, Many(resources), statement.condition, Edit.AddResource(arn));
    }

    method RemoveResource(arn: string, base: Base)
      requires Valid()
      modifies Repr
      ensures Valid() && fresh(Repr - old(Repr)) && Repr >= old(Repr)
      ensures model == Do(old(model), Step(base, "", Edit.RemoveResource(arn)))
    {
      hide Valid, Lookup, ConstructSid, Update, Ensure, Filter;
      var statement := GetStatement(base, "");
      var resource := statement.resource;
      if resource.Many? {
        var resources := RemoveParts(resource.patterns, arn);
        resource := Many(resources);
      }
      Write(statement, resource, statement.condition, Edit.RemoveResource(arn));
    }

    /** The loop of `remove_resource`: over a copy, removing from the list itself. */
    static method RemoveParts(all: seq<string>, arn: string) returns (resources: seq<string>)
      ensures resources == Filter(NotPartOf(arn), all)
    {
      resources := all;
      var i := 0;
      assert all[..0] == [];
      while i < |all|
        invariant 0 <= i <= |all|
        invariant resources == Filter(NotPartOf(arn), all[..i]) + all[i..]
      {
        RemoveStep(all, arn, i);
        if PartOf(all[i], arn) {
          resources := RemoveFirst(resources, all[i]);
        }
        i := i + 1;
      }
      assert all[..|all|] == all;
    }

    /** What `remove_prefix` leaves of a statement's resources and condition. */
    static method WithoutFolder(s: Stmt, bucketArn: string, folder: string, op: Operator)
      returns (resource: Resource, condition: Condition)
      ensures s.(resource := resource, condition := condition) == Apply(Edit.RemovePrefix(bucketArn, folder, op), s)
    {
      resource, condition := s.resource, s.condition;
      if bucketArn in Items(resource) {
        var prefixes := [];
        if Prefixes(condition, op).Some? {
          prefixes := Filter(NotUnder(folder), Prefixes(condition, op).value);
          condition := WithPrefixes(condition, prefixes);
        }
        if NoPrefixesLeft(prefixes) {
          resource := Missing;
        }
      }
    }

    method RemovePrefix(root: string, base: Base, op: Operator)
      requires Valid() && HasSlash(root)
      modifies Repr
      ensures Valid() && fresh(Repr - old(Repr)) && Repr >= old(Repr)
      ensures model == Do(old(model), Step(base, BucketOf(root), Edit.RemovePrefix(Arn(BucketOf(root)), FolderOf(root), op)))
    {
      var bucket, folder := BucketOf(root), FolderOf(root);
      hide Valid, Lookup, ConstructSid, Update, Ensure, Apply;
      var statement := GetStatement(base, bucket);
      var resource, condition := WithoutFolder(statement.Value(), Arn(bucket), folder, op);
      Write(statement, resource, condition, Edit.RemovePrefix(Arn(bucket), folder, op));
    }

    /** The loop of `_add_folder_to_list_folder_prefixes` and the append after it. */
    static method GrowPrefixes(initial: seq<string>, folder: string) returns (prefixes: seq<string>)
      ensures prefixes == AddFolderPrefixes(initial, folder)
    {
      prefixes := initial;
      var subfolders := Split(folder)[..|Split(folder)| - 1];
      var index := 0;
      while index < |subfolders|
        invariant 0 <= index <= |subfolders|
        invariant prefixes == AddAncestors(initial, folder, index)
      {
        var path := subfolders[index];
        var prev := Join(subfolders[..index]);
        assert subfolders[..index] == Split(folder)[..index];
        if prev != "" {
          path := prev + "/" + path;
        }
        assert path == Ancestor(folder, index);
        if path !in prefixes {
          prefixes := prefixes + [path] + [path + "/"];
        }
        index := index + 1;
      }
      if folder !in prefixes {
        prefixes := prefixes + [folder];
      }
    }

    /** `_add_folder_to_list_folder_prefixes`; its statement must have a Resource. */
    method AddFolderToListFolderPrefixes(folder: string, bucket: string)
      requires Valid()
      requires Lookup(model, ConstructSid(ListFolder, bucket)).resource.Many?
      modifies Repr
      ensures Valid() && fresh(Repr - old(Repr)) && Repr >= old(Repr)
      ensures model == Do(old(model), Step(ListFolder, bucket, AddFolder(Arn(bucket), folder)))
    {
      hide Valid, Lookup, AddFolderPrefixes, ConstructSid, Update, Ensure;
      var statement := GetStatement(ListFolder, bucket);
      var condition := statement.condition;
      if Arn(bucket) in Items(statement.resource) {
        var prefixes := [""];
        if Prefixes(condition, Equals).Some? {
          prefixes := Prefixes(condition, Equals).value;
        }
        prefixes := GrowPrefixes(prefixes, folder);
        condition := StringEquals(prefixes, ["/"]);
      }
      Write(statement, statement.resource, condition, AddFolder(Arn(bucket), folder));
    }

    /** `_add_folder_to_list_sub_folders_prefixes`; its statement must have a Resource. */
    method AddFolderToListSubFoldersPrefixes(folder: string, bucket: string)
      requires Valid()
      requires Lookup(model, ConstructSid(ListSubFolders, bucket)).resource.Many?
      modifies Repr
      ensures Valid() && fresh(Repr - old(Repr)) && Repr >= old(Repr)
      ensures model == Do(old(model), Step(ListSubFolders, bucket, AddSubFolders(Arn(bucket), folder)))
    {
      hide Valid, Lookup, AddFolderPrefixes, ConstructSid, Update, Ensure;
      var statement := GetStatement(ListSubFolders, bucket);
      var condition := statement.condition;
      if Arn(bucket) in Items(statement.resource) {
        var prefixes := [];
        if Prefixes(condition, Like).Some? {
          prefixes := Prefixes(condition, Like).value;
        }
        if folder + "/*" !in prefixes {
          prefixes := prefixes + [folder + "/*"];
        }
        condition := StringLike(prefixes);
      }
      Write(statement, statement.resource, condition, AddSubFolders(Arn(bucket), folder));
    }

    // -------------------------------------------------------------- grants and revokes

    method GrantObjectAccess(arn: string, level: Level)
      requires Valid()
      modifies Repr
      ensures Valid() && fresh(Repr - old(Repr)) && Repr >= old(Repr)
      ensures model == Do(old(model), Step(level, "", Edit.AddResource(arn + "/*")))
    {
      AddResource(arn + "/*", level, "");
    }

    method GrantListAccess(arn: string)
      requires Valid()
      modifies Repr
      ensures Valid() && fresh(Repr - old(Repr)) && Repr >= old(Repr)
      ensures model == Do(old(model), Step(List, "", Edit.AddResource(arn)))
    {
      AddResource(arn, List, "");
    }

    method RevokeAccess(arn: string)
      requires Valid()
      modifies Repr
      ensures Valid() && fresh(Repr - old(Repr)) && Repr >= old(Repr)
      ensures model == Exec(old(model), RevokeBucketSteps(arn))
    {
      RevokeBucketExec(model, arn);
      hide *;
      RemoveResource(arn, ReadOnly);
      RemoveResource(arn, ReadWrite);
      RemoveResource(arn, List);
    }

    method RevokeFolderAccess(root: string)
      requires Valid() && HasSlash(root)
      modifies Repr
      ensures Valid() && fresh(Repr - old(Repr)) && Repr >= old(Repr)
      ensures model == Exec(old(model), RevokeFolderSteps(root))
    {
      hide *;
      RevokeFolderExec(model, root);
      RemoveFolderResources(Arn(root), Arn(BucketOf(root)));
      RemovePrefixExec(model, BucketOf(root), FolderOf(root));
      RemovePrefix(root, ListFolder, Equals);
      RemovePrefix(root, ListSubFolders, Like);
    }

    /** The first three calls of `revoke_folder_access`. */
    method RemoveFolderResources(rootArn: string, bucketArn: string)
      requires Valid()
      modifies Repr
      ensures Valid() && fresh(Repr - old(Repr)) && Repr >= old(Repr)
      ensures model == Exec(old(model), RemoveFolderSteps(rootArn, bucketArn))
    {
      RemoveFolderExec(model, rootArn, bucketArn);
      hide *;
      RemoveResource(rootArn, ReadOnly);
      RemoveResource(rootArn, ReadWrite);
      RemoveResource(bucketArn, RootFolderBucketMeta);
    }

    /** One round of the loop of `grant_folder_access`. */
    method GrantFolderPath(bucket: string, level: Level, path: string)
      requires Valid() && HaveResource(model, bucket)
      modifies Repr
      ensures Valid() && fresh(Repr - old(Repr)) && Repr >= old(Repr)
      ensures model == Exec(old(model), FolderPathSteps(bucket, level, path))
      ensures HaveResource(model, bucket)
    {
      hide Do, Valid, Exec, Lookup, ConstructSid;
      FolderPathExec(model, bucket, level, path);
      GrantObjectAccess(Arn(bucket) + "/" + path, level);
      AddFolderToListFolderPrefixes(path, bucket);
      AddFolderToListSubFoldersPrefixes(path, bucket);
    }

    /** The first three calls of `grant_folder_access`. */
    method AddBucket(bucket: string)
      requires Valid()
      modifies Repr
      ensures Valid() && fresh(Repr - old(Repr)) && Repr >= old(Repr)
      ensures model == Exec(old(model), AddBucketSteps(bucket))
      ensures HaveResource(model, bucket)
    {
      hide *;
      AddBucketExec(model, bucket);
      BucketAdded(model, bucket);
      AddResource(Arn(bucket), RootFolderBucketMeta, "");
      AddResource(Arn(bucket), ListFolder, bucket);
      AddResource(Arn(bucket), ListSubFolders, bucket);
    }

    method GrantFolderAccess(root: string, level: Level, paths: seq<string>)
      requires Valid() && HasSlash(root)
      modifies Repr
      ensures Valid() && fresh(Repr - old(Repr)) && Repr >= old(Repr)
      ensures model == Exec(old(model), GrantFolderSteps(root, level, paths))
    {
      hide *;
      var bucket := BucketOf(root);
      GrantFolderExec(model, root, level, paths);
      AddBucket(bucket);
      GrantFolderPaths(bucket, level, FolderPaths(FolderOf(root), paths));
    }

    /** The loop of `grant_folder_access`. */
    method GrantFolderPaths(bucket: string, level: Level, folderPaths: seq<string>)
      requires Valid() && HaveResource(model, bucket)
      modifies Repr
      ensures Valid() && fresh(Repr - old(Repr)) && Repr >= old(Repr)
      ensures model == Exec(old(model), FolderLoopSteps(bucket, level, folderPaths))
    {
      hide *;
      NoPathsYet(model, bucket, level, folderPaths);
      var i := 0;
      while i < |folderPaths|
        invariant 0 <= i <= |folderPaths|
        invariant Valid() && fresh(Repr - old(Repr)) && Repr >= old(Repr)
        invariant model == Exec(old(model), FolderLoopSteps(bucket, level, folderPaths[..i]))
        invariant HaveResource(model, bucket)
      {
        FolderLoopNext(old(model), bucket, level, folderPaths, i);
        GrantFolderPath(bucket, level, folderPaths[i]);
        i := i + 1;
      }
      assert folderPaths[..|folderPaths|] == folderPaths;
    }

    // -------------------------------------------------------------- load and put

    /** The statements that have resources, with their values. */
    method LiveStatements() returns (kept: seq<Statement>, values: Document)
      requires Matches()
      ensures forall j :: 0 <= j < |kept| ==> kept[j] in document
      ensures |values| == |kept| && forall j :: 0 <= j < |kept| ==> kept[j].Value() == values[j]
      ensures values == PolicyDocument.Put(model)
    {
      hide Live, Filter;
      NothingPut(model);
      kept, values := [], [];
      var i := 0;
      while i < |document|
        invariant 0 <= i <= |document|
        invariant |values| == |kept|
        invariant forall j :: 0 <= j < |kept| ==> kept[j] in document && kept[j].Value() == values[j]
        invariant values == Filter(IsLive(), model[..i])
      {
        var statement := document[i];
        var value := statement.Value();
        PutStep(model, i);
        if Live(value) {
          kept := kept + [statement];
          values := values + [value];
        }
        i := i + 1;
      }
      assert model[..|document|] == model;
    }

    /** `put`: drop statements without resources, then store the document's value. */
    method Put()
      requires Matches()
      modifies this, policy
      ensures model == PolicyDocument.Put(old(model))
      ensures policy.stored == Some(PolicyDocument.Put(old(model)))
      ensures Matches()
      ensures forall s :: s in document ==> s in old(document)
      ensures statements == old(statements) && Repr == old(Repr)
    {
      hide PolicyDocument.Put;
      var kept, values := LiveStatements();
      document := kept;
      model := values;
      policy.stored := Some(values);
    }

    /** New records with the values of a stored document. */
    static method Parse(d: Document) returns (ss: seq<Statement>)
      ensures |ss| == |d| && forall i :: 0 <= i < |d| ==> ss[i].Value() == d[i]
      ensures forall s :: s in ss ==> fresh(s)
    {
      ss := [];
      var i := 0;
      while i < |d|
        invariant 0 <= i <= |d| && |ss| == i
        invariant forall j :: 0 <= j < i ==> ss[j].Value() == d[j]
        invariant forall s :: s in ss ==> fresh(s)
      {
        var s := new Statement(d[i]);
        ss := ss + [s];
        i := i + 1;
      }
    }

    /** Load the stored document, or create the base one; reset managed statements; build the table. */
    constructor (policy: RolePolicy)
      requires CanLoad(policy)
      modifies policy
      ensures this.policy == policy
      ensures Valid() && fresh(Repr)
      ensures model == Load(Current(old(policy.stored)))
      ensures policy.stored == Some(Current(old(policy.stored)))
      ensures policy.stored == if old(policy.stored).Some? then old(policy.stored) else Some(BASE_S3_ACCESS_POLICY)
    {
      this.policy := policy;
      statements := map[];
      new;
      CurrentIs(policy.stored);
      hide *;
      LoadDocument();
      BuildTable();
    }

    /** The stored document, or, when there is none yet, the base policy, which is put at once. */
    method LoadDocument()
      modifies this, policy
      ensures model == Current(old(policy.stored)) && Matches()
      ensures policy.stored == Some(model)
      ensures statements == old(statements)
      ensures this in Repr && policy !in Repr && (forall i :: 0 <= i < |document| ==> document[i] in Repr)
      ensures fresh(Repr - {this})
    {
      BaseStored();
      hide PolicyDocument.Put, Matches, LIST_USER_BUCKETS, BASE_S3_ACCESS_POLICY;
      Adopt(Current(policy.stored));
      if policy.stored.None? {
        Put();
      }
      Repr := {this} + (set s: Statement | s in document);
    }

    /** Take over a stored document's value as records. */
    method Adopt(d: Document)
      modifies this
      ensures model == d && Matches()
      ensures forall s :: s in document ==> fresh(s)
      ensures statements == old(statements) && Repr == old(Repr)
    {
      document := Parse(d);
      model := d;
    }

    /** The loop of the initialiser over the loaded statements. */
    method EnterStatements()
      requires statements == map[]
      requires Loadable(model) && Matches()
      modifies this`statements, document`body
      ensures forall j :: 0 <= j < |document| ==> document[j].Value() == LoadStmt(model[j])
      ensures forall sid :: sid in statements ==> statements[sid] in document && statements[sid].sid == sid
      ensures forall j :: 0 <= j < |document| && Managed(document[j].sid) ==>
                document[j].sid in statements && statements[document[j].sid] == document[j]
    {
      hide Loadable, Classify, LoadStmt, Managed, Load, Loaded;
      var i := 0;
      while i < |document|
        invariant 0 <= i <= |document|
        invariant forall j :: 0 <= j < |document| ==> document[j].sid == model[j].sid
        invariant forall j :: 0 <= j < i ==> document[j].Value() == LoadStmt(model[j])
        invariant forall j :: i <= j < |document| ==> document[j].Value() == model[j]
        invariant forall sid :: sid in statements ==> statements[sid] in document && statements[sid].sid == sid
        invariant forall j :: 0 <= j < i && Managed(document[j].sid) ==>
                    document[j].sid in statements && statements[document[j].sid] == document[j]
      {
        var stmt := document[i];
        OnlyOne(model, i);
        assert forall j :: 0 <= j < |document| && j != i ==> document[j] != stmt;
        stmt.Reset();
        if Managed(stmt.sid) {
          statements := statements[stmt.sid := stmt];
        }
        i := i + 1;
      }
    }

    /** Reset the managed statements and build the table. */
    method BuildTable()
      requires statements == map[]
      requires this in Repr && policy !in Repr && forall i :: 0 <= i < |document| ==> document[i] in Repr
      requires Loadable(model) && Matches()
      modifies Repr
      ensures Valid() && Repr == old(Repr)
      ensures model == Load(old(model))
    {
      hide Loadable, Classify, LoadStmt, Managed, Loaded;
      LoadLoaded(model);
      EnterStatements();
      model := Load(model);
      LoadableIfLoaded(model);
    }
  }

  lemma {:induction false} CurrentIs(stored: Option<Document>)
    ensures Some(Current(stored)) == if stored.Some? then stored else Some(BASE_S3_ACCESS_POLICY)
  {
  }

  lemma {:induction false} OnlyOne(d: Document, k: nat)
    requires Loadable(d) && k < |d|
    ensures forall i :: 0 <= i < |d| && i != k ==> d[i].sid != d[k].sid
  {
  }

  lemma {:induction false} LoadableIfLoaded(d: Document)
    requires Loaded(d)
    ensures Loadable(d)
  {
  }

  lemma {:induction false} NothingPut(d: Document)
    ensures Filter(IsLive(), d[..0]) == []
  {
  }

  /** One round of the comprehension of `put`. */
  lemma {:induction false} PutStep(d: Document, i: nat)
    requires i < |d|
    ensures Filter(IsLive(), d[..i + 1]) == Filter(IsLive(), d[..i]) + if Live(d[i]) then [d[i]] else []
  {
    assert d[..i + 1][..i] == d[..i];
  }

  /** One round of the loop of `remove_resource`. */
  lemma {:induction false} RemoveStep(all: seq<string>, arn: string, i: nat)
    requires i < |all|
    ensures var left := Filter(NotPartOf(arn), all[..i]) + all[i..];
            var next := Filter(NotPartOf(arn), all[..i + 1]) + all[i + 1..];
            if PartOf(all[i], arn) then all[i] in left && RemoveFirst(left, all[i]) == next else left == next
  {
    var kept, rest := Filter(NotPartOf(arn), all[..i]), all[i + 1..];
    assert all[..i + 1][..i] == all[..i];
    assert kept + all[i..] == kept + [all[i]] + rest;
    if PartOf(all[i], arn) {
      RemoveFirstAt(kept, all[i], rest);
    }
  }

  lemma {:induction false} BlankManaged(base: Base, sid: string)
    requires Classify(sid) == Some(base)
    ensures Blank(sid) == Stmt(sid, Standard(base), Missing, NoCondition)
    ensures Managed(sid)
  {
  }

  lemma {:induction false} AppendLoadable(d: Document, s: Stmt)
    requires Loadable(d) && !HasSid(d, s.sid) && !s.resource.Single?
    ensures Loadable(d + [s])
  {
  }

  lemma {:induction false} UpdateLoadable(d: Document, sid: string, e: Edit)
    requires Loadable(d)
    ensures Loadable(Update(d, sid, e))
  {
  }

  lemma {:induction false} BaseStored()
    ensures PolicyDocument.Put(BASE_S3_ACCESS_POLICY) == BASE_S3_ACCESS_POLICY
  {
  }

  lemma {:induction false} RevokeBucketExec(d: Document, arn: string)
    ensures Exec(d, RevokeBucketSteps(arn))
         == Do(Do(Do(d, Step(ReadOnly, "", RemoveResource(arn))),
                  Step(ReadWrite, "", RemoveResource(arn))),
               Step(List, "", RemoveResource(arn)))
  {
    var s := RevokeBucketSteps(arn);
    ExecThree(d, s[0], s[1], s[2]);
  }

  lemma {:induction false} RemoveFolderExec(d: Document, rootArn: string, bucketArn: string)
    ensures Exec(d, RemoveFolderSteps(rootArn, bucketArn))
         == Do(Do(Do(d, Step(ReadOnly, "", RemoveResource(rootArn))),
                  Step(ReadWrite, "", RemoveResource(rootArn))),
               Step(RootFolderBucketMeta, "", RemoveResource(bucketArn)))
  {
    var s := RemoveFolderSteps(rootArn, bucketArn);
    ExecThree(d, s[0], s[1], s[2]);
  }

  lemma {:induction false} RemovePrefixExec(d: Document, bucket: string, folder: string)
    ensures Exec(d, RemovePrefixSteps(bucket, folder))
         == Do(Do(d, Step(ListFolder, bucket, RemovePrefix(Arn(bucket), folder, Equals))),
               Step(ListSubFolders, bucket, RemovePrefix(Arn(bucket), folder, Like)))
  {
    var s := RemovePrefixSteps(bucket, folder);
    ExecTwo(d, s[0], s[1]);
  }

  lemma {:induction false} RevokeFolderExec(d: Document, root: string)
    requires HasSlash(root)
    ensures Exec(d, RevokeFolderSteps(root))
         == Exec(Exec(d, RemoveFolderSteps(Arn(root), Arn(BucketOf(root)))), RemovePrefixSteps(BucketOf(root), FolderOf(root)))
  {
    ExecAppend(d, RemoveFolderSteps(Arn(root), Arn(BucketOf(root))), RemovePrefixSteps(BucketOf(root), FolderOf(root)));
  }

  lemma {:induction false} GrantFolderExec(d: Document, root: string, level: Level, paths: seq<string>)
    requires HasSlash(root)
    ensures Exec(d, GrantFolderSteps(root, level, paths))
         == Exec(Exec(d, AddBucketSteps(BucketOf(root))),
                 FolderLoopSteps(BucketOf(root), level, FolderPaths(FolderOf(root), paths)))
  {
    ExecAppend(d, AddBucketSteps(BucketOf(root)), FolderLoopSteps(BucketOf(root), level, FolderPaths(FolderOf(root), paths)));
  }

  lemma {:induction false} GrantBucketExec(d: Document, arn: string, level: Level, pathArns: seq<string>)
    ensures Exec(d, GrantBucketSteps(arn, level, pathArns))
         == Exec(Do(Exec(d, RevokeBucketSteps(arn)), Step(List, "", AddResource(arn))),
                 ObjectSteps(level, PathArns(arn, pathArns)))
  {
    var list := Step(List, "", AddResource(arn));
    ExecOne(d, RevokeBucketSteps(arn), list);
    ExecAppend(d, RevokeBucketSteps(arn) + [list], ObjectSteps(level, PathArns(arn, pathArns)));
  }

  lemma {:induction false} ObjectsNext(d: Document, level: Level, arns: seq<string>, i: nat)
    requires i < |arns|
    ensures Exec(d, ObjectSteps(level, arns[..i + 1]))
         == Do(Exec(d, ObjectSteps(level, arns[..i])), Step(level, "", AddResource(arns[i] + "/*")))
  {
    var st := Step(level, "", AddResource(arns[i] + "/*"));
    assert ObjectSteps(level, arns[..i + 1]) == ObjectSteps(level, arns[..i]) + [st];
    ExecOne(d, ObjectSteps(level, arns[..i]), st);
  }

  lemma {:induction false} NoObjectsYet(d: Document, level: Level, arns: seq<string>)
    ensures Exec(d, ObjectSteps(level, arns[..0])) == d
  {
  }

  lemma {:induction false} AddBucketExec(d: Document, bucket: string)
    ensures Exec(d, AddBucketSteps(bucket))
         == Do(Do(Do(d, Step(RootFolderBucketMeta, "", AddResource(Arn(bucket)))),
                  Step(ListFolder, bucket, AddResource(Arn(bucket)))),
               Step(ListSubFolders, bucket, AddResource(Arn(bucket))))
  {
    var s := AddBucketSteps(bucket);
    ExecThree(d, s[0], s[1], s[2]);
  }

  /** Both listing statements of the bucket have a Resource. */
  ghost predicate HaveResource(d: Document, bucket: string) {
    && Lookup(d, ConstructSid(ListFolder, bucket)).resource.Many?
    && Lookup(d, ConstructSid(ListSubFolders, bucket)).resource.Many?
  }

  lemma {:induction false} FolderPathExec(d: Document, bucket: string, level: Level, path: string)
    requires HaveResource(d, bucket)
    ensures var s := FolderPathSteps(bucket, level, path);
            && Exec(d, s) == Do(Do(Do(d, s[0]), s[1]), s[2])
            && HaveResource(Do(d, s[0]), bucket)
            && HaveResource(Do(Do(d, s[0]), s[1]), bucket)
            && HaveResource(Exec(d, s), bucket)
  {
    var s := FolderPathSteps(bucket, level, path);
    ExecThree(d, s[0], s[1], s[2]);
    KeepsResource(d, s[0], bucket);
    KeepsResource(Do(d, s[0]), s[1], bucket);
    KeepsResource(Do(Do(d, s[0]), s[1]), s[2], bucket);
  }

  lemma {:induction false} AddsKeepMany(e: Edit, s: Stmt)
    requires s.resource.Many? && (e.AddResource? || e.AddFolder? || e.AddSubFolders?)
    ensures Apply(e, s).resource.Many?
  {
  }

  lemma {:induction false} KeepsResource(d: Document, st: Step, bucket: string)
    requires HaveResource(d, bucket)
    requires st.edit.AddResource? || st.edit.AddFolder? || st.edit.AddSubFolders?
    ensures HaveResource(Do(d, st), bucket)
  {
    hide Do, Lookup, Apply, ConstructSid, StepSid;
    DoLookup(d, st, ConstructSid(ListFolder, bucket));
    DoLookup(d, st, ConstructSid(ListSubFolders, bucket));
    AddsKeepMany(st.edit, Lookup(d, ConstructSid(ListFolder, bucket)));
    AddsKeepMany(st.edit, Lookup(d, ConstructSid(ListSubFolders, bucket)));
  }

  lemma {:induction false} NoPathsYet(d: Document, bucket: string, level: Level, paths: seq<string>)
    ensures Exec(d, FolderLoopSteps(bucket, level, paths[..0])) == d
  {
  }

  lemma {:induction false} FolderLoopNext(d: Document, bucket: string, level: Level, paths: seq<string>, i: nat)
    requires i < |paths|
    ensures Exec(d, FolderLoopSteps(bucket, level, paths[..i + 1]))
         == Exec(Exec(d, FolderLoopSteps(bucket, level, paths[..i])), FolderPathSteps(bucket, level, paths[i]))
  {
    assert paths[..i + 1][..i] == paths[..i];
    ExecAppend(d, FolderLoopSteps(bucket, level, paths[..i]), FolderPathSteps(bucket, level, paths[i]));
  }

  lemma {:induction false} AddingGivesResource(st: Step, s: Stmt)
    requires st.edit.AddResource?
    ensures s.resource.Many? || s.sid == StepSid(st) ==> On(st, s).resource.Many?
  {
  }

  /** After the bucket's ARN was added, both listing statements have a Resource. */
  lemma {:induction false} BucketAdded(d: Document, bucket: string)
    ensures HaveResource(Exec(d, AddBucketSteps(bucket)), bucket)
  {
    var a := AddBucketSteps(bucket);
    hide On, StepSid;
    forall base: Base | base.ListFolder? || base.ListSubFolders?
      ensures Lookup(Exec(d, a), ConstructSid(base, bucket)).resource.Many?
    {
      var s := Lookup(d, ConstructSid(base, bucket));
      ExecLookup(d, a, ConstructSid(base, bucket));
      OnThree(a[0], a[1], a[2], s);
      AddingGivesResource(a[1], On(a[0], s));
      AddingGivesResource(a[2], On(a[1], On(a[0], s)));
      assert StepSid(a[1]) == ConstructSid(ListFolder, bucket) && StepSid(a[2]) == ConstructSid(ListSubFolders, bucket) by {
        StepSids(bucket);
      }
    }
  }

  lemma {:induction false} StepSids(bucket: string)
    ensures StepSid(AddBucketSteps(bucket)[1]) == ConstructSid(ListFolder, bucket)
    ensures StepSid(AddBucketSteps(bucket)[2]) == ConstructSid(ListSubFolders, bucket)
  {
  }

  // ---------------------------------------------------------------- role operations

  /** How a call ends; `NoSuchEntity` is what IAM raises about a role that does not exist. */
  datatype Outcome = Done | ValueError | NothingToRevoke | NoSuchEntity

  /** The role as far as access goes: whether it exists, and its "s3-access" policy. */
  class Role {
    const exists_: bool
    const s3Access: RolePolicy

    constructor (present: bool)
      ensures exists_ == present
    {
      exists_ := present;
      s3Access := new RolePolicy();
    }
  }

  lemma {:induction false} GrantBucketIs(d: Document, arn: string, level: Level, pathArns: seq<string>)
    ensures GrantBucket(d, arn, level, pathArns)
         == PolicyDocument.Put(Exec(Do(Exec(Load(d), RevokeBucketSteps(arn)), Step(List, "", AddResource(arn))),
                                    ObjectSteps(level, PathArns(arn, pathArns))))
  {
    GrantBucketExec(Load(d), arn, level, pathArns);
  }

  lemma {:induction false} GrantFolderIs(d: Document, root: string, level: Level, paths: seq<string>)
    requires HasSlash(root)
    ensures GrantFolder(d, root, level, paths)
         == PolicyDocument.Put(Exec(Exec(Load(d), RevokeFolderSteps(root)), GrantFolderSteps(root, level, paths)))
  {
    ExecAppend(Load(d), RevokeFolderSteps(root), GrantFolderSteps(root, level, paths));
  }

  /** `access_level in ("readonly", "readwrite")` */
  function LevelNamed(name: string): Option<Level> {
    if name == Name(ReadOnly) then Some(ReadOnly)
    else if name == Name(ReadWrite) then Some(ReadWrite)
    else None
  }

  lemma {:induction false} LevelNames(name: string)
    ensures LevelNamed(name).None? <==> name != "readonly" && name != "readwrite"
    ensures LevelNamed("readonly") == Some(ReadOnly) && LevelNamed("readwrite") == Some(ReadWrite)
  {
  }

  /** `grant_list_access` and the loop over the path ARNs. */
  method GrantObjects(policy: S3AccessPolicy, bucketArn: string, level: Level, arns: seq<string>)
    requires policy.Valid()
    modifies policy.Repr
    ensures policy.Valid()
    ensures policy.model == Exec(Do(old(policy.model), Step(List, "", Edit.AddResource(bucketArn))), ObjectSteps(level, arns))
  {
    hide *;
    policy.GrantListAccess(bucketArn);
    ghost var w := policy.model;
    NoObjectsYet(w, level, arns);
    var i := 0;
    while i < |arns|
      invariant 0 <= i <= |arns|
      invariant policy.Valid() && fresh(policy.Repr - old(policy.Repr))
      invariant policy.model == Exec(w, ObjectSteps(level, arns[..i]))
    {
      ObjectsNext(w, level, arns, i);
      policy.GrantObjectAccess(arns[i], level);
      i := i + 1;
    }
    assert arns[..|arns|] == arns;
  }

  /** Load, revoke, grant, put. */
  method RegrantBucket(s3Access: RolePolicy, bucketArn: string, level: Level, pathArns: seq<string>)
    requires CanLoad(s3Access)
    modifies s3Access
    ensures s3Access.stored == Some(GrantBucket(Current(old(s3Access.stored)), bucketArn, level, pathArns))
  {
    var arns := PathArns(bucketArn, pathArns);
    hide *;
    GrantBucketIs(Current(s3Access.stored), bucketArn, level, pathArns);
    var policy := new S3AccessPolicy(s3Access);
    policy.RevokeAccess(bucketArn);
    GrantObjects(policy, bucketArn, level, arns);
    policy.Put();
  }

  /** The same for a folder; a name without a slash cannot be taken apart, once the policy is loaded. */
  method RegrantFolder(s3Access: RolePolicy, root: string, level: Level, paths: seq<string>) returns (r: Outcome)
    requires CanLoad(s3Access)
    modifies s3Access
    ensures r == if HasSlash(root) then Done else ValueError
    ensures s3Access.stored == Some(if HasSlash(root) then GrantFolder(Current(old(s3Access.stored)), root, level, paths)
                                    else Current(old(s3Access.stored)))
  {
    hide *;
    var policy := new S3AccessPolicy(s3Access);
    if !HasSlash(root) {
      return ValueError;
    }
    GrantFolderIs(Current(old(s3Access.stored)), root, level, paths);
    policy.RevokeFolderAccess(root);
    policy.GrantFolderAccess(root, level, paths);
    policy.Put();
    r := Done;
  }

  /** Loading and putting the policy of a role that does not exist raises. */
  method GrantBucketAccess(role: Role, bucketArn: string, accessLevel: string,
                           pathArns: seq<string>) returns (r: Outcome)
    requires CanLoad(role.s3Access)
    modifies role.s3Access
    ensures r == if accessLevel != "readonly" && accessLevel != "readwrite" then ValueError
                 else if !role.exists_ then NoSuchEntity
                 else Done
    ensures r == Done ==> role.s3Access.stored == Some(GrantBucket(
                            Current(old(role.s3Access.stored)), bucketArn, LevelNamed(accessLevel).value, pathArns))
    ensures r != Done ==> role.s3Access.stored == old(role.s3Access.stored)
  {
    LevelNames(accessLevel);
    hide GrantBucket, CanLoad, LevelNamed;
    var level := LevelNamed(accessLevel);
    if level.None? {
      return ValueError;
    }
    if !role.exists_ {
      return NoSuchEntity;
    }
    RegrantBucket(role.s3Access, bucketArn, level.value, pathArns);
    r := Done;
  }

  method GrantFolderAccess(role: Role, root: string, accessLevel: string, paths: seq<string>) returns (r: Outcome)
    requires CanLoad(role.s3Access)
    modifies role.s3Access
    ensures r == if accessLevel != "readonly" && accessLevel != "readwrite" then ValueError
                 else if !role.exists_ then NoSuchEntity
                 else if !HasSlash(root) then ValueError
                 else Done
    ensures role.s3Access.stored == if LevelNamed(accessLevel).None? || !role.exists_ then old(role.s3Access.stored)
                                    else if !HasSlash(root) then Some(Current(old(role.s3Access.stored)))
                                    else Some(GrantFolder(Current(old(role.s3Access.stored)), root,
                                                          LevelNamed(accessLevel).value, paths))
  {
    LevelNames(accessLevel);
    hide GrantFolder, CanLoad, LevelNamed, HasSlash;
    var level := LevelNamed(accessLevel);
    if level.None? {
      return ValueError;
    }
    if !role.exists_ {
      return NoSuchEntity;
    }
    r := RegrantFolder(role.s3Access, root, level.value, paths);
  }

  method RevokeBucketAccess(role: Role, bucketArn: string) returns (r: Outcome)
    requires CanLoad(role.s3Access)
    modifies role.s3Access
    ensures r == if bucketArn == "" || !role.exists_ then NothingToRevoke else Done
    ensures r == Done ==> role.s3Access.stored == Some(RevokeBucket(Current(old(role.s3Access.stored)), bucketArn))
    ensures r == NothingToRevoke ==> role.s3Access.stored == old(role.s3Access.stored)
  {
    if bucketArn == "" || !role.exists_ {
      return NothingToRevoke;
    }
    var policy := new S3AccessPolicy(role.s3Access);
    policy.RevokeAccess(bucketArn);
    policy.Put();
    r := Done;
  }

  method RevokeFolderAccess(role: Role, root: string) returns (r: Outcome)
    requires CanLoad(role.s3Access)
    modifies role.s3Access
    ensures r == if !role.exists_ then NothingToRevoke else if !HasSlash(root) then ValueError else Done
    ensures role.s3Access.stored == if !role.exists_ then old(role.s3Access.stored)
                                    else if !HasSlash(root) then Some(Current(old(role.s3Access.stored)))
                                    else Some(RevokeFolder(Current(old(role.s3Access.stored)), root))
  {
    if !role.exists_ {
      return NothingToRevoke;
    }
    var policy := new S3AccessPolicy(role.s3Access);
    if !HasSlash(root) {
      return ValueError;
    }
    policy.RevokeFolderAccess(root);
    policy.Put();
    r := Done;
  }
}
