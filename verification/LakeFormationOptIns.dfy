/**
 Lake Formation opt-ins. A principal opts into tables; the opt-in of the database that holds them is
 created with the first table and deleted with the last one, by counting what AWS lists.
 */
module LakeFormationOptIns {
  import opened Options
  import opened Strings

  // ---------------------------------------------------------------- what AWS holds

  datatype Resource =
    | Database(catalog: string, name: string)
    | Table(catalog: string, database: string, name: string)

  /** By principal, in the order in which AWS lists them. */
  type OptIns = map<string, seq<Resource>>

  function Of(s: OptIns, principal: string): seq<Resource> {
    if principal in s then s[principal] else []
  }

  function DatabaseName(r: Resource): string {
    match r case Database(_, name) => name case Table(_, database, _) => database
  }

  // ---------------------------------------------------------------- listing

  function IsTableOf(database: string): Resource -> bool {
    (r: Resource) => r.Table? && r.database == database
  }

  /** `result["database"]`: the last one listed under the name, whatever its catalog. */
  function DatabaseListed(rs: seq<Resource>, name: string): (d: Option<Resource>)
    ensures d.Some? ==> d.value in rs && d.value.Database? && d.value.name == name
    ensures d.None? ==> forall r :: r in rs ==> !(r.Database? && r.name == name)
  {
    if rs == [] then None
    else
      var last := rs[|rs| - 1];
      if last.Database? && last.name == name then Some(last) else DatabaseListed(rs[..|rs| - 1], name)
  }

  /** `result["tables"]` */
  function TablesListed(rs: seq<Resource>, database: string): seq<Resource> {
    Filter(IsTableOf(database), rs)
  }

  lemma {:induction false} ListStep(rs: seq<Resource>, name: string, i: nat)
    requires i < |rs|
    ensures DatabaseListed(rs[..i + 1], name)
         == if rs[i].Database? && rs[i].name == name then Some(rs[i]) else DatabaseListed(rs[..i], name)
    ensures TablesListed(rs[..i + 1], name)
         == TablesListed(rs[..i], name) + if rs[i].Table? && rs[i].database == name then [rs[i]] else []
  {
    assert rs[..i + 1][..i] == rs[..i];
  }

  // ---------------------------------------------------------------- creating and deleting

  /** AWS refuses to create what exists and to delete what does not. */
  datatype Result = Ok(optIns: OptIns) | ClientError(optIns: OptIns)

  function ClientCreate(s: OptIns, principal: string, r: Resource): Result {
    if r in Of(s, principal) then ClientError(s) else Ok(s[principal := Of(s, principal) + [r]])
  }

  function ClientDelete(s: OptIns, principal: string, r: Resource): Result {
    if r !in Of(s, principal) then ClientError(s) else Ok(s[principal := RemoveFirst(Of(s, principal), r)])
  }

  function CreateOptIn(s: OptIns, database: string, table: string, principal: string, catalog: string): Result {
    var first := if DatabaseListed(Of(s, principal), database).None?
                 then ClientCreate(s, principal, Database(catalog, database)) else Ok(s);
    if first.ClientError? then first
    else ClientCreate(first.optIns, principal, Table(catalog, database, table))
  }

  function DeleteOptIn(s: OptIns, database: string, table: string, principal: string, catalog: string): Result {
    var first := if |TablesListed(Of(s, principal), database)| == 1
                 then ClientDelete(s, principal, Database(catalog, database)) else Ok(s);
    if first.ClientError? then first
    else ClientDelete(first.optIns, principal, Table(catalog, database, table))
  }

  // ---------------------------------------------------------------- the service

  class LakeFormation {
    var optIns: OptIns

    constructor ()
      ensures optIns == map[]
    {
      optIns := map[];
    }

    method ClientCreateOptIn(principal: string, r: Resource) returns (ok: bool)
      modifies this
      ensures ok == ClientCreate(old(optIns), principal, r).Ok?
      ensures optIns == ClientCreate(old(optIns), principal, r).optIns
    {
      ok := r !in Of(optIns, principal);
      if ok {
        optIns := optIns[principal := Of(optIns, principal) + [r]];
      }
    }

    method ClientDeleteOptIn(principal: string, r: Resource) returns (ok: bool)
      modifies this
      ensures ok == ClientDelete(old(optIns), principal, r).Ok?
      ensures optIns == ClientDelete(old(optIns), principal, r).optIns
    {
      ok := r in Of(optIns, principal);
      if ok {
        optIns := optIns[principal := RemoveFirst(Of(optIns, principal), r)];
      }
    }

    /** `list_lf_opt_ins` */
    method ListLfOptIns(database: string, principal: string) returns (listed: Option<Resource>, tables: seq<Resource>)
      ensures listed == DatabaseListed(Of(optIns, principal), database)
      ensures tables == TablesListed(Of(optIns, principal), database)
    {
      var response := Of(optIns, principal);
      listed, tables := None, [];
      assert response[..0] == [];
      var i := 0;
      while i < |response|
        invariant 0 <= i <= |response|
        invariant listed == DatabaseListed(response[..i], database)
        invariant tables == TablesListed(response[..i], database)
      {
        ListStep(response, database, i);
        var resource := response[i];
        if resource.Database? && resource.name == database {
          listed := Some(resource);
        } else if resource.Table? {
          if resource.database == database {
            tables := tables + [resource];
          }
        }
        i := i + 1;
      }
      assert response[..|response|] == response;
    }

    /** `create_lf_opt_in` */
    method CreateLfOptIn(database: string, table: string, principal: string, catalog: string) returns (ok: bool)
      modifies this
      ensures ok == CreateOptIn(old(optIns), database, table, principal, catalog).Ok?
      ensures optIns == CreateOptIn(old(optIns), database, table, principal, catalog).optIns
    {
      ok := true;
      var listed, tables := ListLfOptIns(database, principal);
      if listed.None? {
        ok := ClientCreateOptIn(principal, Database(catalog, database));
      }
      if ok {
        ok := ClientCreateOptIn(principal, Table(catalog, database, table));
      }
    }

    /** `delete_lf_opt_in` */
    method DeleteLfOptIn(database: string, table: string, principal: string, catalog: string) returns (ok: bool)
      modifies this
      ensures ok == DeleteOptIn(old(optIns), database, table, principal, catalog).Ok?
      ensures optIns == DeleteOptIn(old(optIns), database, table, principal, catalog).optIns
    {
      ok := true;
      var listed, tables := ListLfOptIns(database, principal);
      if |tables| == 1 {
        ok := ClientDeleteOptIn(principal, Database(catalog, database));
      }
      if ok {
        ok := ClientDeleteOptIn(principal, Table(catalog, database, table));
      }
    }
  }

  // ---------------------------------------------------------------- what a call does, whatever the state

  /** Of several databases under one name the last one listed counts. */
  lemma {:induction false} LastListed(rs: seq<Resource>, name: string)
    ensures match DatabaseListed(rs, name)
            case Some(d) =>
              exists i :: && 0 <= i < |rs| && rs[i] == d
                          && forall j :: i < j < |rs| ==> !(rs[j].Database? && rs[j].name == name)
            case None => true
  {
    if rs != [] {
      var front := rs[..|rs| - 1];
      LastListed(front, name);
      if DatabaseListed(front, name).Some? && !(rs[|rs| - 1].Database? && rs[|rs| - 1].name == name) {
        var i :| && 0 <= i < |front| && front[i] == DatabaseListed(front, name).value
                 && forall j :: i < j < |front| ==> !(front[j].Database? && front[j].name == name);
        assert rs[i] == front[i] && forall j :: i < j < |front| ==> rs[j] == front[j];
      }
    }
  }

  predicate NoneNamed(rs: seq<Resource>, name: string) {
    forall r :: r in rs ==> !(r.Database? && r.name == name)
  }

  /**
   * A creation succeeds exactly if the table is not opted in. Either way the database of the call is
   * opted in if none of its name was, nothing is lost, and nothing happens to other principals.
   */
  lemma {:induction false} CreateOutcome(s: OptIns, database: string, table: string, principal: string, catalog: string)
    ensures var rs, after := Of(s, principal), CreateOptIn(s, database, table, principal, catalog);
            && (after.Ok? <==> Table(catalog, database, table) !in rs)
            && (forall r :: r in Of(after.optIns, principal) <==>
                  || r in rs || r == Table(catalog, database, table)
                  || (r == Database(catalog, database) && NoneNamed(rs, database)))
            && (forall p: string :: p != principal ==> Of(after.optIns, p) == Of(s, p))
  {
  }

  /**
   * A deletion succeeds exactly if the table is opted in, and its database too if one table is listed.
   * In that last case the database goes, even if the table then fails; other principals keep all.
   */
  lemma {:induction false} DeleteOutcome(s: OptIns, database: string, table: string, principal: string, catalog: string)
    requires NoDuplicates(Of(s, principal))
    ensures var rs, after := Of(s, principal), DeleteOptIn(s, database, table, principal, catalog);
            var d, t, one := Database(catalog, database), Table(catalog, database, table), |TablesListed(rs, database)| == 1;
            && (after.Ok? <==> t in rs && (one ==> d in rs))
            && (forall r :: r in Of(after.optIns, principal) <==>
                  r in rs && !(r == d && one) && !(r == t && after.Ok?))
            && (forall p: string :: p != principal ==> Of(after.optIns, p) == Of(s, p))
  {
    var rs, d, t := Of(s, principal), Database(catalog, database), Table(catalog, database, table);
    hide TablesListed, RemoveFirst, NoDuplicates;
    if d in rs {
      RemoveFirstMembers(rs, d);
    }
    var left := if |TablesListed(rs, database)| == 1 && d in rs then RemoveFirst(rs, d) else rs;
    if t in left {
      RemoveFirstMembers(left, t);
    }
  }

  // ---------------------------------------------------------------- one catalog per database name

  datatype Op =
    | Create(principal: string, database: string, table: string)
    | Delete(principal: string, database: string, table: string)

  /** The catalog of each database name. */
  type Catalogs = string -> string

  function TableIn(catalogs: Catalogs, database: string, table: string): Resource {
    Table(catalogs(database), database, table)
  }

  function DatabaseIn(catalogs: Catalogs, database: string): Resource {
    Database(catalogs(database), database)
  }

  /** Tables are created when not opted in and deleted when opted in. */
  predicate ValidOp(s: OptIns, catalogs: Catalogs, op: Op) {
    match op
    case Create(p, d, t) => TableIn(catalogs, d, t) !in Of(s, p)
    case Delete(p, d, t) => TableIn(catalogs, d, t) in Of(s, p)
  }

  function Perform(s: OptIns, catalogs: Catalogs, op: Op): Result {
    match op
    case Create(p, d, t) => CreateOptIn(s, d, t, p, catalogs(d))
    case Delete(p, d, t) => DeleteOptIn(s, d, t, p, catalogs(d))
  }

  function Run(s: OptIns, catalogs: Catalogs, ops: seq<Op>): OptIns {
    if ops == [] then s else Perform(Run(s, catalogs, ops[..|ops| - 1]), catalogs, ops[|ops| - 1]).optIns
  }

  ghost predicate ValidRun(catalogs: Catalogs, ops: seq<Op>) {
    ops == [] || (&& ValidRun(catalogs, ops[..|ops| - 1])
                  && ValidOp(Run(map[], catalogs, ops[..|ops| - 1]), catalogs, ops[|ops| - 1]))
  }

  /** Nothing twice, and everything in the catalog of its database name. */
  ghost predicate Tidy(rs: seq<Resource>, catalogs: Catalogs) {
    && NoDuplicates(rs)
    && forall r :: r in rs ==> r.catalog == catalogs(DatabaseName(r))
  }

  /** The database is opted in exactly when one of its tables is. */
  ghost predicate Counted(rs: seq<Resource>, catalogs: Catalogs, database: string) {
    DatabaseIn(catalogs, database) in rs <==> exists t :: TableIn(catalogs, database, t) in rs
  }

  ghost predicate Kept(s: OptIns, catalogs: Catalogs) {
    && (forall p: string :: Tidy(Of(s, p), catalogs))
    && (forall p: string, d: string :: Counted(Of(s, p), catalogs, d))
  }

  lemma {:induction false} OneTable(rs: seq<Resource>, catalogs: Catalogs, database: string, table: string)
    requires Tidy(rs, catalogs) && TableIn(catalogs, database, table) in rs
    ensures |TablesListed(rs, database)| == 1 <==> forall t :: TableIn(catalogs, database, t) in rs ==> t == table
  {
    var tables := TablesListed(rs, database);
    FilterNoDuplicates(IsTableOf(database), rs);
    assert TableIn(catalogs, database, table) in tables;
    forall x | x in tables
      ensures x == TableIn(catalogs, database, x.name)
    {
    }
    if |tables| == 1 {
      assert forall t :: TableIn(catalogs, database, t) in rs ==> TableIn(catalogs, database, t) in tables;
    } else {
      var other := if tables[0] == TableIn(catalogs, database, table) then tables[1] else tables[0];
      assert other in tables && other == TableIn(catalogs, database, other.name);
    }
  }

  function CreatedList(rs: seq<Resource>, catalogs: Catalogs, op: Op): seq<Resource> {
    var database, table := DatabaseIn(catalogs, op.database), TableIn(catalogs, op.database, op.table);
    (if database in rs then rs else rs + [database]) + [table]
  }

  lemma {:induction false} Created(rs: seq<Resource>, catalogs: Catalogs, op: Op)
    requires NoDuplicates(rs) && TableIn(catalogs, op.database, op.table) !in rs
    ensures var n, table := CreatedList(rs, catalogs, op), TableIn(catalogs, op.database, op.table);
            && NoDuplicates(n)
            && (forall r :: r in n <==> r in rs || r == DatabaseIn(catalogs, op.database) || r == table)
  {
  }

  function DeletedList(rs: seq<Resource>, catalogs: Catalogs, op: Op): seq<Resource>
    requires NoDuplicates(rs) && TableIn(catalogs, op.database, op.table) in rs && DatabaseIn(catalogs, op.database) in rs
  {
    var database, table := DatabaseIn(catalogs, op.database), TableIn(catalogs, op.database, op.table);
    RemoveFirstMembers(rs, database);
    RemoveFirst(if |TablesListed(rs, op.database)| == 1 then RemoveFirst(rs, database) else rs, table)
  }

  lemma {:induction false} Deleted(rs: seq<Resource>, catalogs: Catalogs, op: Op)
    requires NoDuplicates(rs) && TableIn(catalogs, op.database, op.table) in rs && DatabaseIn(catalogs, op.database) in rs
    ensures var n, table := DeletedList(rs, catalogs, op), TableIn(catalogs, op.database, op.table);
            && NoDuplicates(n)
            && (forall r :: r in n <==> r in rs && r != table
                                        && !(r == DatabaseIn(catalogs, op.database) && |TablesListed(rs, op.database)| == 1))
  {
    var database, table := DatabaseIn(catalogs, op.database), TableIn(catalogs, op.database, op.table);
    RemoveFirstMembers(rs, database);
    RemoveFirstMembers(if |TablesListed(rs, op.database)| == 1 then RemoveFirst(rs, database) else rs, table);
  }

  lemma {:induction false} PerformCreate(s: OptIns, catalogs: Catalogs, op: Op)
    requires op.Create? && Tidy(Of(s, op.principal), catalogs) && ValidOp(s, catalogs, op)
    ensures Perform(s, catalogs, op) == Ok(s[op.principal := CreatedList(Of(s, op.principal), catalogs, op)])
  {
  }

  lemma {:induction false} PerformDelete(s: OptIns, catalogs: Catalogs, op: Op)
    requires op.Delete? && NoDuplicates(Of(s, op.principal)) && ValidOp(s, catalogs, op)
    requires DatabaseIn(catalogs, op.database) in Of(s, op.principal)
    ensures Perform(s, catalogs, op) == Ok(s[op.principal := DeletedList(Of(s, op.principal), catalogs, op)])
  {
    RemoveFirstMembers(Of(s, op.principal), DatabaseIn(catalogs, op.database));
  }

  /** The list of the operation's principal afterwards. */
  lemma {:induction false} OpMembers(s: OptIns, catalogs: Catalogs, op: Op) returns (n: seq<Resource>)
    requires Tidy(Of(s, op.principal), catalogs) && Counted(Of(s, op.principal), catalogs, op.database)
    requires ValidOp(s, catalogs, op)
    ensures Perform(s, catalogs, op) == Ok(s[op.principal := n]) && NoDuplicates(n)
    ensures TableIn(catalogs, op.database, op.table) in n <==> op.Create?
    ensures DatabaseIn(catalogs, op.database) in n <==>
              op.Create? || exists t :: t != op.table && TableIn(catalogs, op.database, t) in Of(s, op.principal)
    ensures forall r :: r != TableIn(catalogs, op.database, op.table) && r != DatabaseIn(catalogs, op.database) ==>
              (r in n <==> r in Of(s, op.principal))
  {
    var rs := Of(s, op.principal);
    if op.Create? {
      PerformCreate(s, catalogs, op);
      Created(rs, catalogs, op);
      n := CreatedList(rs, catalogs, op);
    } else {
      PerformDelete(s, catalogs, op);
      OneTable(rs, catalogs, op.database, op.table);
      Deleted(rs, catalogs, op);
      n := DeletedList(rs, catalogs, op);
    }
  }

  /**
   * What one valid call changes: its table; its database, when the table is the first or the last;
   * nothing else of this principal, and nothing at all of another.
   */
  lemma {:induction false} OpExact(s: OptIns, catalogs: Catalogs, op: Op)
    requires Kept(s, catalogs) && ValidOp(s, catalogs, op)
    ensures var after := Perform(s, catalogs, op);
            && after.Ok? && Kept(after.optIns, catalogs)
            && (forall p: string :: p != op.principal ==> Of(after.optIns, p) == Of(s, p))
            && (forall r :: DatabaseName(r) != op.database ==>
                  (r in Of(after.optIns, op.principal) <==> r in Of(s, op.principal)))
            && (forall t :: TableIn(catalogs, op.database, t) in Of(after.optIns, op.principal) <==>
                  if t == op.table then op.Create? else TableIn(catalogs, op.database, t) in Of(s, op.principal))
  {
    assert Tidy(Of(s, op.principal), catalogs) && Counted(Of(s, op.principal), catalogs, op.database);
    var n := OpMembers(s, catalogs, op);
    hide Perform;
    var after := s[op.principal := n];
    forall p: string
      ensures Tidy(Of(after, p), catalogs)
    {
      assert Tidy(Of(s, p), catalogs);
      if p == op.principal {
        StillCounted(Of(s, p), n, catalogs, op, op.database);
      }
    }
    forall p: string, d: string
      ensures Counted(Of(after, p), catalogs, d)
    {
      assert Tidy(Of(s, p), catalogs) && Counted(Of(s, p), catalogs, d);
      if p == op.principal {
        StillCounted(Of(s, p), n, catalogs, op, d);
      }
    }
    assert Kept(after, catalogs);
  }

  lemma {:induction false} StillCounted(rs: seq<Resource>, n: seq<Resource>, catalogs: Catalogs, op: Op, d: string)
    requires Tidy(rs, catalogs) && Counted(rs, catalogs, d) && NoDuplicates(n)
    requires TableIn(catalogs, op.database, op.table) in n <==> op.Create?
    requires DatabaseIn(catalogs, op.database) in n <==>
               op.Create? || exists t :: t != op.table && TableIn(catalogs, op.database, t) in rs
    requires forall r :: r != TableIn(catalogs, op.database, op.table) && r != DatabaseIn(catalogs, op.database) ==>
               (r in n <==> r in rs)
    ensures Tidy(n, catalogs) && Counted(n, catalogs, d)
  {
  }

  /** The last call about the table was its creation. */
  predicate OptedIn(ops: seq<Op>, principal: string, database: string, table: string) {
    if ops == [] then false
    else
      var op := ops[|ops| - 1];
      if op.principal == principal && op.database == database && op.table == table then op.Create?
      else OptedIn(ops[..|ops| - 1], principal, database, table)
  }

  lemma {:induction false} RunKept(catalogs: Catalogs, ops: seq<Op>)
    requires ValidRun(catalogs, ops)
    ensures Kept(Run(map[], catalogs, ops), catalogs)
  {
    hide Perform, ValidOp;
    if ops == [] {
      assert forall p: string :: Of(map[], p) == [];
    } else {
      RunKept(catalogs, ops[..|ops| - 1]);
      OpExact(Run(map[], catalogs, ops[..|ops| - 1]), catalogs, ops[|ops| - 1]);
    }
  }

  lemma {:induction false} RunTables(catalogs: Catalogs, ops: seq<Op>, principal: string, database: string,
                                     table: string)
    requires ValidRun(catalogs, ops)
    ensures TableIn(catalogs, database, table) in Of(Run(map[], catalogs, ops), principal) <==>
              OptedIn(ops, principal, database, table)
  {
    hide Perform, ValidOp, Kept;
    if ops != [] {
      var s, op := Run(map[], catalogs, ops[..|ops| - 1]), ops[|ops| - 1];
      RunKept(catalogs, ops[..|ops| - 1]);
      RunTables(catalogs, ops[..|ops| - 1], principal, database, table);
      OpExact(s, catalogs, op);
      assert DatabaseName(TableIn(catalogs, database, table)) == database;
    }
  }

  /**
   * Reference counting, over every valid run with one catalog per database name: each principal has
   * a table opted in exactly when its last call created it, and a database exactly when it has at
   * least one of its tables. (That no call of such a run fails is part of OpExact.)
   */
  lemma {:induction false} OptInsCounted(catalogs: Catalogs, ops: seq<Op>, principal: string, database: string)
    requires ValidRun(catalogs, ops)
    ensures var rs := Of(Run(map[], catalogs, ops), principal);
            && (forall t :: TableIn(catalogs, database, t) in rs <==> OptedIn(ops, principal, database, t))
            && (DatabaseIn(catalogs, database) in rs <==> exists t :: OptedIn(ops, principal, database, t))
            && NoDuplicates(rs)
  {
    var rs := Of(Run(map[], catalogs, ops), principal);
    RunKept(catalogs, ops);
    assert Tidy(rs, catalogs) && Counted(rs, catalogs, database);
    forall t
      ensures TableIn(catalogs, database, t) in rs <==> OptedIn(ops, principal, database, t)
    {
      RunTables(catalogs, ops, principal, database, t);
    }
  }

  // ---------------------------------------------------------------- two catalogs

  /**
   * Without that assumption: creating a table leaves its own database opted in exactly when no
   * database of that name was listed, in any catalog, or this very one was.
   */
  lemma {:induction false} CreateOptsIntoDatabase(s: OptIns, database: string, table: string, principal: string,
                                                  catalog: string)
    requires Table(catalog, database, table) !in Of(s, principal)
    ensures var after := CreateOptIn(s, database, table, principal, catalog);
            && after.Ok? && Table(catalog, database, table) in Of(after.optIns, principal)
            && (Database(catalog, database) in Of(after.optIns, principal) <==>
                  || Database(catalog, database) in Of(s, principal)
                  || forall r :: r in Of(s, principal) ==> !(r.Database? && r.name == database))
  {
  }

  /** So the second of two catalogs with the same database name is never opted into. */
  lemma {:induction false} SecondCatalogMissed(s: OptIns, database: string, principal: string, one: string,
                                               other: string, t: string, u: string)
    requires Of(s, principal) == [] && one != other
    ensures var first := CreateOptIn(s, database, t, principal, one).optIns;
            var second := CreateOptIn(first, database, u, principal, other).optIns;
            && Table(other, database, u) in Of(second, principal)
            && Database(other, database) !in Of(second, principal)
  {
    var first := CreateOptIn(s, database, t, principal, one).optIns;
    CreateOptsIntoDatabase(s, database, t, principal, one);
    assert Of(first, principal) == [Database(one, database), Table(one, database, t)];
    CreateOptsIntoDatabase(first, database, u, principal, other);
    assert Of(first, principal)[0] == Database(one, database);
  }

  /** The opt-in of one database of one catalog is as its tables say. */
  ghost predicate CountedIn(rs: seq<Resource>, catalog: string, database: string) {
    Database(catalog, database) in rs <==> exists t :: Table(catalog, database, t) in rs
  }

  /** No table under the name lies in another catalog. */
  predicate OwnName(rs: seq<Resource>, catalog: string, database: string) {
    forall r :: r in rs && r.Table? && r.database == database ==> r.catalog == catalog
  }

  ghost predicate AnotherTable(rs: seq<Resource>, catalog: string, database: string, table: string) {
    exists u :: u != table && Table(catalog, database, u) in rs
  }

  lemma {:induction false} OneListed(rs: seq<Resource>, table: Resource)
    requires NoDuplicates(rs) && table.Table? && table in rs
    ensures |TablesListed(rs, table.database)| == 1
       <==> forall r :: r in rs && r.Table? && r.database == table.database ==> r == table
  {
    var tables := TablesListed(rs, table.database);
    FilterNoDuplicates(IsTableOf(table.database), rs);
    assert table in tables;
    if |tables| == 1 {
      assert forall r :: r in rs && r.Table? && r.database == table.database ==> r in tables;
    } else {
      var other := if tables[0] == table then tables[1] else tables[0];
      assert other in tables;
    }
  }

  /** What a deletion leaves, whatever else is listed. */
  lemma {:induction false} DeleteMembers(s: OptIns, database: string, table: string, principal: string, catalog: string)
    requires NoDuplicates(Of(s, principal)) && Table(catalog, database, table) in Of(s, principal)
    requires Database(catalog, database) in Of(s, principal)
    ensures var rs, after := Of(s, principal), DeleteOptIn(s, database, table, principal, catalog);
            && after.Ok? && NoDuplicates(Of(after.optIns, principal))
            && (forall p: string :: p != principal ==> Of(after.optIns, p) == Of(s, p))
            && (forall r :: r in Of(after.optIns, principal) <==>
                  && r in rs && r != Table(catalog, database, table)
                  && !(r == Database(catalog, database) && |TablesListed(rs, database)| == 1))
  {
    var rs, d, t := Of(s, principal), Database(catalog, database), Table(catalog, database, table);
    hide TablesListed, RemoveFirst, NoDuplicates;
    RemoveFirstMembers(rs, d);
    RemoveFirstMembers(if |TablesListed(rs, database)| == 1 then RemoveFirst(rs, d) else rs, t);
  }

  /**
   * Deleting a table whose database is opted in keeps the database counted exactly when another
   * table of it is opted in, or no table under its name lies in another catalog. When its database
   * is not opted in, the call fails, and changes nothing, exactly when one table is listed.
   */
  lemma {:induction false} DeleteKeepsCounted(s: OptIns, database: string, table: string, principal: string,
                                              catalog: string)
    requires NoDuplicates(Of(s, principal)) && Table(catalog, database, table) in Of(s, principal)
    ensures var rs, after := Of(s, principal), DeleteOptIn(s, database, table, principal, catalog);
            && (Database(catalog, database) in rs ==>
                  && after.Ok?
                  && (CountedIn(Of(after.optIns, principal), catalog, database) <==>
                        AnotherTable(rs, catalog, database, table) || OwnName(rs, catalog, database)))
            && (Database(catalog, database) !in rs ==>
                  && (after.Ok? <==> |TablesListed(rs, database)| != 1)
                  && (after.ClientError? ==> after.optIns == s))
  {
    var rs := Of(s, principal);
    if Database(catalog, database) in rs {
      DeleteMembers(s, database, table, principal, catalog);
      OneListed(rs, Table(catalog, database, table));
      hide DeleteOptIn, TablesListed, NoDuplicates;
      var after := Of(DeleteOptIn(s, database, table, principal, catalog).optIns, principal);
      assert (exists u :: Table(catalog, database, u) in after) <==> AnotherTable(rs, catalog, database, table);
    }
  }

  lemma {:induction false} CreatedTwice(s: OptIns, database: string, principal: string, one: string, other: string,
                                        t: string, u: string)
    requires Of(s, principal) == [] && one != other
    ensures var first := CreateOptIn(s, database, t, principal, one).optIns;
            var second := CreateOptIn(first, database, u, principal, other).optIns;
            Of(second, principal) == [Database(one, database), Table(one, database, t), Table(other, database, u)]
  {
    var d, x := Database(one, database), Table(one, database, t);
    var first := CreateOptIn(s, database, t, principal, one).optIns;
    assert Of(first, principal) == [d, x];
    assert DatabaseListed([d, x], database).Some? by {
      assert [d, x][0] == d;
    }
  }

  lemma {:induction false} DeletedFirst(s: OptIns, database: string, principal: string, one: string, other: string,
                                        t: string, u: string)
    requires Of(s, principal) == [Database(one, database), Table(one, database, t), Table(other, database, u)] && one != other
    ensures var third := DeleteOptIn(s, database, t, principal, one);
            && third.Ok? && NoDuplicates(Of(third.optIns, principal))
            && (forall r :: r in Of(third.optIns, principal) <==> r == Database(one, database) || r == Table(other, database, u))
  {
    var rs, x, y := Of(s, principal), Table(one, database, t), Table(other, database, u);
    assert rs[1] == x && rs[2] == y && NoDuplicates(rs);
    DeleteMembers(s, database, t, principal, one);
    OneListed(rs, x);
    hide DeleteOptIn, TablesListed, NoDuplicates;
  }

  /**
   * The run that leaves something behind, for any two catalogs: after two creations and the deletion
   * of the first table, the first database is opted in without a table, and the second table cannot
   * be deleted.
   */
  lemma {:induction false} SecondTableStuck(s: OptIns, database: string, principal: string, one: string,
                                            other: string, t: string, u: string)
    requires Of(s, principal) == [] && one != other
    ensures var second := CreateOptIn(CreateOptIn(s, database, t, principal, one).optIns, database, u, principal, other).optIns;
            var third := DeleteOptIn(second, database, t, principal, one);
            && third.Ok? && Database(one, database) in Of(third.optIns, principal)
            && (forall x :: Table(one, database, x) !in Of(third.optIns, principal))
            && Table(other, database, u) in Of(third.optIns, principal)
            && DeleteOptIn(third.optIns, database, u, principal, other) == ClientError(third.optIns)
  {
    var second := CreateOptIn(CreateOptIn(s, database, t, principal, one).optIns, database, u, principal, other).optIns;
    CreatedTwice(s, database, principal, one, other, t, u);
    hide CreateOptIn, DeleteOptIn, TablesListed, NoDuplicates;
    DeletedFirst(second, database, principal, one, other, t, u);
    var third := DeleteOptIn(second, database, t, principal, one).optIns;
    OneListed(Of(third, principal), Table(other, database, u));
    DeleteKeepsCounted(third, database, u, principal, other);
  }

  // ---------------------------------------------------------------- any catalogs

  /** A call with the catalog it names. */
  datatype Call = Call(create: bool, principal: string, database: string, table: string, catalog: string)

  function CallTable(c: Call): Resource {
    Table(c.catalog, c.database, c.table)
  }

  function Answer(s: OptIns, c: Call): Result {
    if c.create then CreateOptIn(s, c.database, c.table, c.principal, c.catalog)
    else DeleteOptIn(s, c.database, c.table, c.principal, c.catalog)
  }

  function AfterCalls(calls: seq<Call>): OptIns {
    if calls == [] then map[] else Answer(AfterCalls(calls[..|calls| - 1]), calls[|calls| - 1]).optIns
  }

  /** Tables are created when not opted in and deleted when opted in. */
  predicate ValidCalls(calls: seq<Call>) {
    calls == [] || (&& ValidCalls(calls[..|calls| - 1])
                    && var c := calls[|calls| - 1];
                       (CallTable(c) in Of(AfterCalls(calls[..|calls| - 1]), c.principal) <==> !c.create))
  }

  /** A table is created only while its principal has none under the same database name in another catalog. */
  predicate Careful(s: OptIns, c: Call) {
    c.create ==> OwnName(Of(s, c.principal), c.catalog, c.database)
  }

  predicate CarefulCalls(calls: seq<Call>) {
    calls == [] || (CarefulCalls(calls[..|calls| - 1]) && Careful(AfterCalls(calls[..|calls| - 1]), calls[|calls| - 1]))
  }

  /** Every database of every catalog is opted in exactly when one of its tables is. */
  ghost predicate AllCounted(s: OptIns) {
    forall p: string, catalog: string, database: string :: CountedIn(Of(s, p), catalog, database)
  }

  /** At all times. */
  ghost predicate AlwaysCounted(calls: seq<Call>) {
    AllCounted(AfterCalls(calls)) && (calls == [] || AlwaysCounted(calls[..|calls| - 1]))
  }

  /** Nothing is listed twice, and the tables under a name share one catalog. */
  ghost predicate Orderly(rs: seq<Resource>) {
    && NoDuplicates(rs)
    && (forall x, y :: x in rs && y in rs && x.Table? && y.Table? && x.database == y.database ==> x.catalog == y.catalog)
    && (forall catalog: string, database: string :: CountedIn(rs, catalog, database))
  }

  ghost predicate AllOrderly(s: OptIns) {
    forall p: string :: Orderly(Of(s, p))
  }

  function CreatedIn(rs: seq<Resource>, c: Call): seq<Resource> {
    (if DatabaseListed(rs, c.database).None? then rs + [Database(c.catalog, c.database)] else rs) + [CallTable(c)]
  }

  lemma {:induction false} CreateAnswer(s: OptIns, c: Call)
    requires c.create && CallTable(c) !in Of(s, c.principal)
    ensures Answer(s, c) == Ok(s[c.principal := CreatedIn(Of(s, c.principal), c)])
  {
  }

  lemma {:induction false} CarefulCreate(rs: seq<Resource>, c: Call)
    requires Orderly(rs) && CallTable(c) !in rs && OwnName(rs, c.catalog, c.database)
    ensures Orderly(CreatedIn(rs, c))
  {
    var n, db := CreatedIn(rs, c), Database(c.catalog, c.database);
    assert db in n && forall r :: r in n <==> r in rs || r == CallTable(c) || r == db by {
      var listed := DatabaseListed(rs, c.database);
      if listed.Some? {
        assert CountedIn(rs, listed.value.catalog, c.database);
      }
    }
    forall catalog: string, database: string
      ensures CountedIn(n, catalog, database)
    {
      assert CountedIn(rs, catalog, database);
      if catalog == c.catalog && database == c.database {
        assert CallTable(c) in n;
      }
    }
  }

  lemma {:induction false} CarelessCreate(rs: seq<Resource>, c: Call)
    requires Orderly(rs) && CallTable(c) !in rs && !OwnName(rs, c.catalog, c.database)
    ensures !CountedIn(CreatedIn(rs, c), c.catalog, c.database)
  {
    var r :| r in rs && r.Table? && r.database == c.database && r.catalog != c.catalog;
    assert r == Table(r.catalog, c.database, r.name);
    assert CountedIn(rs, r.catalog, c.database) && CountedIn(rs, c.catalog, c.database);
    assert CallTable(c) in CreatedIn(rs, c);
  }

  lemma {:induction false} OrderlyDelete(rs: seq<Resource>, n: seq<Resource>, c: Call)
    requires Orderly(rs) && CallTable(c) in rs && NoDuplicates(n)
    requires forall r :: r in n <==>
               && r in rs && r != CallTable(c)
               && !(r == Database(c.catalog, c.database) && |TablesListed(rs, c.database)| == 1)
    ensures Orderly(n)
  {
    OneListed(rs, CallTable(c));
    hide TablesListed, NoDuplicates;
    forall catalog: string, database: string
      ensures CountedIn(n, catalog, database)
    {
      assert CountedIn(rs, catalog, database);
      if t :| Table(catalog, database, t) in rs && Table(catalog, database, t) != CallTable(c) {
        assert Table(catalog, database, t) in n;
      }
    }
  }

  /** One valid call on an orderly service keeps it so if it is careful, and miscounts if it is not. */
  lemma {:induction false} CallExact(s: OptIns, c: Call)
    requires AllOrderly(s) && (CallTable(c) in Of(s, c.principal) <==> !c.create)
    ensures if Careful(s, c) then AllOrderly(Answer(s, c).optIns) && Answer(s, c).Ok? else !AllCounted(Answer(s, c).optIns)
  {
    var rs, after := Of(s, c.principal), Answer(s, c).optIns;
    assert Orderly(rs);
    hide Orderly;
    if !c.create {
      DeleteOrderly(s, c);
    } else {
      CreateAnswer(s, c);
      assert Of(after, c.principal) == CreatedIn(rs, c);
      assert forall p: string :: p != c.principal ==> Of(after, p) == Of(s, p);
      if Careful(s, c) {
        CarefulCreate(rs, c);
      } else {
        CarelessCreate(rs, c);
      }
    }
  }

  lemma {:induction false} DeleteOrderly(s: OptIns, c: Call)
    requires AllOrderly(s) && CallTable(c) in Of(s, c.principal) && !c.create
    ensures AllOrderly(Answer(s, c).optIns) && Answer(s, c).Ok?
  {
    var rs := Of(s, c.principal);
    assert Orderly(rs) && CountedIn(rs, c.catalog, c.database);
    DeleteMembers(s, c.database, c.table, c.principal, c.catalog);
    OrderlyDelete(rs, Of(Answer(s, c).optIns, c.principal), c);
    hide Orderly, DeleteOptIn;
  }

  /** Over a careful run everything stays orderly. */
  lemma {:induction false} CarefulOrderly(calls: seq<Call>)
    requires ValidCalls(calls) && CarefulCalls(calls)
    ensures AllOrderly(AfterCalls(calls))
  {
    hide Answer, Orderly;
    if calls == [] {
      NothingOrderly();
    } else {
      CarefulOrderly(calls[..|calls| - 1]);
      CallExact(AfterCalls(calls[..|calls| - 1]), calls[|calls| - 1]);
    }
  }

  lemma {:induction false} NothingOrderly()
    ensures AllOrderly(map[])
  {
  }

  lemma {:induction false} OrderlyCounted(s: OptIns)
    requires AllOrderly(s)
    ensures AllCounted(s)
  {
    forall p: string, catalog: string, database: string
      ensures CountedIn(Of(s, p), catalog, database)
    {
      assert Orderly(Of(s, p));
    }
  }

  /**
   * Reference counting exactly: over any valid run, with whatever catalogs, the opt-ins of databases
   * are right at all times if and only if every creation found no table of its principal under the
   * same database name in another catalog.
   */
  lemma {:induction false} AlwaysCountedIffCareful(calls: seq<Call>)
    requires ValidCalls(calls)
    ensures AlwaysCounted(calls) <==> CarefulCalls(calls)
  {
    hide Answer, AllOrderly, AllCounted;
    if calls == [] {
      NothingOrderly();
      OrderlyCounted(map[]);
    } else {
      var front, c := calls[..|calls| - 1], calls[|calls| - 1];
      AlwaysCountedIffCareful(front);
      if CarefulCalls(front) {
        CarefulOrderly(front);
        CallExact(AfterCalls(front), c);
        if Careful(AfterCalls(front), c) {
          OrderlyCounted(AfterCalls(calls));
        }
      }
    }
  }
}
