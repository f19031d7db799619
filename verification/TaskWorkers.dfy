/**
 The code that takes the steps of the message protocol: sending tasks, saving and removing access rows,
 the handlers, and retrying and cancelling. Every method is proved to move the platform, with
 the policy documents stored in IAM, as the transition system of AccessTasks says.
 */
module TaskWorkers {
  import opened Options
  import opened Strings
  import opened PolicyDocument
  import opened RoleGrants
  import opened GrantRefinement
  import opened AccessPolicy
  import opened AccessTasks

  // ---------------------------------------------------------------- what the methods do, on states

  function Recorded(s: State, id: nat): State {
    s.(tasks := s.tasks[id := Task(false, false)])
  }

  /** `create_task`: the message first, then its row. */
  function WithTask(s: State, p: Payload): State {
    Recorded(Send(s, p), |s.sent|)
  }

  function WithRevokeTasks(s: State, pairs: seq<Pair>): State {
    if pairs == [] then s else WithTask(WithRevokeTasks(s, pairs[..|pairs| - 1]), RevokeAccess(pairs[|pairs| - 1]))
  }

  function RecordedFrom(tasks: map<nat, Task>, first: nat, count: nat): map<nat, Task> {
    if count == 0 then tasks else RecordedFrom(tasks, first, count - 1)[first + count - 1 := Task(false, false)]
  }

  /** Creating tasks one by one is sending the messages and then recording each of them. */
  lemma {:induction false} RevokeTasksSplit(s: State, pairs: seq<Pair>)
    ensures WithRevokeTasks(s, pairs)
         == SendRevokes(s, pairs).(tasks := RecordedFrom(s.tasks, |s.sent|, |pairs|))
    ensures |SendRevokes(s, pairs).sent| == |s.sent| + |pairs|
  {
    if pairs != [] {
      RevokeTasksSplit(s, pairs[..|pairs| - 1]);
    }
  }

  /** `save` of a new row, and of an existing one. */
  function Inserted(s: State, pair: Pair, grant: Grant): State {
    Recorded(Created(s, pair, grant), |s.sent|)
  }

  function Resaved(s: State, pk: nat, grant: Grant): State
    requires pk in s.rows
  {
    Recorded(Updated(s, pk, grant), |s.sent|)
  }

  /** Removing rows one after the other, each with its revoke task. */
  function DeletedAll(s: State, pks: seq<nat>): (r: State)
    requires NoDuplicates(pks) && forall pk :: pk in pks ==> pk in s.rows
    ensures forall pk :: pk in r.rows <==> pk in s.rows && pk !in pks
    ensures forall pk :: pk in r.rows ==> r.rows[pk] == s.rows[pk]
  {
    if pks == [] then s
    else
      var before := DeletedAll(s, pks[..|pks| - 1]);
      Recorded(Deleted(before, pks[|pks| - 1]), |before.sent|)
  }

  function Without(rows: map<nat, Row>, pks: seq<nat>): map<nat, Row> {
    map pk | pk in rows && pk !in pks :: rows[pk]
  }

  /** The first i signals were handled, and no row has gone yet. */
  function SignalsSent(s: State, pks: seq<nat>, i: nat): State
    requires NoDuplicates(pks) && i <= |pks| && forall pk :: pk in pks ==> pk in s.rows
  {
    DeletedAll(s, pks[..i]).(rows := s.rows)
  }

  lemma {:induction false} SignalsNone(s: State, pks: seq<nat>)
    requires NoDuplicates(pks) && forall pk :: pk in pks ==> pk in s.rows
    ensures SignalsSent(s, pks, 0) == s
  {
  }

  lemma {:induction false} SignalsStep(s: State, pks: seq<nat>, i: nat)
    requires NoDuplicates(pks) && i < |pks| && forall pk :: pk in pks ==> pk in s.rows
    ensures SignalsSent(s, pks, i + 1) == WithTask(SignalsSent(s, pks, i), RevokeAccess(s.rows[pks[i]].pair))
  {
    assert pks[..i + 1][..i] == pks[..i];
    assert pks[i] !in pks[..i];
  }

  lemma {:induction false} SignalsAll(s: State, pks: seq<nat>)
    requires NoDuplicates(pks) && forall pk :: pk in pks ==> pk in s.rows
    ensures SignalsSent(s, pks, |pks|).(rows := Without(s.rows, pks)) == DeletedAll(s, pks)
  {
    assert pks[..|pks|] == pks;
    assert DeletedAll(s, pks).rows == Without(s.rows, pks);
  }

  lemma {:induction false} DeletedOne(s: State, pk: nat)
    requires pk in s.rows
    ensures DeletedAll(s, [pk]) == WithTask(s, RevokeAccess(s.rows[pk].pair)).(rows := s.rows - {pk})
  {
  }

  function Marked(s: State, id: nat): State {
    s.(tasks := Tasks(s, id, Finished(false)))
  }

  // ---------------------------------------------------------------- the same, as events

  lemma {:induction false} AfterTwo(names: set<string>, s: State, events: seq<Event>, a: Event, b: Event)
    ensures After(names, s, events + [a, b]) == Next(names, Next(names, After(names, s, events), a), b)
  {
    hide Next;
    AfterOne(names, s, events, a);
    AfterOne(names, s, events + [a], b);
    assert events + [a] + [b] == events + [a, b];
  }

  lemma {:induction false} DeleteEvents(names: set<string>, s: State, pk: nat)
    requires IdsInRange(s) && pk in s.rows
    ensures Next(names, Next(names, s, Delete(pk)), Record(|s.sent|)) == Recorded(Deleted(s, pk), |s.sent|)
    ensures IdsInRange(Recorded(Deleted(s, pk), |s.sent|))
  {
  }

  lemma {:induction false} InsertEvents(names: set<string>, s: State, pair: Pair, grant: Grant)
    requires IdsInRange(s) && pair.name in names && ValidPaths(grant.paths) && !HasRow(s, pair)
    ensures Next(names, Next(names, s, Create(pair, grant)), Record(|s.sent|)) == Inserted(s, pair, grant)
  {
  }

  lemma {:induction false} ResaveEvents(names: set<string>, s: State, pk: nat, grant: Grant)
    requires IdsInRange(s) && pk in s.rows && ValidPaths(grant.paths)
    ensures Next(names, Next(names, s, Update(pk, grant)), Record(|s.sent|)) == Resaved(s, pk, grant)
  {
  }

  /** A removal and a record for each row. */
  function DeletionEvents(s: State, pks: seq<nat>): seq<Event>
    requires NoDuplicates(pks) && forall pk :: pk in pks ==> pk in s.rows
  {
    if pks == [] then []
    else
      var front, last := pks[..|pks| - 1], pks[|pks| - 1];
      DeletionEvents(s, front) + [Delete(last), Record(|DeletedAll(s, front).sent|)]
  }

  /** Removing many rows at once is a run of the protocol. */
  lemma {:induction false} DeletedAllEvents(names: set<string>, s: State, pks: seq<nat>)
    requires IdsInRange(s)
    requires NoDuplicates(pks) && forall pk :: pk in pks ==> pk in s.rows
    ensures After(names, s, DeletionEvents(s, pks)) == DeletedAll(s, pks)
    ensures IdsInRange(DeletedAll(s, pks))
  {
    hide Next, Deleted, Recorded, IdsInRange;
    if pks != [] {
      var front, last := pks[..|pks| - 1], pks[|pks| - 1];
      DeletedAllEvents(names, s, front);
      var t := DeletedAll(s, front);
      AfterTwo(names, s, DeletionEvents(s, front), Delete(last), Record(|t.sent|));
      DeleteEvents(names, t, last);
    }
  }

  /** A handled revoke-all is the protocol's step followed by recording what it sent. */
  lemma {:induction false} SweepSplit(s: State, id: nat, pairs: seq<Pair>)
    requires id < |s.sent| && s.sent[id].RevokeAll? && !Guarded(s, id)
    ensures Marked(WithRevokeTasks(s, pairs), id)
         == HandleMessage(s, id, Finished(false), pairs).(tasks := RecordedFrom(Tasks(s, id, Finished(false)), |s.sent|, |pairs|))
  {
    RevokeTasksSplit(s, pairs);
    SendRevokesShape(s, pairs);
    RecordedLater(s.tasks, id, |s.sent|, |pairs|);
  }

  lemma {:induction false} RecordedLater(tasks: map<nat, Task>, id: nat, first: nat, count: nat)
    requires id < first
    ensures var r := RecordedFrom(tasks, first, count);
            && (id in r <==> id in tasks)
            && (id in r ==> r[id] == tasks[id])
            && (id in tasks ==> RecordedFrom(tasks[id := tasks[id].(completed := true)], first, count)
                                == r[id := tasks[id].(completed := true)])
  {
    if count > 0 {
      RecordedLater(tasks, id, first, count - 1);
    }
  }

  // ---------------------------------------------------------------- the platform

  /** What a deletion started from: the row itself, or a queryset or another object. */
  datatype Origin = Instance(pk: nat) | Elsewhere

  /** The database and the message broker, as far as access rows go. */
  class Platform {
    var rows: map<nat, Row>
    var nextPk: nat
    var sent: seq<Payload>
    var queue: multiset<nat>
    var tasks: map<nat, Task>

    constructor ()
      ensures Value() == START
    {
      rows, nextPk, sent, queue, tasks := map[], 0, [], multiset{}, map[];
    }

    /** The state without the roles, which are Iam's. */
    function Value(): State
      reads this
    {
      State(rows, nextPk, sent, queue, tasks, map[])
    }

    /** The task, if it is recorded, is completed or cancelled. */
    predicate Closed(id: nat)
      reads this`tasks
    {
      id in tasks ==> tasks[id].completed || tasks[id].cancelled
    }

    // -------------------------------------------------------------- tasks

    method SendMessage(p: Payload) returns (id: nat)
      modifies this`sent, this`queue
      ensures id == |old(sent)|
      ensures Value() == Send(old(Value()), p)
      ensures sent == old(sent) + [p] && queue == old(queue) + multiset{id}
    {
      id := |sent|;
      sent := sent + [p];
      queue := queue + multiset{id};
    }

    method CreateTask(p: Payload)
      modifies this`sent, this`queue, this`tasks
      ensures Value() == WithTask(old(Value()), p)
      ensures sent == old(sent) + [p] && queue == old(queue) + multiset{|old(sent)|}
      ensures tasks == old(tasks)[|old(sent)| := Task(false, false)]
    {
      hide Send;
      var id := SendMessage(p);
      tasks := tasks[id := Task(false, false)];
    }

    /** `send_task`: the same message, with the same task id. */
    method Resend(id: nat)
      modifies this`queue
      ensures Value() == old(Value()).(queue := old(queue) + multiset{id})
    {
      queue := queue + multiset{id};
    }

    method RetryTask(id: nat)
      requires id in tasks
      modifies this`tasks, this`queue
      ensures Value() == Retried(old(Value()), id)
      ensures tasks == old(tasks)[id := Task(old(tasks)[id].completed, false)] && queue == old(queue) + multiset{id}
    {
      tasks := tasks[id := tasks[id].(cancelled := false)];
      Resend(id);
    }

    method CancelTask(id: nat)
      requires id in tasks
      modifies this`tasks
      ensures Value() == CancelledTask(old(Value()), id)
      ensures tasks == old(tasks)[id := Task(old(tasks)[id].completed, true)]
    {
      tasks := tasks[id := tasks[id].(cancelled := true)];
    }

    // -------------------------------------------------------------- access rows

    /** `save` of a new row; the pair must not have one. */
    method SaveNew(pair: Pair, grant: Grant) returns (saved: bool)
      modifies this`rows, this`nextPk, this`sent, this`queue, this`tasks
      ensures saved <==> !HasRow(old(Value()), pair)
      ensures Value() == if saved then Inserted(old(Value()), pair, grant) else old(Value())
    {
      if exists pk :: pk in rows && rows[pk].pair == pair {
        return false;
      }
      var pk := nextPk;
      rows := rows[pk := Row(pair, grant)];
      nextPk := pk + 1;
      CreateTask(GrantAccess(pk));
      saved := true;
    }

    method SaveExisting(pk: nat, grant: Grant)
      requires pk in rows
      modifies this`rows, this`sent, this`queue, this`tasks
      ensures Value() == Resaved(old(Value()), pk, grant)
    {
      rows := rows[pk := rows[pk].(grant := grant)];
      CreateTask(GrantAccess(pk));
    }

    method RevokeBucketAccess(pk: nat)
      requires pk in rows
      modifies this`sent, this`queue, this`tasks
      ensures Value() == WithTask(old(Value()), RevokeAccess(rows[pk].pair))
    {
      hide WithTask;
      CreateTask(RevokeAccess(rows[pk].pair));
    }

    /** The `revoke_access` signal: rows that go with something else. */
    method PreDelete(pk: nat, origin: Origin)
      requires pk in rows
      modifies this`sent, this`queue, this`tasks
      ensures Value() == if origin == Instance(pk) then old(Value())
                         else WithTask(old(Value()), RevokeAccess(rows[pk].pair))
    {
      hide WithTask;
      if origin != Instance(pk) {
        RevokeBucketAccess(pk);
      }
    }

    /** `AccessToS3Bucket.delete`, with the signal that Django sends on the way. */
    method DeleteRow(pk: nat)
      requires pk in rows
      modifies this`rows, this`sent, this`queue, this`tasks
      ensures Value() == DeletedAll(old(Value()), [pk])
    {
      DeletedOne(Value(), pk);
      hide DeletedAll, WithTask;
      RevokeBucketAccess(pk);
      PreDelete(pk, Instance(pk));
      rows := rows - {pk};
    }

    method SendSignals(pks: seq<nat>)
      requires NoDuplicates(pks) && forall pk :: pk in pks ==> pk in rows
      modifies this`sent, this`queue, this`tasks
      ensures Value() == SignalsSent(old(Value()), pks, |pks|)
    {
      ghost var s := Value();
      SignalsNone(s, pks);
      hide DeletedAll, SignalsSent, WithTask;
      var i := 0;
      while i < |pks|
        invariant 0 <= i <= |pks|
        invariant Value() == SignalsSent(s, pks, i)
      {
        SignalsStep(s, pks, i);
        PreDelete(pks[i], Elsewhere);
        i := i + 1;
      }
    }

    /** Removal by a queryset or a cascade: a signal for every row, then the rows go. */
    method DeleteMany(pks: seq<nat>)
      requires NoDuplicates(pks) && forall pk :: pk in pks ==> pk in rows
      modifies this`rows, this`sent, this`queue, this`tasks
      ensures Value() == DeletedAll(old(Value()), pks)
    {
      SignalsAll(Value(), pks);
      hide DeletedAll, SignalsSent, Without;
      SendSignals(pks);
      ghost var t := Value();
      rows := Without(rows, pks);
      assert Value() == t.(rows := rows);
    }

  }

  // ---------------------------------------------------------------- roles

  /** The four calls by which handlers change a role's policy. */
  datatype PolicyCall =
    | GrantBucketCall(arn: string, level: Level, pathArns: seq<string>)
    | GrantFolderCall(root: string, level: Level, paths: seq<string>)
    | RevokeBucketCall(arn: string)
    | RevokeFolderCall(root: string)

  function CallOf(op: Op): PolicyCall {
    match op
    case GrantOp(name, grant) =>
      if HasSlash(name) then GrantFolderCall(name, grant.level, grant.paths)
      else GrantBucketCall(Arn(name), grant.level, ResourceArns(name, grant.paths))
    case RevokeOp(name) =>
      if HasSlash(name) then RevokeFolderCall(name) else RevokeBucketCall(Arn(name))
  }

  /**
   * Every user has a role of his own, which may be missing in IAM, and whose policy can be loaded;
   * `model` is what they store.
   */
  class Iam {
    const roles: map<nat, Role>
    ghost const Repr: set<object>
    ghost var model: map<nat, RoleState>

    ghost predicate Valid()
      reads this, Repr
    {
      && model.Keys == roles.Keys
      && (forall u :: u in roles ==> roles[u] in Repr && roles[u].s3Access in Repr)
      && (forall u :: u in roles ==> CanLoad(roles[u].s3Access))
      && (forall u :: u in roles ==> model[u].document == Current(roles[u].s3Access.stored))
      && (forall u, v :: u in roles && v in roles && u != v ==> roles[u].s3Access != roles[v].s3Access)
    }

    /** The user has not been removed, and has a role. */
    predicate HasRole(user: nat) {
      user in roles && roles[user].exists_
    }

    /** A call on `cluster.User`, down to the stored policy of the role, if there is one. */
    method ChangePolicy(user: nat, call: PolicyCall, ghost op: Op) returns (outcome: AccessPolicy.Outcome)
      requires Valid() && user in roles && call == CallOf(op)
      modifies Repr, this`model
      ensures Valid()
      ensures outcome == if HasRole(user) then Done else if op.GrantOp? then NoSuchEntity else NothingToRevoke
      ensures model == if HasRole(user) then old(model)[user := Affected(old(model)[user], op)] else old(model)
    {
      hide PerformOp, Loadable, Abstractly, CallOf;
      OpLoadable(Current(roles[user].s3Access.stored), op);
      outcome := ChangeRole(roles[user], call, op);
      if roles[user].exists_ {
        model := model[user := Affected(model[user], op)];
      }
    }
  }

  lemma {:induction false} OpLoadable(d: Document, op: Op)
    requires Loadable(d)
    ensures Loadable(PerformOp(d, op))
  {
    OpStored(d, op);
  }

  method ChangeRole(role: Role, call: PolicyCall, ghost op: Op) returns (outcome: AccessPolicy.Outcome)
    requires CanLoad(role.s3Access) && call == CallOf(op)
    modifies role.s3Access
    ensures outcome == if role.exists_ then Done else if op.GrantOp? then NoSuchEntity else NothingToRevoke
    ensures role.s3Access.stored == if role.exists_ then Some(PerformOp(Current(old(role.s3Access.stored)), op))
                                    else old(role.s3Access.stored)
  {
    hide GrantBucket, GrantFolder, RevokeBucket, RevokeFolder, LevelNamed;
    LevelsNamed();
    match call {
      case GrantBucketCall(arn, level, pathArns) => outcome := GrantBucketAccess(role, arn, Name(level), pathArns);
      case GrantFolderCall(root, level, paths) => outcome := GrantFolderAccess(role, root, Name(level), paths);
      case RevokeBucketCall(arn) => outcome := AccessPolicy.RevokeBucketAccess(role, arn);
      case RevokeFolderCall(root) => outcome := RevokeFolderAccess(role, root);
    }
  }

  lemma {:induction false} LevelsNamed()
    ensures forall l: Level :: LevelNamed(Name(l)) == Some(l)
    ensures forall l: Level :: Name(l) == "readonly" || Name(l) == "readwrite"
  {
  }

  // ---------------------------------------------------------------- handlers

  /** `_get_args_list`: what a message carries. */
  datatype Args =
    | GrantArgs(objPk: nat)
    | RevokeArgs(identifier: string, user: nat, isFolder: bool)
    | RevokeAllArgs(bucket: string)

  function ArgsOf(p: Payload): Args {
    match p
    case GrantAccess(pk) => GrantArgs(pk)
    case RevokeAccess(pair) =>
      RevokeArgs(if HasSlash(pair.name) then pair.name else Arn(pair.name), pair.user, HasSlash(pair.name))
    case RevokeAll(bucket) => RevokeAllArgs(bucket)
  }

  /** A run of the handler up to acknowledgement: the protocol's step, and what it created recorded. */
  function Ran(s: State, id: nat, sweep: seq<Pair>): State
    requires id < |s.sent|
  {
    if !Guarded(s, id) && s.sent[id].RevokeAll? then Marked(WithRevokeTasks(s, sweep), id)
    else HandleMessage(s, id, Finished(false), sweep)
  }

  function RecordEvents(first: nat, count: nat): seq<Event> {
    if count == 0 then [] else RecordEvents(first, count - 1) + [Record(first + count - 1)]
  }

  lemma {:induction false} RecordOne(names: set<string>, s: State, id: nat)
    requires id < |s.sent| && id !in s.tasks
    ensures Next(names, s, Record(id)) == Recorded(s, id)
  {
  }

  lemma {:induction false} RecordedDomain(tasks: map<nat, Task>, first: nat, count: nat)
    ensures forall id: nat :: id in RecordedFrom(tasks, first, count) <==> id in tasks || first <= id < first + count
  {
    if count > 0 {
      RecordedDomain(tasks, first, count - 1);
    }
  }

  lemma {:induction false} RecordedByEvents(names: set<string>, s: State, first: nat, count: nat)
    requires first + count <= |s.sent|
    requires forall id: nat :: first <= id < first + count ==> id !in s.tasks
    ensures After(names, s, RecordEvents(first, count)) == s.(tasks := RecordedFrom(s.tasks, first, count))
  {
    hide Next;
    if count > 0 {
      RecordedByEvents(names, s, first, count - 1);
      var t := s.(tasks := RecordedFrom(s.tasks, first, count - 1));
      AfterOne(names, s, RecordEvents(first, count - 1), Record(first + count - 1));
      RecordedDomain(s.tasks, first, count - 1);
      RecordOne(names, t, first + count - 1);
    }
  }

  lemma {:induction false} AfterAppend(names: set<string>, s: State, a: seq<Event>, b: seq<Event>)
    ensures After(names, s, a + b) == After(names, After(names, s, a), b)
  {
    hide Next;
    if b == [] {
      assert a + b == a;
    } else {
      assert a + b == a + b[..|b| - 1] + [b[|b| - 1]];
      AfterOne(names, s, a + b[..|b| - 1], b[|b| - 1]);
      AfterAppend(names, s, a, b[..|b| - 1]);
    }
  }

  lemma {:induction false} DeliveredOnce(names: set<string>, s: State, id: nat, sweep: seq<Pair>)
    requires id in s.queue && id < |s.sent|
    requires s.sent[id].RevokeAll? ==> SweepOf(s, s.sent[id].bucket, sweep, Finished(false))
    ensures After(names, s, [Deliver(id, Finished(false), sweep)]) == HandleMessage(s, id, Finished(false), sweep)
  {
  }

  /** Running a handler is a run of the protocol: a delivery, then a record for each task it created. */
  lemma {:induction false} RanByEvents(names: set<string>, s: State, id: nat,
                                       sweep: seq<Pair>) returns (events: seq<Event>)
    requires IdsInRange(s) && id in s.queue
    requires s.sent[id].RevokeAll? ==> SweepOf(s, s.sent[id].bucket, sweep, Finished(false))
    ensures After(names, s, events) == Ran(s, id, sweep)
    ensures |events| > 0 && events[0] == Deliver(id, Finished(false), sweep)
    ensures forall i :: 0 < i < |events| ==> events[i].Record?
  {
    hide HandleMessage, WithRevokeTasks, Marked, SweepOf;
    DeliveredOnce(names, s, id, sweep);
    events := [Deliver(id, Finished(false), sweep)];
    if !Guarded(s, id) && s.sent[id].RevokeAll? {
      var t := HandleMessage(s, id, Finished(false), sweep);
      SweepSplit(s, id, sweep);
      SweptShape(s, id, sweep);
      RecordedByEvents(names, t, |s.sent|, |sweep|);
      RecordEventsOnly(|s.sent|, |sweep|);
      AfterAppend(names, s, events, RecordEvents(|s.sent|, |sweep|));
      events := events + RecordEvents(|s.sent|, |sweep|);
    }
  }

  lemma {:induction false} RecordEventsOnly(first: nat, count: nat)
    ensures forall e :: e in RecordEvents(first, count) ==> e.Record?
  {
    if count > 0 {
      RecordEventsOnly(first, count - 1);
    }
  }

  lemma {:induction false} SweptShape(s: State, id: nat, sweep: seq<Pair>)
    requires IdsInRange(s) && id < |s.sent| && s.sent[id].RevokeAll? && !Guarded(s, id)
    ensures var t := HandleMessage(s, id, Finished(false), sweep);
            && |t.sent| == |s.sent| + |sweep|
            && t.tasks == Tasks(s, id, Finished(false))
            && forall j: nat :: |s.sent| <= j ==> j !in t.tasks
  {
    SendRevokesShape(s, sweep);
  }

  lemma {:induction false} RanStopped(p: State, r: map<nat, RoleState>, id: nat)
    requires id < |p.sent|
    ensures Guarded(p.(roles := r), id) == Guarded(p, id) == (id in p.tasks && (p.tasks[id].completed || p.tasks[id].cancelled))
    ensures RowMissing(p.(roles := r), p.sent[id]) <==> p.sent[id].GrantAccess? && p.sent[id].pk !in p.rows
    ensures Guarded(p, id) || RowMissing(p, p.sent[id]) ==> Ran(p.(roles := r), id, []) == p.(roles := r)
  {
  }

  lemma {:induction false} RanGrant(p: State, r: map<nat, RoleState>, id: nat, pk: nat)
    requires id < |p.sent| && !Guarded(p, id) && p.sent[id] == GrantAccess(pk)
    requires pk in p.rows && p.rows[pk].pair.user in r
    ensures var user := p.rows[pk].pair.user;
            Ran(p.(roles := r), id, []) == Marked(p, id).(roles :=
              r[user := Affected(r[user], GrantOp(p.rows[pk].pair.name, p.rows[pk].grant))])
  {
    hide Affected;
  }

  lemma {:induction false} RanRevoke(p: State, r: map<nat, RoleState>, id: nat, pair: Pair)
    requires id < |p.sent| && !Guarded(p, id) && p.sent[id] == RevokeAccess(pair)
    requires pair.user in r
    ensures Ran(p.(roles := r), id, [])
         == Marked(p, id).(roles := r[pair.user := Affected(r[pair.user], RevokeOp(pair.name))])
  {
    hide Affected;
  }

  lemma {:induction false} WithRevokeTasksRoles(p: State, r: map<nat, RoleState>, pairs: seq<Pair>)
    ensures WithRevokeTasks(p.(roles := r), pairs) == WithRevokeTasks(p, pairs).(roles := r)
  {
    if pairs != [] {
      WithRevokeTasksRoles(p, r, pairs[..|pairs| - 1]);
    }
  }

  lemma {:induction false} RanRevokeAll(p: State, r: map<nat, RoleState>, id: nat, sweep: seq<Pair>)
    requires id < |p.sent| && !Guarded(p, id) && p.sent[id].RevokeAll?
    requires SweepOf(p, p.sent[id].bucket, sweep, Finished(false))
    ensures Ran(p.(roles := r), id, sweep) == Marked(WithRevokeTasks(p, sweep), id).(roles := r)
    ensures SweepOf(p.(roles := r), p.sent[id].bucket, sweep, Finished(false))
  {
    WithRevokeTasksRoles(p, r, sweep);
    assert forall pair :: HasRow(p, pair) == HasRow(p.(roles := r), pair);
  }

  lemma {:induction false} CallOfGrant(name: string, grant: Grant)
    ensures CallOf(GrantOp(name, grant)) == if HasSlash(name) then GrantFolderCall(name, grant.level, grant.paths)
                                            else GrantBucketCall(Arn(name), grant.level, ResourceArns(name, grant.paths))
  {
  }

  lemma {:induction false} CallOfRevoke(identifier: string, user: nat, isFolder: bool, pair: Pair)
    requires RevokeArgs(identifier, user, isFolder) == ArgsOf(RevokeAccess(pair))
    ensures CallOf(RevokeOp(pair.name)) == if isFolder then RevokeFolderCall(identifier) else RevokeBucketCall(identifier)
    ensures user == pair.user
  {
  }

  class Handler {
    const platform: Platform
    const iam: Iam
    const requestId: nat
    var taskObj: Option<nat>
    var object_: Option<Row>

    constructor (platform: Platform, iam: Iam, requestId: nat)
      ensures this.platform == platform && this.iam == iam && this.requestId == requestId
    {
      this.platform, this.iam, this.requestId := platform, iam, requestId;
      taskObj, object_ := None, None;
    }

    method GetTaskObj()
      modifies this`taskObj
      ensures taskObj == if requestId in platform.tasks then Some(requestId) else None
    {
      taskObj := if requestId in platform.tasks then Some(requestId) else None;
    }

    method GetObject(pk: nat)
      modifies this`object_
      ensures object_ == if pk in platform.rows then Some(platform.rows[pk]) else None
    {
      object_ := if pk in platform.rows then Some(platform.rows[pk]) else None;
    }

    method Complete()
      requires taskObj == if requestId in platform.tasks then Some(requestId) else None
      modifies platform`tasks
      ensures platform.Value() == Marked(old(platform.Value()), requestId)
      ensures requestId in platform.tasks ==> platform.tasks[requestId].completed
      ensures platform.Closed(requestId)
    {
      if taskObj.Some? {
        platform.tasks := platform.tasks[taskObj.value := platform.tasks[taskObj.value].(completed := true)];
      }
    }

    /** `GrantUserS3BucketAccess.handle`; IAM raises when the user has no role, and nothing happens. */
    method HandleGrant() returns (raised: bool)
      requires iam.Valid() && platform !in iam.Repr && this !in iam.Repr && object_.Some?
      requires object_.value.pair.user in iam.roles
      requires taskObj == if requestId in platform.tasks then Some(requestId) else None
      modifies platform`tasks, iam`model, iam.Repr
      ensures iam.Valid()
      ensures raised <==> !iam.HasRole(object_.value.pair.user)
      ensures platform.Value() == if raised then old(platform.Value()) else Marked(old(platform.Value()), requestId)
      ensures !raised && requestId in platform.tasks ==> platform.tasks[requestId].completed
      ensures !raised ==> platform.Closed(requestId)
      ensures var row := object_.value;
              iam.model == if raised then old(iam.model)
                           else old(iam.model)[row.pair.user :=
                                  Affected(old(iam.model)[row.pair.user], GrantOp(row.pair.name, row.grant))]
    {
      hide *;
      var row := object_.value;
      var name, level, paths := row.pair.name, row.grant.level, row.grant.paths;
      var call := if HasSlash(name) then GrantFolderCall(name, level, paths)
                  else GrantBucketCall(Arn(name), level, ResourceArns(name, paths));
      CallOfGrant(name, row.grant);
      var outcome := iam.ChangePolicy(row.pair.user, call, GrantOp(name, row.grant));
      raised := outcome != Done;
      if !raised {
        Complete();
      }
    }

    /** `S3BucketRevokeUserAccess.handle`; there is nothing to revoke for a user without a role, or a removed one. */
    method HandleRevoke(identifier: string, user: nat, isFolder: bool, ghost pair: Pair)
      requires iam.Valid() && platform !in iam.Repr && this !in iam.Repr
      requires RevokeArgs(identifier, user, isFolder) == ArgsOf(RevokeAccess(pair))
      requires taskObj == if requestId in platform.tasks then Some(requestId) else None
      modifies platform`tasks, iam`model, iam.Repr
      ensures iam.Valid()
      ensures platform.Value() == Marked(old(platform.Value()), requestId)
      ensures requestId in platform.tasks ==> platform.tasks[requestId].completed
      ensures platform.Closed(requestId)
      ensures iam.model == if iam.HasRole(user) then old(iam.model)[user := Affected(old(iam.model)[user], RevokeOp(pair.name))]
                           else old(iam.model)
    {
      hide *;
      NoRoleIfRemoved(user);
      if user in iam.roles {
        var call := if isFolder then RevokeFolderCall(identifier) else RevokeBucketCall(identifier);
        CallOfRevoke(identifier, user, isFolder, pair);
        var _ := iam.ChangePolicy(user, call, RevokeOp(pair.name));
      }
      Complete();
    }

    lemma {:induction false} NoRoleIfRemoved(user: nat)
      ensures user !in iam.roles ==> !iam.HasRole(user)
    {
    }

    /** The access rows that a cascade from the bucket would collect. */
    method Collect(bucket: string) returns (pks: seq<nat>)
      ensures NoDuplicates(pks)
      ensures forall pk :: pk in pks <==> pk in platform.rows && platform.rows[pk].pair.name == bucket
    {
      pks := [];
      var todo := set pk | pk in platform.rows && platform.rows[pk].pair.name == bucket;
      while todo != {}
        invariant NoDuplicates(pks)
        invariant forall pk :: pk in todo ==> pk in platform.rows && platform.rows[pk].pair.name == bucket
        invariant forall pk :: pk in pks ==> pk in platform.rows && platform.rows[pk].pair.name == bucket
        invariant forall pk :: pk in platform.rows && platform.rows[pk].pair.name == bucket ==> pk in todo || pk in pks
        invariant forall pk :: pk in todo ==> pk !in pks
        decreases todo
      {
        var pk :| pk in todo;
        todo := todo - {pk};
        pks := pks + [pk];
      }
    }

    /** `S3BucketRevokeAllAccess.handle` */
    method HandleRevokeAll(bucket: string) returns (ghost sweep: seq<Pair>)
      requires taskObj == if requestId in platform.tasks then Some(requestId) else None
      requires requestId < |platform.sent| && IdsInRange(platform.Value()) && UniquePairs(platform.Value())
      modifies platform
      ensures platform.Value() == Marked(WithRevokeTasks(old(platform.Value()), sweep), requestId)
      ensures requestId in platform.tasks ==> platform.tasks[requestId].completed
      ensures platform.Closed(requestId)
      ensures SweepOf(old(platform.Value()), bucket, sweep, Finished(false))
    {
      hide WithTask, WithRevokeTasks, SweepOf, Marked, UniquePairs, IdsInRange, NoDuplicates;
      var pks := Collect(bucket);
      sweep := PairsOf(platform.rows, pks);
      ghost var s := platform.Value();
      SweepCollected(s, bucket, pks);
      RevokeTasksNone(s, sweep);
      var i := 0;
      while i < |pks|
        invariant 0 <= i <= |pks|
        invariant platform.Value() == WithRevokeTasks(s, sweep[..i])
        invariant requestId in platform.tasks <==> requestId in s.tasks
        invariant platform.rows == s.rows
      {
        RevokeTasksStep(s, sweep, i, requestId);
        platform.RevokeBucketAccess(pks[i]);
        i := i + 1;
      }
      assert sweep[..|pks|] == sweep;
      Complete();
    }

    /** The guard with which both `run` methods begin. */
    method Stopped() returns (stopped: bool)
      modifies this`taskObj
      ensures taskObj == if requestId in platform.tasks then Some(requestId) else None
      ensures stopped <==> Guarded(platform.Value(), requestId)
      ensures stopped <==> requestId in platform.tasks && platform.Closed(requestId)
    {
      GetTaskObj();
      stopped := taskObj.Some? && (platform.tasks[taskObj.value].completed || platform.tasks[taskObj.value].cancelled);
    }

    /** `BaseModelTaskHandler.run` for a grant; a missing row is raised, and so is a missing role. */
    method RunGrant(pk: nat) returns (raised: bool)
      requires iam.Valid() && platform !in iam.Repr && this !in iam.Repr
      requires requestId < |platform.sent| && GrantArgs(pk) == ArgsOf(platform.sent[requestId])
      requires pk in platform.rows ==> platform.rows[pk].pair.user in iam.roles
      modifies this, platform`tasks, iam`model, iam.Repr
      ensures iam.Valid()
      ensures platform.Value().(roles := iam.model)
           == if pk in platform.rows && !iam.HasRole(platform.rows[pk].pair.user) then old(platform.Value().(roles := iam.model))
              else Ran(old(platform.Value().(roles := iam.model)), requestId, [])
      ensures raised <==> && !Guarded(old(platform.Value()), requestId)
                          && (pk !in platform.rows || !iam.HasRole(platform.rows[pk].pair.user))
      ensures !raised ==> platform.Closed(requestId)
    {
      ghost var p, r := platform.Value(), iam.model;
      RanStopped(p, r, requestId);
      hide *;
      var stopped := Stopped();
      if stopped {
        return false;
      }
      GetObject(pk);
      if object_.None? {
        return true;
      }
      RanGrant(p, r, requestId, pk);
      raised := HandleGrant();
    }

    /** `BaseTaskHandler.run` for a revoke; without a role it completes and has no effect. */
    method RunRevoke(identifier: string, user: nat, isFolder: bool, ghost pair: Pair)
      requires iam.Valid() && platform !in iam.Repr && this !in iam.Repr
      requires requestId < |platform.sent| && platform.sent[requestId] == RevokeAccess(pair)
      requires RevokeArgs(identifier, user, isFolder) == ArgsOf(RevokeAccess(pair))
      modifies this, platform`tasks, iam`model, iam.Repr
      ensures iam.Valid()
      ensures iam.HasRole(user) ==>
                platform.Value().(roles := iam.model) == Ran(old(platform.Value().(roles := iam.model)), requestId, [])
      ensures !iam.HasRole(user) ==>
                && iam.model == old(iam.model)
                && platform.Value() == if Guarded(old(platform.Value()), requestId) then old(platform.Value())
                                       else Marked(old(platform.Value()), requestId)
      ensures platform.Closed(requestId)
    {
      ghost var p, r := platform.Value(), iam.model;
      RanStopped(p, r, requestId);
      hide *;
      var stopped := Stopped();
      if !stopped {
        CallOfRevoke(identifier, user, isFolder, pair);
        if iam.HasRole(user) {
          RoleModelled(user);
          RanRevoke(p, r, requestId, pair);
        }
        HandleRevoke(identifier, user, isFolder, pair);
      }
    }

    lemma {:induction false} RoleModelled(user: nat)
      requires iam.Valid() && iam.HasRole(user)
      ensures user in iam.model
    {
    }

    /** `BaseModelTaskHandler.run` for a revoke-all. */
    method RunRevokeAll(bucket: string) returns (ghost sweep: seq<Pair>)
      requires requestId < |platform.sent| && platform.sent[requestId] == RevokeAll(bucket)
      requires IdsInRange(platform.Value()) && UniquePairs(platform.Value())
      modifies this, platform
      ensures forall r :: platform.Value().(roles := r) == Ran(old(platform.Value()).(roles := r), requestId, sweep)
      ensures Guarded(old(platform.Value()), requestId) || SweepOf(old(platform.Value()), bucket, sweep, Finished(false))
      ensures platform.Closed(requestId)
    {
      ghost var p := platform.Value();
      hide *;
      sweep := [];
      var stopped := Stopped();
      if !stopped {
        sweep := HandleRevokeAll(bucket);
      }
      forall r: map<nat, RoleState>
        ensures platform.Value().(roles := r) == Ran(p.(roles := r), requestId, sweep)
      {
        RanStopped(p, r, requestId);
        if !stopped {
          RanRevokeAll(p, r, requestId, sweep);
        }
      }
    }
  }

  function PairsOf(rows: map<nat, Row>, pks: seq<nat>): (r: seq<Pair>)
    requires forall pk :: pk in pks ==> pk in rows
    ensures |r| == |pks| && forall i :: 0 <= i < |pks| ==> r[i] == rows[pks[i]].pair
  {
    seq(|pks|, i requires 0 <= i < |pks| => rows[pks[i]].pair)
  }

  lemma {:induction false} SweepCollected(s: State, bucket: string, pks: seq<nat>)
    requires UniquePairs(s) && NoDuplicates(pks)
    requires forall pk :: pk in pks <==> pk in s.rows && s.rows[pk].pair.name == bucket
    ensures SweepOf(s, bucket, PairsOf(s.rows, pks), Finished(false))
  {
  }

  lemma {:induction false} RevokeTasksNone(s: State, pairs: seq<Pair>)
    ensures WithRevokeTasks(s, pairs[..0]) == s
  {
  }

  lemma {:induction false} RevokeTasksStep(s: State, pairs: seq<Pair>, i: nat, id: nat)
    requires i < |pairs| && id < |s.sent|
    ensures var t := WithRevokeTasks(s, pairs[..i]);
            && WithRevokeTasks(s, pairs[..i + 1]) == WithTask(t, RevokeAccess(pairs[i]))
            && (id in WithTask(t, RevokeAccess(pairs[i])).tasks <==> id in t.tasks)
            && WithTask(t, RevokeAccess(pairs[i])).rows == t.rows
  {
    assert pairs[..i + 1][..i] == pairs[..i];
    RevokeTasksSplit(s, pairs[..i]);
  }
}
