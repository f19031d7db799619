/**
 The message protocol behind access rows. Saving a row sends a grant message, removing it a revoke;
 workers acknowledge late, so that a message may be handled several times, in any order and with
 crashes in between, and staff may cancel and retry tasks. This module describes the protocol as a
 transition system over real policy documents and proves what every run keeps.
 */
module AccessTasks {
  import opened Options
  import opened Strings
  import opened PolicyDocument
  import opened RoleGrants
  import opened GrantRefinement
  import opened Permissions
  import opened ListingRuns

  // ---------------------------------------------------------------- state

  datatype Pair = Pair(user: nat, name: string)

  /** A row of UserS3Bucket. */
  datatype Row = Row(pair: Pair, grant: Grant)

  /** A grant carries the row's key only; a revoke carries whom and what it is about. */
  datatype Payload =
    | GrantAccess(pk: nat)
    | RevokeAccess(pair: Pair)
    | RevokeAll(bucket: string)

  datatype Task = Task(completed: bool, cancelled: bool)

  /** A role's stored document, and what the role was last granted; the document encodes the latter. */
  datatype RoleState = RoleState(document: Document, granted: Grants)

  /**
   * `sent` lists every message ever sent; its index is the id. `queue` holds the ids of messages
   * that the broker still has. `tasks` are the rows of table Task, created after sending.
   */
  datatype State = State(
    rows: map<nat, Row>,
    nextPk: nat,
    sent: seq<Payload>,
    queue: multiset<nat>,
    tasks: map<nat, Task>,
    roles: map<nat, RoleState>)

  const START: State := State(map[], 0, [], multiset{}, map[], map[])

  predicate Completed(s: State, id: nat) {
    id in s.tasks && s.tasks[id].completed
  }

  predicate Cancelled(s: State, id: nat) {
    id in s.tasks && s.tasks[id].cancelled
  }

  function RoleOf(s: State, user: nat): RoleState {
    if user in s.roles then s.roles[user] else RoleState(BASE_S3_ACCESS_POLICY, map[])
  }

  predicate HasRow(s: State, pair: Pair) {
    exists pk :: pk in s.rows && s.rows[pk].pair == pair
  }

  // ---------------------------------------------------------------- handling a message

  function Send(s: State, p: Payload): State {
    s.(sent := s.sent + [p], queue := s.queue + multiset{|s.sent|})
  }

  function SendRevokes(s: State, pairs: seq<Pair>): State {
    if pairs == [] then s else Send(SendRevokes(s, pairs[..|pairs| - 1]), RevokeAccess(pairs[|pairs| - 1]))
  }

  datatype Effect = Effect(user: nat, op: Op)

  /** The policy change that handling a message makes, if any. */
  function EffectOf(s: State, p: Payload): Option<Effect> {
    match p
    case GrantAccess(pk) =>
      if pk !in s.rows then None
      else Some(Effect(s.rows[pk].pair.user, GrantOp(s.rows[pk].pair.name, s.rows[pk].grant)))
    case RevokeAccess(pair) => Some(Effect(pair.user, RevokeOp(pair.name)))
    case RevokeAll(_) => None
  }

  function Affected(r: RoleState, op: Op): RoleState {
    RoleState(PerformOp(r.document, op), Abstractly(r.granted, op))
  }

  function Roles(s: State, effect: Option<Effect>): map<nat, RoleState> {
    match effect
    case Some(e) => s.roles[e.user := Affected(RoleOf(s, e.user), e.op)]
    case None => s.roles
  }

  /** `handle`, up to completion; a revoke-all sends a revoke for every row of its sweep. */
  function Handled(s: State, p: Payload, sweep: seq<Pair>): State {
    if p.RevokeAll? then SendRevokes(s, sweep) else s.(roles := Roles(s, EffectOf(s, p)))
  }

  /** How a handler that was not stopped by its guard ends. */
  datatype Outcome =
    | Crashed                 // after the policy change, before completion: the message stays
    | Finished(acked: bool)   // completed; the acknowledgement may be lost

  function Tasks(s: State, id: nat, outcome: Outcome): map<nat, Task> {
    if outcome.Finished? && id in s.tasks then s.tasks[id := s.tasks[id].(completed := true)] else s.tasks
  }

  function Queue(s: State, id: nat, outcome: Outcome): multiset<nat> {
    if outcome == Finished(true) then s.queue - multiset{id} else s.queue
  }

  /** A completed or cancelled task is not run again. */
  predicate Guarded(s: State, id: nat) {
    Completed(s, id) || Cancelled(s, id)
  }

  /** A grant whose row is gone raises an error: the message stays. */
  predicate RowMissing(s: State, p: Payload) {
    p.GrantAccess? && p.pk !in s.rows
  }

  /** `run` */
  function HandleMessage(s: State, id: nat, outcome: Outcome, sweep: seq<Pair>): State
    requires id < |s.sent|
  {
    if Guarded(s, id) then s.(queue := Queue(s, id, outcome))
    else if RowMissing(s, s.sent[id]) then s
    else
      var t := Handled(s, s.sent[id], sweep);
      t.(queue := Queue(t, id, outcome), tasks := Tasks(t, id, outcome))
  }

  // ---------------------------------------------------------------- events

  datatype Event =
    | Create(pair: Pair, grant: Grant)
    | Update(pk: nat, grant: Grant)
    | Delete(pk: nat)
    | Record(id: nat)
    | Deliver(id: nat, outcome: Outcome, sweep: seq<Pair>)
    | Retry(id: nat)
    | Cancel(id: nat)
    | SoftDelete(bucket: string)

  /** A revoke-all goes over the access rows of its bucket, each once, and over all unless it crashes. */
  ghost predicate SweepOf(s: State, bucket: string, sweep: seq<Pair>, outcome: Outcome) {
    && NoDuplicates(sweep)
    && (forall pair :: pair in sweep ==> pair.name == bucket && HasRow(s, pair))
    && (outcome.Finished? ==> forall pk :: pk in s.rows && s.rows[pk].pair.name == bucket ==> s.rows[pk].pair in sweep)
  }

  ghost predicate Enabled(names: set<string>, s: State, e: Event) {
    match e
    case Create(pair, grant) => pair.name in names && ValidPaths(grant.paths) && !HasRow(s, pair)
    case Update(pk, grant) => pk in s.rows && ValidPaths(grant.paths)
    case Delete(pk) => pk in s.rows
    case Record(id) => id < |s.sent| && id !in s.tasks
    case Deliver(id, outcome, sweep) =>
      id in s.queue && id < |s.sent| && (s.sent[id].RevokeAll? ==> SweepOf(s, s.sent[id].bucket, sweep, outcome))
    case Retry(id) => id in s.tasks
    case Cancel(id) => id in s.tasks
    case SoftDelete(bucket) => bucket in names
  }

  function Retried(s: State, id: nat): State
    requires id in s.tasks
  {
    s.(tasks := s.tasks[id := s.tasks[id].(cancelled := false)], queue := s.queue + multiset{id})
  }

  function CancelledTask(s: State, id: nat): State
    requires id in s.tasks
  {
    s.(tasks := s.tasks[id := s.tasks[id].(cancelled := true)])
  }

  function Created(s: State, pair: Pair, grant: Grant): State {
    Send(s.(rows := s.rows[s.nextPk := Row(pair, grant)], nextPk := s.nextPk + 1), GrantAccess(s.nextPk))
  }

  function Updated(s: State, pk: nat, grant: Grant): State
    requires pk in s.rows
  {
    Send(s.(rows := s.rows[pk := s.rows[pk].(grant := grant)]), GrantAccess(pk))
  }

  function Deleted(s: State, pk: nat): State
    requires pk in s.rows
  {
    Send(s.(rows := s.rows - {pk}), RevokeAccess(s.rows[pk].pair))
  }

  /** What an event does; events that are not enabled do not happen. */
  ghost function Next(names: set<string>, s: State, e: Event): State {
    if !Enabled(names, s, e) then s
    else
      match e
      case Create(pair, grant) => Created(s, pair, grant)
      case Update(pk, grant) => Updated(s, pk, grant)
      case Delete(pk) => Deleted(s, pk)
      case Record(id) => s.(tasks := s.tasks[id := Task(false, false)])
      case Deliver(id, outcome, sweep) => HandleMessage(s, id, outcome, sweep)
      case Retry(id) => Retried(s, id)
      case Cancel(id) => CancelledTask(s, id)
      case SoftDelete(bucket) => Send(s, RevokeAll(bucket))
  }

  /** Any sequence of events, in any interleaving. */
  ghost function After(names: set<string>, s: State, events: seq<Event>): State {
    if events == [] then s else Next(names, After(names, s, events[..|events| - 1]), events[|events| - 1])
  }

  // ---------------------------------------------------------------- what events change, field by field

  lemma {:induction false} AfterOne(names: set<string>, s: State, events: seq<Event>, e: Event)
    ensures After(names, s, events + [e]) == Next(names, After(names, s, events), e)
  {
  }

  lemma {:induction false} SendRevokesShape(s: State, pairs: seq<Pair>)
    ensures var t := SendRevokes(s, pairs);
            && t.rows == s.rows && t.nextPk == s.nextPk && t.tasks == s.tasks && t.roles == s.roles
            && |t.sent| == |s.sent| + |pairs|
            && (forall id :: 0 <= id < |s.sent| ==> t.sent[id] == s.sent[id])
            && (forall id :: |s.sent| <= id < |t.sent| ==> t.sent[id] == RevokeAccess(pairs[id - |s.sent|]))
            && (forall id: nat :: id in t.queue <==> id in s.queue || |s.sent| <= id < |t.sent|)
  {
    if pairs != [] {
      SendRevokesShape(s, pairs[..|pairs| - 1]);
    }
  }

  /** The effect that a delivery has: none when the guard holds. */
  function Effective(s: State, id: nat): Option<Effect>
    requires id < |s.sent|
  {
    if Guarded(s, id) then None else EffectOf(s, s.sent[id])
  }

  /** Messages stay, and only a revoke-all adds some: revokes of its sweep. */
  ghost predicate RevokesAdded(before: seq<Payload>, after: seq<Payload>, p: Payload, sweep: seq<Pair>) {
    && |before| <= |after|
    && (forall j :: 0 <= j < |before| ==> after[j] == before[j])
    && (forall j :: |before| <= j < |after| ==> p.RevokeAll? && after[j].RevokeAccess? && after[j].pair in sweep)
  }

  lemma {:induction false} HandledShape(s: State, p: Payload, sweep: seq<Pair>)
    ensures var t := Handled(s, p, sweep);
            && t.rows == s.rows && t.nextPk == s.nextPk && t.tasks == s.tasks
            && t.roles == Roles(s, EffectOf(s, p))
            && RevokesAdded(s.sent, t.sent, p, sweep)
  {
    hide Affected, RoleOf, SendRevokes;
    SendRevokesShape(s, sweep);
  }

  lemma {:induction false} NoEffect(s: State, id: nat)
    requires id < |s.sent| && (Guarded(s, id) || RowMissing(s, s.sent[id]))
    ensures Roles(s, Effective(s, id)) == s.roles
  {
  }

  lemma {:induction false} RunShape(s: State, id: nat, outcome: Outcome, sweep: seq<Pair>)
    requires id < |s.sent|
    ensures var t := HandleMessage(s, id, outcome, sweep);
            && t.rows == s.rows && t.nextPk == s.nextPk
            && t.roles == Roles(s, Effective(s, id))
            && RevokesAdded(s.sent, t.sent, s.sent[id], sweep)
  {
    hide Handled, Roles, EffectOf, Queue, Tasks, Guarded, RowMissing;
    HandledShape(s, s.sent[id], sweep);
    var t := HandleMessage(s, id, outcome, sweep);
    if Guarded(s, id) || RowMissing(s, s.sent[id]) {
      NoEffect(s, id);
      assert t.sent == s.sent;
    } else {
      assert t.sent == Handled(s, s.sent[id], sweep).sent;
    }
  }

  lemma {:induction false} QueueShape(s: State, id: nat, outcome: Outcome, j: nat)
    ensures j in Queue(s, id, outcome) ==> j in s.queue
    ensures j in s.queue && j != id ==> j in Queue(s, id, outcome)
  {
  }

  lemma {:induction false} RunQueue(s: State, id: nat, outcome: Outcome, sweep: seq<Pair>)
    requires id < |s.sent|
    ensures var t := HandleMessage(s, id, outcome, sweep);
            && (forall j: nat :: j in t.queue ==> j in s.queue || |s.sent| <= j < |t.sent|)
            && (forall j: nat :: j in s.queue && j != id ==> j in t.queue)
  {
    hide Affected, RoleOf, EffectOf, Roles, Queue, Tasks, SendRevokes;
    SendRevokesShape(s, sweep);
    var t := Handled(s, s.sent[id], sweep);
    forall j: nat
      ensures j in Queue(t, id, outcome) ==> j in t.queue
      ensures j in Queue(s, id, outcome) ==> j in s.queue
      ensures j in t.queue && j != id ==> j in Queue(t, id, outcome)
      ensures j in s.queue && j != id ==> j in Queue(s, id, outcome)
    {
      QueueShape(t, id, outcome, j);
      QueueShape(s, id, outcome, j);
    }
  }

  lemma {:induction false} TasksShape(s: State, id: nat, outcome: Outcome, j: nat)
    ensures var t := Tasks(s, id, outcome);
            && (j in t <==> j in s.tasks)
            && (j in t ==> t[j].cancelled == s.tasks[j].cancelled && (s.tasks[j].completed ==> t[j].completed))
            && (j in t && j != id ==> t[j].completed == s.tasks[j].completed)
  {
  }

  lemma {:induction false} RunTasks(s: State, id: nat, outcome: Outcome, sweep: seq<Pair>)
    requires id < |s.sent|
    ensures var t := HandleMessage(s, id, outcome, sweep);
            && (forall j: nat :: j in t.tasks <==> j in s.tasks)
            && (forall j: nat :: Cancelled(t, j) == Cancelled(s, j))
            && (forall j: nat :: Completed(s, j) ==> Completed(t, j))
            && (forall j: nat :: j != id || Guarded(s, id) ==> Completed(t, j) == Completed(s, j))
  {
    hide Affected, RoleOf, EffectOf, Roles, Tasks, SendRevokes;
    SendRevokesShape(s, sweep);
    var t := Handled(s, s.sent[id], sweep);
    forall j: nat
      ensures var ts := Tasks(t, id, outcome);
              && (j in ts <==> j in s.tasks)
              && (j in ts ==> ts[j].cancelled == s.tasks[j].cancelled && (s.tasks[j].completed ==> ts[j].completed))
              && (j in ts && j != id ==> ts[j].completed == s.tasks[j].completed)
    {
      TasksShape(t, id, outcome, j);
    }
  }

  // ---------------------------------------------------------------- bookkeeping

  ghost predicate IdsInRange(s: State) {
    forall id: nat :: id in s.queue || id in s.tasks ==> id < |s.sent|
  }

  ghost predicate RowsInOrder(names: set<string>, s: State) {
    forall pk :: pk in s.rows ==> pk < s.nextPk && s.rows[pk].pair.name in names && ValidPaths(s.rows[pk].grant.paths)
  }

  ghost predicate UniquePairs(s: State) {
    forall p, q :: p in s.rows && q in s.rows && p != q ==> s.rows[p].pair != s.rows[q].pair
  }

  ghost predicate MessagesInOrder(names: set<string>, s: State) {
    forall id :: 0 <= id < |s.sent| ==>
      && (s.sent[id].RevokeAccess? ==> s.sent[id].pair.name in names)
      && (s.sent[id].GrantAccess? ==> s.sent[id].pk < s.nextPk)
  }

  /** Keys and ids are in range, pairs are unique, names and paths are in order. */
  ghost predicate Consistent(names: set<string>, s: State) {
    IdsInRange(s) && RowsInOrder(names, s) && UniquePairs(s) && MessagesInOrder(names, s)
  }

  lemma {:induction false} NextIds(names: set<string>, s: State, e: Event)
    requires IdsInRange(s)
    ensures IdsInRange(Next(names, s, e))
  {
    hide HandleMessage, ValidPaths, HasRow, SweepOf;
    if e.Deliver? && Enabled(names, s, e) {
      RunShape(s, e.id, e.outcome, e.sweep);
      RunQueue(s, e.id, e.outcome, e.sweep);
      RunTasks(s, e.id, e.outcome, e.sweep);
    }
  }

  /** The rows after an event. */
  function RowsAfter(s: State, e: Event): map<nat, Row> {
    match e
    case Create(pair, grant) => s.rows[s.nextPk := Row(pair, grant)]
    case Update(pk, grant) => if pk in s.rows then s.rows[pk := s.rows[pk].(grant := grant)] else s.rows
    case Delete(pk) => s.rows - {pk}
    case _ => s.rows
  }

  lemma {:induction false} NextRowsAre(names: set<string>, s: State, e: Event)
    ensures var t := Next(names, s, e);
            && t.rows == (if Enabled(names, s, e) then RowsAfter(s, e) else s.rows)
            && t.nextPk == (if Enabled(names, s, e) && e.Create? then s.nextPk + 1 else s.nextPk)
  {
    hide HandleMessage, ValidPaths, SweepOf, HasRow;
    if e.Deliver? && Enabled(names, s, e) {
      RunShape(s, e.id, e.outcome, e.sweep);
    }
  }

  lemma {:induction false} NextRows(names: set<string>, s: State, e: Event)
    requires RowsInOrder(names, s) && UniquePairs(s)
    ensures RowsInOrder(names, Next(names, s, e)) && UniquePairs(Next(names, s, e))
  {
    hide Next, ValidPaths, SweepOf;
    NextRowsAre(names, s, e);
  }

  lemma {:induction false} NextMessages(names: set<string>, s: State, e: Event)
    requires MessagesInOrder(names, s) && RowsInOrder(names, s)
    ensures MessagesInOrder(names, Next(names, s, e))
  {
    hide HandleMessage, ValidPaths;
    if e.Deliver? && Enabled(names, s, e) {
      RunShape(s, e.id, e.outcome, e.sweep);
    }
  }

  lemma {:induction false} NextConsistent(names: set<string>, s: State, e: Event)
    requires Consistent(names, s)
    ensures Consistent(names, Next(names, s, e))
  {
    hide Next, IdsInRange, RowsInOrder, UniquePairs, MessagesInOrder;
    NextIds(names, s, e);
    NextRows(names, s, e);
    NextMessages(names, s, e);
  }

  // ---------------------------------------------------------------- what each event does

  /** The broker has the message; a revoke-all goes over its rows. */
  ghost predicate Arrived(s: State, id: nat, outcome: Outcome, sweep: seq<Pair>) {
    id in s.queue && id < |s.sent| && (s.sent[id].RevokeAll? ==> SweepOf(s, s.sent[id].bucket, sweep, outcome))
  }

  /** Everything but the tasks and the queue. */
  predicate SameBut(s: State, t: State) {
    t.rows == s.rows && t.nextPk == s.nextPk && t.sent == s.sent && t.roles == s.roles
  }

  ghost predicate SameTasksBut(s: State, t: State, id: nat) {
    forall j :: (j in t.tasks <==> j in s.tasks || j == id) && (j in s.tasks && j != id ==> t.tasks[j] == s.tasks[j])
  }

  lemma {:induction false} CreateDoes(names: set<string>, s: State, pair: Pair, grant: Grant)
    requires pair.name in names && ValidPaths(grant.paths) && !HasRow(s, pair)
    ensures var t := Next(names, s, Create(pair, grant));
            && t.rows == s.rows[s.nextPk := Row(pair, grant)] && t.nextPk == s.nextPk + 1
            && t.sent == s.sent + [GrantAccess(s.nextPk)] && t.queue[|s.sent|] == s.queue[|s.sent|] + 1
            && t.tasks == s.tasks && t.roles == s.roles
  {
  }

  lemma {:induction false} UpdateDoes(names: set<string>, s: State, pk: nat, grant: Grant)
    requires pk in s.rows && ValidPaths(grant.paths)
    ensures var t := Next(names, s, Update(pk, grant));
            && t.rows == s.rows[pk := Row(s.rows[pk].pair, grant)] && t.nextPk == s.nextPk
            && t.sent == s.sent + [GrantAccess(pk)] && t.queue[|s.sent|] == s.queue[|s.sent|] + 1
            && t.tasks == s.tasks && t.roles == s.roles
  {
  }

  lemma {:induction false} DeleteDoes(names: set<string>, s: State, pk: nat)
    requires pk in s.rows
    ensures var t := Next(names, s, Delete(pk));
            && t.rows == s.rows - {pk} && t.nextPk == s.nextPk
            && t.sent == s.sent + [RevokeAccess(s.rows[pk].pair)] && t.queue[|s.sent|] == s.queue[|s.sent|] + 1
            && t.tasks == s.tasks && t.roles == s.roles
  {
  }

  lemma {:induction false} SoftDeleteDoes(names: set<string>, s: State, bucket: string)
    requires bucket in names
    ensures var t := Next(names, s, SoftDelete(bucket));
            && t.rows == s.rows && t.nextPk == s.nextPk && t.tasks == s.tasks && t.roles == s.roles
            && t.sent == s.sent + [RevokeAll(bucket)] && t.queue[|s.sent|] == s.queue[|s.sent|] + 1
  {
  }

  /** A new task is neither completed nor cancelled; cancelling and retrying set and clear the one flag. */
  lemma {:induction false} StaffDo(names: set<string>, s: State, e: Event)
    requires e.Record? || e.Cancel? || e.Retry?
    requires if e.Record? then e.id < |s.sent| && e.id !in s.tasks else e.id in s.tasks
    ensures var t := Next(names, s, e);
            && SameBut(s, t) && SameTasksBut(s, t, e.id)
            && t.tasks[e.id].completed == (!e.Record? && s.tasks[e.id].completed)
            && t.tasks[e.id].cancelled == e.Cancel?
            && (forall j: nat :: t.queue[j] == s.queue[j] + if e.Retry? && j == e.id then 1 else 0)
  {
  }

  /**
   * A delivery of a task that is neither completed nor cancelled completes it exactly if the handler
   * finishes; the message goes exactly if it is acknowledged; no other task changes.
   */
  lemma {:induction false} DeliveryCompletes(names: set<string>, s: State, id: nat, outcome: Outcome, sweep: seq<Pair>)
    requires Arrived(s, id, outcome, sweep) && id in s.tasks
    requires !s.tasks[id].completed && !s.tasks[id].cancelled && !RowMissing(s, s.sent[id])
    ensures var t := Next(names, s, Deliver(id, outcome, sweep));
            && SameTasksBut(s, t, id)
            && t.tasks[id].completed == outcome.Finished? && !t.tasks[id].cancelled
            && t.queue[id] == s.queue[id] - if outcome == Finished(true) then 1 else 0
  {
    DeliveredIs(names, s, id, outcome, sweep);
    hide Handled, RevokesAdded, RowMissing, Next, Enabled, Roles, EffectOf, Queue, Tasks;
    HandledShape(s, s.sent[id], sweep);
    HandledQueue(s, s.sent[id], sweep, id);
    FinishedTasks(Handled(s, s.sent[id], sweep), id, outcome);
  }

  lemma {:induction false} DeliveredIs(names: set<string>, s: State, id: nat, outcome: Outcome, sweep: seq<Pair>)
    requires Arrived(s, id, outcome, sweep)
    requires !Guarded(s, id) && !RowMissing(s, s.sent[id])
    ensures var h := Handled(s, s.sent[id], sweep);
            Next(names, s, Deliver(id, outcome, sweep)) == h.(queue := Queue(h, id, outcome), tasks := Tasks(h, id, outcome))
    ensures id in s.queue
  {
    hide Handled, SweepOf, HasRow, RowMissing, ValidPaths, Guarded, Queue, Tasks;
  }

  lemma {:induction false} FinishedTasks(h: State, id: nat, outcome: Outcome)
    requires id in h.tasks && id in h.queue
    ensures var ts := Tasks(h, id, outcome);
            && (forall j :: (j in ts <==> j in h.tasks) && (j in h.tasks && j != id ==> ts[j] == h.tasks[j]))
            && ts[id] == Task(outcome.Finished? || h.tasks[id].completed, h.tasks[id].cancelled)
            && Queue(h, id, outcome)[id] == h.queue[id] - if outcome == Finished(true) then 1 else 0
  {
  }

  lemma {:induction false} HandledQueue(s: State, p: Payload, sweep: seq<Pair>, id: nat)
    requires id < |s.sent|
    ensures Handled(s, p, sweep).queue[id] == s.queue[id]
  {
    SendRevokesQueue(s, sweep, id);
    hide SendRevokes, Roles, EffectOf;
  }

  lemma {:induction false} SendRevokesQueue(s: State, pairs: seq<Pair>, id: nat)
    requires id < |s.sent|
    ensures SendRevokes(s, pairs).queue[id] == s.queue[id]
  {
    if pairs != [] {
      SendRevokesQueue(s, pairs[..|pairs| - 1], id);
      SendRevokesShape(s, pairs[..|pairs| - 1]);
    }
  }

  /** A delivery of a completed or cancelled task does nothing but take the message. */
  lemma {:induction false} GuardedDelivery(names: set<string>, s: State, id: nat, outcome: Outcome, sweep: seq<Pair>)
    requires id in s.tasks && (s.tasks[id].completed || s.tasks[id].cancelled)
    ensures var e := Deliver(id, outcome, sweep);
            var t := Next(names, s, e);
            && SameBut(s, t) && t.tasks == s.tasks
            && t.queue[id] == s.queue[id] - if Arrived(s, id, outcome, sweep) && outcome == Finished(true) then 1 else 0
  {
    hide Handled, SweepOf;
  }

  /** A grant whose row is gone is raised: nothing happens, and the message stays. */
  lemma {:induction false} RaisedDelivery(names: set<string>, s: State, id: nat, pk: nat, outcome: Outcome)
    requires Due(s, id, GrantAccess(pk)) && pk !in s.rows
    ensures Next(names, s, Deliver(id, outcome, [])) == s
  {
  }

  /** The message is about to be handled: it was sent, and its task is neither completed nor cancelled. */
  predicate Due(s: State, id: nat, p: Payload) {
    && id < |s.sent| && s.sent[id] == p
    && (id in s.tasks ==> !s.tasks[id].completed && !s.tasks[id].cancelled)
  }

  lemma {:induction false} CompletedKept(names: set<string>, s: State, e: Event, id: nat)
    requires Completed(s, id)
    ensures Completed(Next(names, s, e), id)
  {
    hide HandleMessage, ValidPaths, SweepOf, HasRow;
    if e.Deliver? && Enabled(names, s, e) {
      RunTasks(s, e.id, e.outcome, e.sweep);
    }
  }

  lemma {:induction false} CancelledKept(names: set<string>, s: State, e: Event, id: nat)
    requires IdsInRange(s) && Cancelled(s, id) && e != Retry(id)
    ensures Cancelled(Next(names, s, e), id)
  {
    hide HandleMessage, ValidPaths, SweepOf, HasRow;
    if e.Deliver? && Enabled(names, s, e) {
      RunTasks(s, e.id, e.outcome, e.sweep);
    }
  }

  /** Once completed, whatever happens in between, no delivery changes a row, a role or what was sent. */
  lemma {:induction false} CompletedForGood(names: set<string>, s: State, more: seq<Event>, id: nat, outcome: Outcome,
                                            sweep: seq<Pair>)
    requires id in s.tasks && s.tasks[id].completed
    ensures var t := After(names, s, more);
            Completed(t, id) && SameBut(t, Next(names, t, Deliver(id, outcome, sweep)))
  {
    hide Next;
    if more == [] {
      GuardedDelivery(names, s, id, outcome, sweep);
    } else {
      CompletedForGood(names, s, more[..|more| - 1], id, outcome, sweep);
      CompletedKept(names, After(names, s, more[..|more| - 1]), more[|more| - 1], id);
      GuardedDelivery(names, After(names, s, more), id, outcome, sweep);
    }
  }

  /** Once cancelled, the same until the task is retried. */
  lemma {:induction false} CancelledUntilRetried(names: set<string>, s: State, more: seq<Event>, id: nat,
                                                 outcome: Outcome, sweep: seq<Pair>)
    requires IdsInRange(s) && id in s.tasks && s.tasks[id].cancelled
    requires forall e :: e in more ==> e != Retry(id)
    ensures var t := After(names, s, more);
            IdsInRange(t) && Cancelled(t, id) && SameBut(t, Next(names, t, Deliver(id, outcome, sweep)))
  {
    hide Next, IdsInRange;
    if more == [] {
      GuardedDelivery(names, s, id, outcome, sweep);
    } else {
      var front, e := more[..|more| - 1], more[|more| - 1];
      assert e in more && forall x :: x in front ==> x in more;
      CancelledUntilRetried(names, s, front, id, outcome, sweep);
      NextIds(names, After(names, s, front), e);
      CancelledKept(names, After(names, s, front), e, id);
      GuardedDelivery(names, After(names, s, more), id, outcome, sweep);
    }
  }

  // ---------------------------------------------------------------- the documents follow the roles' history

  ghost predicate RoleEncoded(names: set<string>, r: RoleState) {
    ValidGrants(r.granted, names) && Encodes(r.document, r.granted)
  }

  ghost predicate RolesEncoded(names: set<string>, s: State) {
    forall user: nat :: RoleEncoded(names, RoleOf(s, user))
  }

  lemma {:induction false} RoleRefines(names: set<string>, r: RoleState, op: Op)
    requires ValidNames(names) && ValidOp(op, names) && RoleEncoded(names, r)
    ensures RoleEncoded(names, Affected(r, op))
  {
    OpRefines(r.document, r.granted, op, names);
  }

  lemma {:induction false} NextEncoded(names: set<string>, s: State, e: Event)
    requires ValidNames(names) && Consistent(names, s) && RolesEncoded(names, s)
    ensures RolesEncoded(names, Next(names, s, e))
  {
    hide RoleEncoded, Affected, ValidNames, HandleMessage;
    var t := Next(names, s, e);
    forall user: nat
      ensures RoleEncoded(names, RoleOf(t, user))
    {
      assert RoleEncoded(names, RoleOf(s, user));
      if e.Deliver? && Enabled(names, s, e) {
        RunShape(s, e.id, e.outcome, e.sweep);
        var effect := Effective(s, e.id);
        if effect.Some? && effect.value.user == user {
          RoleRefines(names, RoleOf(s, user), effect.value.op);
        }
      }
    }
  }

  lemma {:induction false} StartConsistent(names: set<string>)
    ensures Consistent(names, START) && RolesEncoded(names, START)
  {
    BaseEncodesNothing();
  }

  lemma {:induction false} AfterConsistent(names: set<string>, events: seq<Event>)
    requires ValidNames(names)
    ensures Consistent(names, After(names, START, events)) && RolesEncoded(names, After(names, START, events))
  {
    hide Consistent, RolesEncoded, Next, ValidNames;
    StartConsistent(names);
    if events != [] {
      var s := After(names, START, events[..|events| - 1]);
      AfterConsistent(names, events[..|events| - 1]);
      NextConsistent(names, s, events[|events| - 1]);
      NextEncoded(names, s, events[|events| - 1]);
    }
  }

  // ---------------------------------------------------------------- no orphaned access

  /** The message is a revoke of the pair that did not complete, and it is queued or was cancelled. */
  predicate PendingRevoke(s: State, id: nat, pair: Pair) {
    id < |s.sent| && s.sent[id] == RevokeAccess(pair) && !Completed(s, id) && (id in s.queue || Cancelled(s, id))
  }

  predicate RevokePending(s: State, pair: Pair) {
    exists id :: 0 <= id < |s.sent| && PendingRevoke(s, id, pair)
  }

  ghost predicate NoOrphans(s: State) {
    forall user: nat, name: string ::
      name in RoleOf(s, user).granted && !HasRow(s, Pair(user, name)) ==> RevokePending(s, Pair(user, name))
  }

  /** An event keeps a pending revoke pending, unless it is the delivery that takes the access away. */
  lemma {:induction false} PendingKept(names: set<string>, s: State, e: Event, id: nat, pair: Pair)
    requires Consistent(names, s) && PendingRevoke(s, id, pair)
    ensures PendingRevoke(Next(names, s, e), id, pair)
         || pair.name !in RoleOf(Next(names, s, e), pair.user).granted
  {
    hide HandleMessage, PerformOp, ValidPaths;
    if e.Deliver? && Enabled(names, s, e) {
      RunShape(s, e.id, e.outcome, e.sweep);
      RunQueue(s, e.id, e.outcome, e.sweep);
      RunTasks(s, e.id, e.outcome, e.sweep);
    }
  }

  /** A pair without a row gains nothing: only the grant of a row gives access. */
  lemma {:induction false} NothingGained(names: set<string>, s: State, e: Event, pair: Pair)
    requires pair.name in RoleOf(Next(names, s, e), pair.user).granted && !HasRow(Next(names, s, e), pair)
    ensures pair.name in RoleOf(s, pair.user).granted
  {
    hide HandleMessage, PerformOp, ValidPaths;
    if e.Deliver? && Enabled(names, s, e) {
      RunShape(s, e.id, e.outcome, e.sweep);
    }
  }

  lemma {:induction false} RowKept(names: set<string>, s: State, e: Event, pk: nat)
    requires RowsInOrder(names, s) && pk in s.rows && e != Delete(pk)
    ensures var t := Next(names, s, e); pk in t.rows && t.rows[pk].pair == s.rows[pk].pair
  {
    hide Next, Enabled;
    NextRowsAre(names, s, e);
  }

  lemma {:induction false} RevokeSent(s: State, pk: nat)
    requires IdsInRange(s) && pk in s.rows
    ensures PendingRevoke(Deleted(s, pk), |s.sent|, s.rows[pk].pair)
  {
  }

  lemma {:induction false} RowLost(names: set<string>, s: State, e: Event, pair: Pair)
    requires Consistent(names, s) && HasRow(s, pair) && !HasRow(Next(names, s, e), pair)
    ensures RevokePending(Next(names, s, e), pair)
  {
    var t := Next(names, s, e);
    var pk :| pk in s.rows && s.rows[pk].pair == pair;
    assert t == Deleted(s, pk) by {
      hide HandleMessage, Created, Updated, Deleted, Retried, CancelledTask;
      if e != Delete(pk) {
        RowKept(names, s, e, pk);
      }
    }
    hide Next, Deleted, PendingRevoke;
    RevokeSent(s, pk);
    PendingSent(t, |s.sent|, pair);
  }

  lemma {:induction false} NextNoOrphans(names: set<string>, s: State, e: Event)
    requires Consistent(names, s) && NoOrphans(s)
    ensures NoOrphans(Next(names, s, e))
  {
    hide Consistent, Next, PendingRevoke, HasRow, RoleOf;
    var t := Next(names, s, e);
    forall user: nat, name: string | name in RoleOf(t, user).granted && !HasRow(t, Pair(user, name))
      ensures RevokePending(t, Pair(user, name))
    {
      var pair := Pair(user, name);
      if HasRow(s, pair) {
        RowLost(names, s, e, pair);
      } else {
        NothingGained(names, s, e, pair);
        var id :| 0 <= id < |s.sent| && PendingRevoke(s, id, pair);
        PendingKept(names, s, e, id, pair);
        PendingSent(t, id, pair);
      }
    }
  }

  lemma {:induction false} PendingSent(s: State, id: nat, pair: Pair)
    ensures PendingRevoke(s, id, pair) ==> id < |s.sent|
  {
  }

  lemma {:induction false} AfterNoOrphans(names: set<string>, events: seq<Event>)
    requires ValidNames(names)
    ensures NoOrphans(After(names, START, events))
  {
    hide Consistent, RolesEncoded, Next, ValidNames;
    if events != [] {
      AfterConsistent(names, events[..|events| - 1]);
      AfterNoOrphans(names, events[..|events| - 1]);
      NextNoOrphans(names, After(names, START, events[..|events| - 1]), events[|events| - 1]);
    }
  }

  // ---------------------------------------------------------------- what the documents let a user list

  /** Every role's document lists the datasource as its history says. */
  ghost predicate RolesListed(names: set<string>, s: State, name: string) {
    forall user: nat :: NameListed(RoleOf(s, user).document, RoleOf(s, user).granted, names, name)
  }

  lemma {:induction false} RoleListed(names: set<string>, r: RoleState, op: Op, name: string)
    requires ValidNames(names) && name in names && (HasSlash(name) ==> NoCollision(names, BucketOf(name)))
    requires ValidOp(op, names) && RoleEncoded(names, r) && NameListed(r.document, r.granted, names, name)
    ensures NameListed(Affected(r, op).document, Affected(r, op).granted, names, name)
  {
    EncodedDocument(r.document, r.granted);
    OpKeepsListed(r.document, r.granted, op, names, name);
  }

  /** The policy change of an event, if it makes one. */
  ghost function EffectAt(names: set<string>, s: State, e: Event): Option<Effect> {
    if e.Deliver? && Enabled(names, s, e) then Effective(s, e.id) else None
  }

  lemma {:induction false} EffectValid(names: set<string>, s: State, e: Event)
    requires Consistent(names, s) && EffectAt(names, s, e).Some?
    ensures ValidOp(EffectAt(names, s, e).value.op, names)
  {
    hide Guarded, HasRow, SweepOf;
  }

  lemma {:induction false} RolesAfter(names: set<string>, s: State, e: Event)
    ensures Next(names, s, e).roles == Roles(s, EffectAt(names, s, e))
  {
    RolesUnchanged(s);
    hide HandleMessage, ValidPaths, HasRow, SweepOf, Roles, Effective;
    if e.Deliver? && Enabled(names, s, e) {
      RunShape(s, e.id, e.outcome, e.sweep);
    }
  }

  lemma {:induction false} RolesUnchanged(s: State)
    ensures Roles(s, None) == s.roles
  {
  }

  lemma {:induction false} EffectListed(names: set<string>, s: State, effect: Option<Effect>, user: nat, name: string)
    requires ValidNames(names) && name in names && (HasSlash(name) ==> NoCollision(names, BucketOf(name)))
    requires effect.Some? ==> ValidOp(effect.value.op, names)
    requires RoleEncoded(names, RoleOf(s, user)) && NameListed(RoleOf(s, user).document, RoleOf(s, user).granted, names, name)
    ensures var r := RoleOf(s.(roles := Roles(s, effect)), user); NameListed(r.document, r.granted, names, name)
  {
    hide NameListed, RoleEncoded, Affected, ValidNames, ValidOp, NoCollision;
    if effect.Some? && effect.value.user == user {
      RoleListed(names, RoleOf(s, user), effect.value.op, name);
    }
  }

  lemma {:induction false} NextListed(names: set<string>, s: State, e: Event, name: string)
    requires ValidNames(names) && name in names && (HasSlash(name) ==> NoCollision(names, BucketOf(name)))
    requires Consistent(names, s) && RolesEncoded(names, s) && RolesListed(names, s, name)
    ensures RolesListed(names, Next(names, s, e), name)
  {
    hide NameListed, RoleEncoded, ValidNames, ValidOp, NoCollision, Next, EffectAt, Consistent, Roles;
    var effect := EffectAt(names, s, e);
    RolesAfter(names, s, e);
    if effect.Some? {
      EffectValid(names, s, e);
    }
    forall user: nat
      ensures NameListed(RoleOf(Next(names, s, e), user).document, RoleOf(Next(names, s, e), user).granted, names, name)
    {
      EffectListed(names, s, effect, user, name);
    }
  }

  lemma {:induction false} StartListed(names: set<string>, name: string)
    requires ValidName(name)
    ensures RolesListed(names, START, name)
  {
    BaseListed(names, name);
  }

  lemma {:induction false} AfterListed(names: set<string>, events: seq<Event>, name: string)
    requires ValidNames(names) && name in names && (HasSlash(name) ==> NoCollision(names, BucketOf(name)))
    ensures RolesListed(names, After(names, START, events), name)
  {
    assert ValidName(name);
    hide Consistent, RolesEncoded, RolesListed, Next, ValidNames, ValidName, NoCollision;
    if events == [] {
      StartListed(names, name);
    } else {
      AfterListed(names, events[..|events| - 1], name);
      AfterConsistent(names, events[..|events| - 1]);
      NextListed(names, After(names, START, events[..|events| - 1]), events[|events| - 1], name);
    }
  }

  // ---------------------------------------------------------------- no use without a row

  /** In every run a role's document allows what its history covers, and the other way round. */
  lemma {:induction false} RoleAllows(names: set<string>, events: seq<Event>, pair: Pair, use: Use)
    requires ValidNames(names) && pair.name in names && UseOf(pair.name, use) && NoCollisionFor(names, pair.name, use)
    ensures var r := RoleOf(After(names, START, events), pair.user);
            && (AllowsUse(r.document, pair.name, use) ==>
                  pair.name in r.granted && CoversUse(pair.name, r.granted[pair.name], use))
            && (NoExtensionFor(names, pair.name, use) ==>
                  (pair.name in r.granted && CoversUse(pair.name, r.granted[pair.name], use) ==> AllowsUse(r.document, pair.name, use)))
  {
    hide Encodes, ValidGrants, AllowsUse, CoversUse, ValidNames, NameListed, NoExtensionFor, Consistent, After, UseOf;
    var s := After(names, START, events);
    var r := RoleOf(s, pair.user);
    AfterConsistent(names, events);
    assert RoleEncoded(names, r);
    if use.Contents? {
      AfterListed(names, events, pair.name);
    }
    UseAllowed(r.document, r.granted, names, pair.name, use);
  }

  /**
   * No orphaned access, in every run: if a user's document still allows any use of a datasource for
   * which there is no row, be it an action on an object or a look at the contents, then a revoke for
   * that pair is queued or was cancelled, and not completed.
   */
  lemma {:induction false} NoOrphanedAccess(names: set<string>, events: seq<Event>, pair: Pair, use: Use)
    requires ValidNames(names) && pair.name in names && UseOf(pair.name, use) && NoCollisionFor(names, pair.name, use)
    ensures var s := After(names, START, events);
            AllowsUse(RoleOf(s, pair.user).document, pair.name, use) ==> HasRow(s, pair) || RevokePending(s, pair)
  {
    hide AllowsUse, After, ValidNames, CoversUse, UseOf, NoCollisionFor;
    AfterNoOrphans(names, events);
    RoleAllows(names, events, pair, use);
  }

  /**
   * Nor may the root of a bucket be listed, unless one of its folders has a row for the user, or a
   * pending revoke.
   */
  lemma {:induction false} NoOrphanedRoot(names: set<string>, events: seq<Event>, user: nat, name: string)
    requires ValidNames(names) && name in names && HasSlash(name) && NoCollision(names, BucketOf(name))
    ensures var s := After(names, START, events);
            AllowsListing(RoleOf(s, user).document, BucketOf(name), "") ==>
              exists n :: ValidRoot(n) && BucketOf(n) == BucketOf(name) && (HasRow(s, Pair(user, n)) || RevokePending(s, Pair(user, n)))
  {
    hide Encodes, ValidGrants, AllowsListing, ValidNames, NameListed, NoExtension, NoCollision, Consistent, After, ValidRoot, HasRow,
         RevokePending;
    var s := After(names, START, events);
    var r := RoleOf(s, user);
    AfterConsistent(names, events);
    AfterListed(names, events, name);
    AfterNoOrphans(names, events);
    assert RoleEncoded(names, r);
    RootAllowed(r.document, r.granted, names, name);
    if AllowsListing(r.document, BucketOf(name), "") {
      var n :| n in r.granted && ValidRoot(n) && BucketOf(n) == BucketOf(name);
      assert HasRow(s, Pair(user, n)) || RevokePending(s, Pair(user, n));
    }
  }

  lemma {:induction false} RevokeDelivered(names: set<string>, s: State, id: nat, outcome: Outcome, pair: Pair)
    requires id in s.queue && Due(s, id, RevokeAccess(pair))
    ensures pair.name !in RoleOf(Next(names, s, Deliver(id, outcome, [])), pair.user).granted
  {
    hide HandleMessage, PerformOp, SweepOf;
    RunShape(s, id, outcome, []);
  }

  lemma {:induction false} GrantDelivered(names: set<string>, s: State, id: nat, outcome: Outcome, pk: nat)
    requires id in s.queue && Due(s, id, GrantAccess(pk)) && pk in s.rows
    ensures var row := s.rows[pk];
            var g := RoleOf(Next(names, s, Deliver(id, outcome, [])), row.pair.user).granted;
            row.pair.name in g && g[row.pair.name] == row.grant
  {
    hide HandleMessage, PerformOp, SweepOf;
    RunShape(s, id, outcome, []);
  }

  /** In any run, the delivery of a revoke leaves the pair nothing, whether the handler crashes or finishes. */
  lemma {:induction false} RevokeTakesEffect(names: set<string>, events: seq<Event>, s: State, id: nat,
                                             outcome: Outcome, pair: Pair, use: Use)
    requires ValidNames(names) && s == After(names, START, events)
    requires id in s.queue && Due(s, id, RevokeAccess(pair))
    requires pair.name in names && UseOf(pair.name, use) && NoCollisionFor(names, pair.name, use)
    ensures !AllowsUse(RoleOf(Next(names, s, Deliver(id, outcome, [])), pair.user).document, pair.name, use)
  {
    hide AllowsUse, CoversUse, UseOf, NoCollisionFor, NoExtensionFor, Next, Enabled, ValidNames, RoleOf, After, Due;
    RevokeDelivered(names, s, id, outcome, pair);
    AfterOne(names, START, events, Deliver(id, outcome, []));
    RoleAllows(names, events + [Deliver(id, outcome, [])], pair, use);
  }

  /** And that of a grant gives the user of the row exactly what the row then says. */
  lemma {:induction false} GrantTakesEffect(names: set<string>, events: seq<Event>, s: State, id: nat,
                                            outcome: Outcome, pk: nat, use: Use)
    requires ValidNames(names) && s == After(names, START, events)
    requires id in s.queue && Due(s, id, GrantAccess(pk)) && pk in s.rows
    requires var name := s.rows[pk].pair.name;
             name in names && UseOf(name, use) && NoCollisionFor(names, name, use) && NoExtensionFor(names, name, use)
    ensures var row := s.rows[pk];
            AllowsUse(RoleOf(Next(names, s, Deliver(id, outcome, [])), row.pair.user).document, row.pair.name, use) <==>
              CoversUse(row.pair.name, row.grant, use)
  {
    hide AllowsUse, CoversUse, UseOf, NoCollisionFor, NoExtensionFor, Next, Enabled, ValidNames, RoleOf, After, Due;
    GrantDelivered(names, s, id, outcome, pk);
    AfterOne(names, START, events, Deliver(id, outcome, []));
    RoleAllows(names, events + [Deliver(id, outcome, [])], s.rows[pk].pair, use);
  }
}
