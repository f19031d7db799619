/**
 Bookkeeping laws of the access tasks: a completed task has no further effect on anything but its
 own flags and messages, and every access row leaves exactly one revoke behind when it goes.
 */
module AccessConservation {
  import opened Strings
  import opened RoleGrants
  import opened GrantRefinement
  import opened AccessTasks

  // ---------------------------------------------------------------- completion is terminal

  /** The event is a delivery, a retry or a cancellation of this task. */
  predicate About(e: Event, id: nat) {
    match e
    case Record(j) => j == id
    case Deliver(j, _, _) => j == id
    case Retry(j) => j == id
    case Cancel(j) => j == id
    case _ => false
  }

  /** Two states that differ at most in the messages and the cancelled flag of one completed task. */
  ghost predicate Alike(id: nat, s: State, t: State) {
    && s.rows == t.rows && s.nextPk == t.nextPk && s.sent == t.sent && s.roles == t.roles
    && Completed(s, id) && Completed(t, id)
    && (forall j: nat :: j != id ==> s.queue[j] == t.queue[j])
    && (forall j: nat :: j != id ==> (j in s.tasks <==> j in t.tasks))
    && (forall j: nat :: j != id && j in s.tasks ==> s.tasks[j] == t.tasks[j])
  }

  lemma {:induction false} AboutCompleted(names: set<string>, s: State, t: State, e: Event, id: nat)
    requires Alike(id, s, t) && About(e, id)
    ensures Alike(id, Next(names, s, e), t)
  {
    hide Handled;
  }

  lemma {:induction false} SendRevokesAlike(s: State, t: State, pairs: seq<Pair>, id: nat)
    requires Alike(id, s, t)
    ensures Alike(id, SendRevokes(s, pairs), SendRevokes(t, pairs))
  {
    if pairs != [] {
      SendRevokesAlike(s, t, pairs[..|pairs| - 1], id);
    }
  }

  lemma {:induction false} HandledAlike(s: State, t: State, p: Payload, sweep: seq<Pair>, id: nat)
    requires Alike(id, s, t)
    ensures Alike(id, Handled(s, p, sweep), Handled(t, p, sweep))
  {
    hide Affected;
    SendRevokesAlike(s, t, sweep, id);
  }

  lemma {:induction false} EnabledAlike(names: set<string>, s: State, t: State, e: Event, id: nat)
    requires Alike(id, s, t) && !About(e, id)
    ensures Enabled(names, s, e) <==> Enabled(names, t, e)
  {
  }

  lemma {:induction false} QueueAt(s: State, j: nat, outcome: Outcome, k: nat)
    ensures Queue(s, j, outcome)[k]
         == if outcome == Finished(true) && k == j && s.queue[j] > 0 then s.queue[j] - 1 else s.queue[k]
  {
  }

  lemma {:induction false} FinishAlike(s: State, t: State, j: nat, outcome: Outcome, id: nat)
    requires Alike(id, s, t) && j != id
    ensures Alike(id, s.(queue := Queue(s, j, outcome)), t.(queue := Queue(t, j, outcome)))
    ensures Alike(id, s.(queue := Queue(s, j, outcome), tasks := Tasks(s, j, outcome)),
                      t.(queue := Queue(t, j, outcome), tasks := Tasks(t, j, outcome)))
  {
    hide Queue;
    forall k: nat | k != id
      ensures Queue(s, j, outcome)[k] == Queue(t, j, outcome)[k]
    {
      QueueAt(s, j, outcome, k);
      QueueAt(t, j, outcome, k);
    }
  }

  lemma {:induction false} GuardAlike(s: State, t: State, j: nat, p: Payload, id: nat)
    requires Alike(id, s, t) && j != id
    ensures Guarded(s, j) == Guarded(t, j) && RowMissing(s, p) == RowMissing(t, p) && s.sent == t.sent
  {
  }

  lemma {:induction false} RunAlike(s: State, t: State, j: nat, outcome: Outcome, sweep: seq<Pair>, id: nat)
    requires Alike(id, s, t) && j != id && j < |s.sent|
    ensures Alike(id, HandleMessage(s, j, outcome, sweep), HandleMessage(t, j, outcome, sweep))
  {
    hide Handled, Queue, Tasks, Alike, Guarded, RowMissing;
    GuardAlike(s, t, j, s.sent[j], id);
    HandledAlike(s, t, s.sent[j], sweep, id);
    FinishAlike(s, t, j, outcome, id);
    FinishAlike(Handled(s, s.sent[j], sweep), Handled(t, t.sent[j], sweep), j, outcome, id);
  }

  lemma {:induction false} SendAlike(s: State, t: State, p: Payload, id: nat)
    requires Alike(id, s, t)
    ensures Alike(id, Send(s, p), Send(t, p))
  {
  }

  lemma {:induction false} SavedAlike(s: State, t: State, rows: map<nat, Row>, nextPk: nat, p: Payload, id: nat)
    requires Alike(id, s, t)
    ensures Alike(id, Send(s.(rows := rows, nextPk := nextPk), p), Send(t.(rows := rows, nextPk := nextPk), p))
  {
    SendAlike(s.(rows := rows, nextPk := nextPk), t.(rows := rows, nextPk := nextPk), p, id);
  }

  lemma {:induction false} RecordAlike(s: State, t: State, j: nat, task: Task, id: nat)
    requires Alike(id, s, t) && j != id
    ensures Alike(id, s.(tasks := s.tasks[j := task]), t.(tasks := t.tasks[j := task]))
  {
  }

  lemma {:induction false} RetryAlike(s: State, t: State, j: nat, id: nat)
    requires Alike(id, s, t) && j != id && j in s.tasks && j in t.tasks
    ensures Alike(id, Retried(s, j), Retried(t, j))
  {
    var task := s.tasks[j].(cancelled := false);
    RecordAlike(s, t, j, task, id);
  }

  lemma {:induction false} OthersAlike(names: set<string>, s: State, t: State, e: Event, id: nat)
    requires Alike(id, s, t) && !About(e, id)
    ensures Alike(id, Next(names, s, e), Next(names, t, e))
  {
    EnabledAlike(names, s, t, e, id);
    AlikeFields(s, t, id);
    hide Alike, Enabled, HandleMessage, Send, Completed;
    if Enabled(names, s, e) {
      EventFields(names, s, e);
      EventFields(names, t, e);
      match e
      case Create(pair, grant) =>
        SavedAlike(s, t, s.rows[s.nextPk := Row(pair, grant)], s.nextPk + 1, GrantAccess(s.nextPk), id);
      case Update(pk, grant) =>
        SavedAlike(s, t, s.rows[pk := s.rows[pk].(grant := grant)], s.nextPk, GrantAccess(pk), id);
      case Delete(pk) => SavedAlike(s, t, s.rows - {pk}, s.nextPk, RevokeAccess(s.rows[pk].pair), id);
      case Record(j) => RecordAlike(s, t, j, Task(false, false), id);
      case Deliver(j, outcome, sweep) => RunAlike(s, t, j, outcome, sweep, id);
      case Retry(j) => RetryAlike(s, t, j, id);
      case Cancel(j) => RecordAlike(s, t, j, s.tasks[j].(cancelled := true), id);
      case SoftDelete(bucket) => SendAlike(s, t, RevokeAll(bucket), id);
    }
  }

  lemma {:induction false} AlikeFields(s: State, t: State, id: nat)
    requires Alike(id, s, t)
    ensures s.rows == t.rows && s.nextPk == t.nextPk && s.sent == t.sent
    ensures forall j: nat :: j != id && j in s.tasks ==> j in t.tasks && s.tasks[j] == t.tasks[j]
  {
  }

  /** What an enabled event finds. */
  lemma {:induction false} EventFields(names: set<string>, s: State, e: Event)
    requires Enabled(names, s, e)
    ensures (e.Update? || e.Delete?) ==> e.pk in s.rows
    ensures e.Deliver? ==> e.id < |s.sent|
    ensures (e.Retry? || e.Cancel?) ==> e.id in s.tasks
  {
  }

  function NotAbout(id: nat): Event -> bool {
    (e: Event) => !About(e, id)
  }

  /**
   * Completion is terminal: once the row of a message says completed, every run ends in the same
   * rows, messages and documents as it would without any delivery, retry or cancellation of it.
   */
  lemma {:induction false} CompletionIsTerminal(names: set<string>, s: State, events: seq<Event>, id: nat)
    requires Completed(s, id)
    ensures Alike(id, After(names, s, events), After(names, s, Filter(NotAbout(id), events)))
  {
    hide Next, About, Completed;
    if events == [] {
      AlikeItself(s, id);
    } else {
      var front, e := events[..|events| - 1], events[|events| - 1];
      CompletionIsTerminal(names, s, front, id);
      var a, b := After(names, s, front), After(names, s, Filter(NotAbout(id), front));
      if About(e, id) {
        assert Filter(NotAbout(id), events) == Filter(NotAbout(id), front);
        AboutCompleted(names, a, b, e, id);
      } else {
        assert Filter(NotAbout(id), events) == Filter(NotAbout(id), front) + [e];
        AfterOne(names, s, Filter(NotAbout(id), front), e);
        OthersAlike(names, a, b, e, id);
      }
    }
  }

  lemma {:induction false} AlikeItself(s: State, id: nat)
    requires Completed(s, id)
    ensures Alike(id, s, s)
  {
  }

  // ---------------------------------------------------------------- revokes are conserved

  /** How many revokes of the pair were ever sent. */
  function RevokesSent(sent: seq<Payload>, pair: Pair): nat {
    if sent == [] then 0
    else RevokesSent(sent[..|sent| - 1], pair) + if sent[|sent| - 1] == RevokeAccess(pair) then 1 else 0
  }

  function Holding(s: State, pair: Pair): nat {
    if HasRow(s, pair) then 1 else 0
  }

  /** Whether an event creates a row of the pair, or a revoke-all goes over it. */
  ghost function Incoming(names: set<string>, s: State, e: Event, pair: Pair): nat {
    if !Enabled(names, s, e) then 0
    else if e.Create? && e.pair == pair then 1
    else if e.Deliver? && !Guarded(s, e.id) && s.sent[e.id].RevokeAll? && pair in e.sweep then 1
    else 0
  }

  ghost function IncomingIn(names: set<string>, s: State, events: seq<Event>, pair: Pair): nat {
    if events == [] then 0
    else
      IncomingIn(names, s, events[..|events| - 1], pair)
      + Incoming(names, After(names, s, events[..|events| - 1]), events[|events| - 1], pair)
  }

  lemma {:induction false} SweepCounts(s: State, sweep: seq<Pair>, pair: Pair)
    requires NoDuplicates(sweep)
    ensures RevokesSent(SendRevokes(s, sweep).sent, pair) == RevokesSent(s.sent, pair) + if pair in sweep then 1 else 0
    ensures SendRevokes(s, sweep).rows == s.rows
  {
    if sweep != [] {
      var front := sweep[..|sweep| - 1];
      SweepCounts(s, front, pair);
      SentOne(SendRevokes(s, front), RevokeAccess(sweep[|sweep| - 1]), pair);
    }
  }

  lemma {:induction false} SentOne(s: State, p: Payload, pair: Pair)
    ensures RevokesSent(Send(s, p).sent, pair) == RevokesSent(s.sent, pair) + if p == RevokeAccess(pair) then 1 else 0
    ensures Send(s, p).rows == s.rows
  {
  }

  lemma {:induction false} RunConserves(s: State, id: nat, outcome: Outcome, sweep: seq<Pair>, pair: Pair)
    requires id < |s.sent| && (s.sent[id].RevokeAll? ==> NoDuplicates(sweep))
    ensures var t := HandleMessage(s, id, outcome, sweep);
            && t.rows == s.rows
            && RevokesSent(t.sent, pair)
            == RevokesSent(s.sent, pair) + if !Guarded(s, id) && s.sent[id].RevokeAll? && pair in sweep then 1 else 0
  {
    hide SendRevokes, Roles, EffectOf, Tasks, Queue, Guarded, RevokesSent;
    if s.sent[id].RevokeAll? {
      SweepCounts(s, sweep, pair);
    }
  }

  lemma {:induction false} DeletedConserves(names: set<string>, s: State, pk: nat, pair: Pair)
    requires UniquePairs(s) && pk in s.rows
    ensures RevokesSent(Deleted(s, pk).sent, pair) + Holding(Deleted(s, pk), pair)
         == RevokesSent(s.sent, pair) + Holding(s, pair)
  {
    hide RevokesSent;
    SentOne(s.(rows := s.rows - {pk}), RevokeAccess(s.rows[pk].pair), pair);
    var t := Deleted(s, pk);
    if HasRow(s, pair) && s.rows[pk].pair != pair {
      var p :| p in s.rows && s.rows[p].pair == pair;
      assert p in t.rows && t.rows[p].pair == pair;
    }
  }

  lemma {:induction false} CreatedConserves(names: set<string>, s: State, pair: Pair, grant: Grant, other: Pair)
    requires RowsInOrder(names, s) && !HasRow(s, pair)
    ensures RevokesSent(Created(s, pair, grant).sent, other) == RevokesSent(s.sent, other)
    ensures Holding(Created(s, pair, grant), other) == Holding(s, other) + if other == pair then 1 else 0
  {
    hide RevokesSent;
    SentOne(s.(rows := s.rows[s.nextPk := Row(pair, grant)], nextPk := s.nextPk + 1), GrantAccess(s.nextPk), other);
    var t := Created(s, pair, grant);
    assert t.rows[s.nextPk].pair == pair;
    if HasRow(s, other) {
      var p :| p in s.rows && s.rows[p].pair == other;
      assert p in t.rows && t.rows[p].pair == other;
    }
  }

  lemma {:induction false} UpdatedConserves(s: State, pk: nat, grant: Grant, pair: Pair)
    requires pk in s.rows
    ensures RevokesSent(Updated(s, pk, grant).sent, pair) == RevokesSent(s.sent, pair)
    ensures Holding(Updated(s, pk, grant), pair) == Holding(s, pair)
  {
    hide RevokesSent;
    SentOne(s.(rows := s.rows[pk := s.rows[pk].(grant := grant)]), GrantAccess(pk), pair);
    var t := Updated(s, pk, grant);
    assert forall p :: p in s.rows <==> p in t.rows;
    assert forall p :: p in s.rows ==> t.rows[p].pair == s.rows[p].pair;
  }

  lemma {:induction false} EventConserves(names: set<string>, s: State, e: Event, pair: Pair)
    requires Consistent(names, s)
    ensures RevokesSent(Next(names, s, e).sent, pair) + Holding(Next(names, s, e), pair)
         == RevokesSent(s.sent, pair) + Holding(s, pair) + Incoming(names, s, e, pair)
  {
    hide RevokesSent, Created, Updated, Deleted, HandleMessage, Send, Guarded;
    if Enabled(names, s, e) {
      match e
      case Create(p, grant) => CreatedConserves(names, s, p, grant, pair);
      case Update(pk, grant) => UpdatedConserves(s, pk, grant, pair);
      case Delete(pk) => DeletedConserves(names, s, pk, pair);
      case Deliver(id, outcome, sweep) => RunConserves(s, id, outcome, sweep, pair);
      case SoftDelete(bucket) => SentOne(s, RevokeAll(bucket), pair);
      case _ =>
    }
  }

  /**
   * Conservation over every run: for each pair, the revokes sent plus the row that is there, if any,
   * are the rows created for it plus the revoke-alls that went over it. So each row that goes, by
   * whatever way, leaves exactly one revoke, and a row that stays none.
   */
  lemma {:induction false} RevokesConserved(names: set<string>, events: seq<Event>, pair: Pair)
    requires ValidNames(names)
    ensures var s := After(names, START, events);
            RevokesSent(s.sent, pair) + Holding(s, pair) == IncomingIn(names, START, events, pair)
  {
    hide Next, Incoming, Consistent, RolesEncoded, ValidNames;
    if events != [] {
      RevokesConserved(names, events[..|events| - 1], pair);
      AfterConsistent(names, events[..|events| - 1]);
      EventConserves(names, After(names, START, events[..|events| - 1]), events[|events| - 1], pair);
    }
  }
}
