/**
 When the documents agree with the rows. Grants run out of order and repeatedly, yet because each
 reads the current row, a document that differs from a row still has a grant of that row coming,
 provided that rows are not created again while a revoke of their pair is outstanding.
 */
module AccessConvergence {
  import opened RoleGrants
  import opened GrantRefinement
  import opened ListingRuns
  import opened AccessTasks

  // ---------------------------------------------------------------- the discipline

  /** Every revoke of the pair that was ever sent has completed. */
  predicate Settled(s: State, pair: Pair) {
    forall id :: 0 <= id < |s.sent| && s.sent[id] == RevokeAccess(pair) ==> Completed(s, id)
  }

  /** Rows are created for settled pairs only, no grant is cancelled and no bucket soft-deleted. */
  predicate Disciplined(s: State, e: Event) {
    match e
    case Create(pair, _) => Settled(s, pair)
    case Cancel(id) => id < |s.sent| ==> !s.sent[id].GrantAccess?
    case SoftDelete(_) => false
    case _ => true
  }

  ghost predicate DisciplinedFrom(names: set<string>, s: State, events: seq<Event>) {
    events == [] || (&& DisciplinedFrom(names, s, events[..|events| - 1])
                     && Disciplined(After(names, s, events[..|events| - 1]), events[|events| - 1]))
  }

  ghost predicate DisciplinedRun(names: set<string>, events: seq<Event>) {
    DisciplinedFrom(names, START, events)
  }

  // ---------------------------------------------------------------- what disciplined runs keep

  /** The role holds exactly the row's level and paths. */
  predicate Agrees(s: State, row: Row) {
    var g := RoleOf(s, row.pair.user).granted;
    row.pair.name in g && g[row.pair.name] == row.grant
  }

  predicate PendingGrant(s: State, id: nat, pk: nat) {
    id < |s.sent| && s.sent[id] == GrantAccess(pk) && !Completed(s, id) && id in s.queue
  }

  predicate GrantPending(s: State, pk: nat) {
    exists id :: 0 <= id < |s.sent| && PendingGrant(s, id, pk)
  }

  ghost predicate RowsSettled(s: State) {
    forall pk :: pk in s.rows ==> Settled(s, s.rows[pk].pair)
  }

  ghost predicate GrantsRun(s: State) {
    forall id :: 0 <= id < |s.sent| ==> !s.sent[id].RevokeAll? && (s.sent[id].GrantAccess? ==> !Cancelled(s, id))
  }

  ghost predicate Converging(s: State) {
    forall pk :: pk in s.rows ==> Agrees(s, s.rows[pk]) || GrantPending(s, pk)
  }

  lemma {:induction false} NextGrantsRun(names: set<string>, s: State, e: Event)
    requires IdsInRange(s) && GrantsRun(s) && Disciplined(s, e)
    ensures GrantsRun(Next(names, s, e))
  {
    hide HandleMessage, ValidPaths, HasRow, SweepOf, Settled;
    if e.Deliver? && Enabled(names, s, e) {
      RunShape(s, e.id, e.outcome, e.sweep);
      RunTasks(s, e.id, e.outcome, e.sweep);
    }
  }

  /** Without revoke-alls, the only new revokes are those of rows that are removed. */
  lemma {:induction false} NewRevoke(names: set<string>, s: State, e: Event, id: nat, pair: Pair)
    requires GrantsRun(s) && id < |Next(names, s, e).sent| && Next(names, s, e).sent[id] == RevokeAccess(pair)
    ensures id < |s.sent| ==> s.sent[id] == RevokeAccess(pair)
    ensures id >= |s.sent| ==> e.Delete? && e.pk in s.rows && s.rows[e.pk].pair == pair
    ensures id >= |s.sent| ==> Next(names, s, e).rows == s.rows - {e.pk}
  {
    hide HandleMessage, ValidPaths, SweepOf, HasRow, Cancelled;
    if e.Deliver? && Enabled(names, s, e) {
      RunShape(s, e.id, e.outcome, e.sweep);
    }
  }

  /** A pair that has a row stays settled. */
  lemma {:induction false} SettledKept(names: set<string>, s: State, e: Event, pair: Pair)
    requires GrantsRun(s) && UniquePairs(s) && Settled(s, pair)
    requires HasRow(Next(names, s, e), pair)
    ensures Settled(Next(names, s, e), pair)
  {
    hide Next, GrantsRun, Completed;
    var t := Next(names, s, e);
    forall id | 0 <= id < |t.sent| && t.sent[id] == RevokeAccess(pair)
      ensures Completed(t, id)
    {
      NewRevoke(names, s, e, id, pair);
      assert Completed(s, id);
      CompletedKept(names, s, e, id);
    }
  }

  /** A row of the next state is new, or its pair had a row before. */
  lemma {:induction false} RowBefore(names: set<string>, s: State, e: Event, pk: nat)
    requires pk in Next(names, s, e).rows
    ensures var row := Next(names, s, e).rows[pk];
            || (pk in s.rows && s.rows[pk] == row)
            || (pk in s.rows && e == Update(pk, row.grant) && s.rows[pk].pair == row.pair && Enabled(names, s, e))
            || (e == Create(row.pair, row.grant) && pk == s.nextPk && Enabled(names, s, e))
  {
    hide HandleMessage, ValidPaths, SweepOf, HasRow;
    if e.Deliver? && Enabled(names, s, e) {
      RunShape(s, e.id, e.outcome, e.sweep);
    }
  }

  lemma {:induction false} NextRowsSettled(names: set<string>, s: State, e: Event)
    requires Consistent(names, s) && GrantsRun(s) && RowsSettled(s) && Disciplined(s, e)
    ensures RowsSettled(Next(names, s, e))
  {
    hide Next, Enabled, IdsInRange, RowsInOrder, UniquePairs, GrantsRun, Settled;
    var t := Next(names, s, e);
    forall pk | pk in t.rows
      ensures Settled(t, t.rows[pk].pair)
    {
      RowBefore(names, s, e, pk);
      SettledKept(names, s, e, t.rows[pk].pair);
    }
  }

  /** A saved row has its grant in the queue. */
  lemma {:induction false} SaveSends(names: set<string>, s: State, e: Event, pk: nat)
    requires IdsInRange(s) && Enabled(names, s, e)
    requires (e.Create? && pk == s.nextPk) || (e.Update? && pk == e.pk)
    ensures GrantPending(Next(names, s, e), pk)
  {
    assert PendingGrant(Next(names, s, e), |s.sent|, pk);
  }

  /** What was agreed stays agreed: no other message changes what the pair holds. */
  lemma {:induction false} AgreementKept(names: set<string>, s: State, e: Event, pk: nat)
    requires UniquePairs(s) && RowsSettled(s) && pk in s.rows && Agrees(s, s.rows[pk])
    ensures Agrees(Next(names, s, e), s.rows[pk])
  {
    hide HandleMessage, PerformOp, ValidPaths, SweepOf, HasRow;
    if e.Deliver? && Enabled(names, s, e) {
      RunShape(s, e.id, e.outcome, e.sweep);
      assert Settled(s, s.rows[pk].pair);
    }
  }

  /** A pending grant stays pending, or it runs and the role then agrees with the row. */
  lemma {:induction false} GrantKept(names: set<string>, s: State, e: Event, pk: nat, id: nat)
    requires IdsInRange(s) && GrantsRun(s) && pk in s.rows && PendingGrant(s, id, pk)
    ensures PendingGrant(Next(names, s, e), id, pk) || Agrees(Next(names, s, e), s.rows[pk])
  {
    hide HandleMessage, PerformOp, ValidPaths, SweepOf, HasRow;
    if e.Deliver? && Enabled(names, s, e) {
      RunShape(s, e.id, e.outcome, e.sweep);
      RunQueue(s, e.id, e.outcome, e.sweep);
      RunTasks(s, e.id, e.outcome, e.sweep);
    }
  }

  lemma {:induction false} NextConverging(names: set<string>, s: State, e: Event)
    requires Consistent(names, s) && GrantsRun(s) && RowsSettled(s) && Converging(s)
    ensures Converging(Next(names, s, e))
  {
    hide Next, Enabled, IdsInRange, RowsInOrder, UniquePairs, GrantsRun, RowsSettled, Agrees, PendingGrant;
    var t := Next(names, s, e);
    forall pk | pk in t.rows
      ensures Agrees(t, t.rows[pk]) || GrantPending(t, pk)
    {
      RowBefore(names, s, e, pk);
      if pk in s.rows && s.rows[pk] == t.rows[pk] {
        if Agrees(s, s.rows[pk]) {
          AgreementKept(names, s, e, pk);
        } else {
          var id :| 0 <= id < |s.sent| && PendingGrant(s, id, pk);
          GrantKept(names, s, e, pk, id);
          PendingGrantSent(t, id, pk);
        }
      } else {
        SaveSends(names, s, e, pk);
      }
    }
  }

  lemma {:induction false} PendingGrantSent(s: State, id: nat, pk: nat)
    ensures PendingGrant(s, id, pk) ==> id < |s.sent|
  {
  }

  /** What disciplined runs keep. */
  ghost predicate Steady(names: set<string>, s: State) {
    Consistent(names, s) && GrantsRun(s) && RowsSettled(s) && Converging(s)
  }

  lemma {:induction false} AfterSteady(names: set<string>, s: State, events: seq<Event>)
    requires Steady(names, s) && DisciplinedFrom(names, s, events)
    ensures Steady(names, After(names, s, events))
  {
    hide Consistent, Next, GrantsRun, RowsSettled, Converging, Disciplined;
    if events != [] {
      var t, e := After(names, s, events[..|events| - 1]), events[|events| - 1];
      AfterSteady(names, s, events[..|events| - 1]);
      ConsistentIds(names, t);
      NextConsistent(names, t, e);
      NextGrantsRun(names, t, e);
      NextRowsSettled(names, t, e);
      NextConverging(names, t, e);
    }
  }

  lemma {:induction false} AfterConverging(names: set<string>, events: seq<Event>)
    requires DisciplinedRun(names, events)
    ensures Steady(names, After(names, START, events))
    ensures var s := After(names, START, events); GrantsRun(s) && RowsSettled(s) && Converging(s)
  {
    StartConverging();
    AfterSteady(names, START, events);
  }

  lemma {:induction false} StartConverging()
    ensures GrantsRun(START) && RowsSettled(START) && Converging(START)
    ensures forall names: set<string> :: Consistent(names, START)
  {
  }

  lemma {:induction false} ConsistentIds(names: set<string>, s: State)
    requires Consistent(names, s)
    ensures IdsInRange(s)
  {
  }

  /**
   * Convergence: in every disciplined run, whatever the order and however often messages are
   * handled, each row is what the role holds, or a grant for it is in the queue and will run.
   */
  lemma {:induction false} ConvergenceOfRuns(names: set<string>, events: seq<Event>, pk: nat, use: Use)
    requires ValidNames(names) && DisciplinedRun(names, events)
    requires pk in After(names, START, events).rows
    requires var name := After(names, START, events).rows[pk].pair.name;
             UseOf(name, use) && NoCollisionFor(names, name, use) && NoExtensionFor(names, name, use)
    ensures var s := After(names, START, events);
            var pair := s.rows[pk].pair;
            || (AllowsUse(RoleOf(s, pair.user).document, pair.name, use) <==> CoversUse(pair.name, s.rows[pk].grant, use))
            || GrantPending(s, pk)
  {
    AfterConsistent(names, events);
    RowNamed(names, After(names, START, events), pk);
    hide After, RolesEncoded, ValidNames, AllowsUse, CoversUse, GrantPending, DisciplinedRun, Consistent, UseOf, NoCollisionFor,
         NoExtensionFor;
    AfterConverging(names, events);
    RoleAllows(names, events, After(names, START, events).rows[pk].pair, use);
  }

  lemma {:induction false} RowNamed(names: set<string>, s: State, pk: nat)
    requires Consistent(names, s) && pk in s.rows
    ensures s.rows[pk].pair.name in names
  {
  }

  // ---------------------------------------------------------------- at rest

  /** No message that is left would do anything: each is completed, cancelled or about a row that is gone. */
  ghost predicate AtRest(s: State) {
    forall id :: 0 <= id < |s.sent| && id in s.queue ==> Guarded(s, id) || RowMissing(s, s.sent[id])
  }

  /** A revoke of the pair was cancelled and not run since. */
  predicate Abandoned(s: State, pair: Pair) {
    exists id :: 0 <= id < |s.sent| && s.sent[id] == RevokeAccess(pair) && Cancelled(s, id) && !Completed(s, id)
  }

  lemma {:induction false} RestingRowsAgree(s: State, pk: nat)
    requires AtRest(s) && GrantsRun(s) && Converging(s) && pk in s.rows
    ensures Agrees(s, s.rows[pk])
  {
  }

  lemma {:induction false} RestingOrphans(s: State, pair: Pair)
    requires AtRest(s) && NoOrphans(s) && !Abandoned(s, pair)
    ensures pair.name in RoleOf(s, pair.user).granted ==> HasRow(s, pair)
  {
  }

  /**
   * At the end of a disciplined run, when no message is left to run and no revoke was abandoned, a
   * user may act on an object, or list contents, exactly when a row of that user says so.
   */
  lemma {:induction false} AccessMatchesRows(names: set<string>, events: seq<Event>, pair: Pair, use: Use)
    requires ValidNames(names) && pair.name in names && DisciplinedRun(names, events)
    requires UseOf(pair.name, use) && NoCollisionFor(names, pair.name, use) && NoExtensionFor(names, pair.name, use)
    requires AtRest(After(names, START, events)) && !Abandoned(After(names, START, events), pair)
    ensures var s := After(names, START, events);
            AllowsUse(RoleOf(s, pair.user).document, pair.name, use) <==>
              exists pk :: pk in s.rows && s.rows[pk].pair == pair && CoversUse(pair.name, s.rows[pk].grant, use)
  {
    hide After, RolesEncoded, ValidNames, AllowsUse, CoversUse, DisciplinedRun, AtRest, Abandoned, NoOrphans, Converging,
         GrantsRun, RowsSettled, Consistent, UseOf, NoCollisionFor, NoExtensionFor;
    var s := After(names, START, events);
    AfterConverging(names, events);
    AfterNoOrphans(names, events);
    RoleAllows(names, events, pair, use);
    RestingOrphans(s, pair);
    forall pk | pk in s.rows && s.rows[pk].pair == pair
      ensures Agrees(s, s.rows[pk])
    {
      RestingRowsAgree(s, pk);
    }
  }

  // ---------------------------------------------------------------- why the discipline is needed

  /** Grant, remove the row, create it again, run the new grant and only then the old revoke. */
  function RecreatedTooEarly(pair: Pair, grant: Grant): seq<Event> {
    [Create(pair, grant), Deliver(0, Finished(true), []), Delete(0), Create(pair, grant),
     Deliver(2, Finished(true), []), Deliver(1, Finished(true), [])]
  }

  /** A delivery without a task row, acknowledged. */
  lemma {:induction false} PlainDelivery(names: set<string>, s: State, id: nat)
    requires id in s.queue && id < |s.sent| && s.tasks == map[]
    requires !s.sent[id].RevokeAll? && !RowMissing(s, s.sent[id])
    ensures Next(names, s, Deliver(id, Finished(true), []))
         == s.(queue := s.queue - multiset{id}, roles := Roles(s, EffectOf(s, s.sent[id])))
  {
    hide Roles, EffectOf;
  }

  lemma {:induction false} PlainCreate(names: set<string>, s: State, pair: Pair, grant: Grant)
    requires pair.name in names && ValidPaths(grant.paths) && !HasRow(s, pair)
    ensures Next(names, s, Create(pair, grant)) == Created(s, pair, grant)
  {
  }

  lemma {:induction false} PlainDelete(names: set<string>, s: State, pk: nat)
    requires pk in s.rows
    ensures Next(names, s, Delete(pk)) == Deleted(s, pk)
  {
  }

  lemma {:induction false} AfterThree(names: set<string>, s: State, events: seq<Event>, a: Event, b: Event, c: Event)
    ensures After(names, s, events + [a, b, c])
         == Next(names, Next(names, Next(names, After(names, s, events), a), b), c)
  {
    hide Next;
    AfterOne(names, s, events, a);
    AfterOne(names, s, events + [a], b);
    AfterOne(names, s, events + [a] + [b], c);
    assert events + [a] + [b] + [c] == events + [a, b, c];
  }

  /** Create, run the grant, remove the row. */
  lemma {:induction false} GrantedAndRemoved(names: set<string>, pair: Pair, grant: Grant)
    requires pair.name in names && ValidPaths(grant.paths)
    ensures var s := Next(names, Next(names, Next(names, START, Create(pair, grant)), Deliver(0, Finished(true), [])), Delete(0));
            && s.rows == map[] && s.nextPk == 1 && s.tasks == map[]
            && s.sent == [GrantAccess(0), RevokeAccess(pair)] && s.queue == multiset{1}
  {
    hide Next, Created, Deleted, HasRow, ValidPaths, Roles, EffectOf;
    NoRow(START, pair);
    PlainCreate(names, START, pair, grant);
    CreatedShape(START, pair, grant);
    var s1 := Created(START, pair, grant);
    PlainDelivery(names, s1, 0);
    var s2 := s1.(queue := s1.queue - multiset{0}, roles := Roles(s1, EffectOf(s1, s1.sent[0])));
    PlainDelete(names, s2, 0);
    DeletedShape(s2, 0);
  }

  /** Create again, run the new grant, and only then the old revoke. */
  lemma {:induction false} RevokedAfterwards(names: set<string>, s: State, pair: Pair, grant: Grant)
    requires pair.name in names && ValidPaths(grant.paths)
    requires s.rows == map[] && s.nextPk == 1 && s.tasks == map[]
    requires s.sent == [GrantAccess(0), RevokeAccess(pair)] && s.queue == multiset{1}
    ensures var t := Next(names, Next(names, Next(names, s, Create(pair, grant)), Deliver(2, Finished(true), [])),
                          Deliver(1, Finished(true), []));
            && t.rows == map[1 := Row(pair, grant)] && t.queue == multiset{} && t.tasks == map[]
            && pair.name !in RoleOf(t, pair.user).granted
  {
    hide Next, Created, HasRow, ValidPaths, Roles, EffectOf;
    NoRow(s, pair);
    PlainCreate(names, s, pair, grant);
    CreatedShape(s, pair, grant);
    var s4 := Created(s, pair, grant);
    PlainDelivery(names, s4, 2);
    var s5 := s4.(queue := s4.queue - multiset{2}, roles := Roles(s4, EffectOf(s4, s4.sent[2])));
    PlainDelivery(names, s5, 1);
    RevokedRole(s5, pair);
  }

  lemma {:induction false} RevokedRole(s: State, pair: Pair)
    ensures pair.name !in RoleOf(s.(roles := Roles(s, EffectOf(s, RevokeAccess(pair)))), pair.user).granted
  {
  }

  lemma {:induction false} RecreatedRun(names: set<string>, pair: Pair, grant: Grant)
    requires pair.name in names && ValidPaths(grant.paths)
    ensures var s := After(names, START, RecreatedTooEarly(pair, grant));
            && s.rows == map[1 := Row(pair, grant)] && s.queue == multiset{} && s.tasks == map[]
            && pair.name !in RoleOf(s, pair.user).granted
  {
    hide Next;
    var es := RecreatedTooEarly(pair, grant);
    assert es == [] + [es[0], es[1], es[2]] + [es[3], es[4], es[5]];
    AfterThree(names, START, [], es[0], es[1], es[2]);
    AfterThree(names, START, [] + [es[0], es[1], es[2]], es[3], es[4], es[5]);
    GrantedAndRemoved(names, pair, grant);
    RevokedAfterwards(names, After(names, START, [] + [es[0], es[1], es[2]]), pair, grant);
  }

  lemma {:induction false} NoRow(s: State, pair: Pair)
    requires s.rows == map[]
    ensures !HasRow(s, pair)
  {
  }

  lemma {:induction false} CreatedShape(s: State, pair: Pair, grant: Grant)
    requires s.rows == map[]
    ensures var t := Created(s, pair, grant);
            && t.rows == map[s.nextPk := Row(pair, grant)] && t.nextPk == s.nextPk + 1
            && t.sent == s.sent + [GrantAccess(s.nextPk)] && t.queue == s.queue + multiset{|s.sent|}
            && t.tasks == s.tasks && t.roles == s.roles
  {
  }

  lemma {:induction false} DeletedShape(s: State, pk: nat)
    requires pk in s.rows && s.rows.Keys == {pk}
    ensures var t := Deleted(s, pk);
            && t.rows == map[] && t.nextPk == s.nextPk
            && t.sent == s.sent + [RevokeAccess(s.rows[pk].pair)] && t.queue == s.queue + multiset{|s.sent|}
            && t.tasks == s.tasks && t.roles == s.roles
  {
  }

  /** Without the discipline a run may come to rest with a row that gives no access at all. */
  lemma {:induction false} UndisciplinedLoss(names: set<string>, pair: Pair, grant: Grant, use: Use)
    requires ValidNames(names) && pair.name in names && ValidPaths(grant.paths)
    requires UseOf(pair.name, use) && NoCollisionFor(names, pair.name, use)
    ensures var s := After(names, START, RecreatedTooEarly(pair, grant));
            && AtRest(s) && HasRow(s, pair) && !Abandoned(s, pair)
            && !AllowsUse(RoleOf(s, pair.user).document, pair.name, use)
  {
    hide After, ValidNames, AllowsUse, CoversUse, RecreatedTooEarly, UseOf, NoCollisionFor;
    var s := After(names, START, RecreatedTooEarly(pair, grant));
    RecreatedRun(names, pair, grant);
    assert s.rows[1].pair == pair && forall id :: !Cancelled(s, id);
    RoleAllows(names, RecreatedTooEarly(pair, grant), pair, use);
  }

  // ---------------------------------------------------------------- exactly when a row may be created

  /** Whatever the state of an incomplete revoke, this makes it deliverable. */
  function Wakeup(s: State, id: nat): seq<Event> {
    if id in s.tasks then [Retry(id)]
    else if id in s.queue then []
    else [Record(id), Retry(id)]
  }

  /** After a new grant ran: its message is gone, and there is no other for the row. */
  ghost predicate GrantDone(s: State, pk: nat) {
    && pk in s.rows
    && forall id :: 0 <= id < |s.sent| && s.sent[id] == GrantAccess(pk) ==> id !in s.queue
  }

  lemma {:induction false} NewGrantDone(names: set<string>, s: State, pair: Pair, grant: Grant)
    requires Consistent(names, s) && Enabled(names, s, Create(pair, grant))
    ensures var t := Created(s, pair, grant);
            var r := Next(names, t, Deliver(|s.sent|, Finished(true), []));
            && GrantDone(r, s.nextPk) && r.rows[s.nextPk] == Row(pair, grant)
            && r.sent == s.sent + [GrantAccess(s.nextPk)] && r.tasks == s.tasks
            && (forall id: nat :: id < |s.sent| ==> (id in r.queue <==> id in s.queue))
  {
    hide ValidPaths, Roles, EffectOf, HasRow;
    var t := Created(s, pair, grant);
    assert t.queue == s.queue + multiset{|s.sent|};
    assert |s.sent| !in s.queue && |s.sent| !in t.tasks;
    var r := Next(names, t, Deliver(|s.sent|, Finished(true), []));
    assert r.queue == t.queue - multiset{|s.sent|};
  }

  lemma {:induction false} Woken(names: set<string>, s: State, pk: nat, id: nat)
    requires GrantDone(s, pk) && IdsInRange(s) && id < |s.sent| && s.sent[id].RevokeAccess? && !Completed(s, id)
    ensures var t := After(names, s, Wakeup(s, id));
            && t.rows == s.rows && t.sent == s.sent && GrantDone(t, pk) && !Guarded(t, id) && id in t.queue
    ensures DisciplinedFrom(names, s, Wakeup(s, id))
  {
    hide HasRow, ValidPaths, HandleMessage;
    if id in s.tasks {
      DisciplinedOne(names, s, Retry(id));
    } else if id !in s.queue {
      DisciplinedOne(names, s, Record(id));
      DisciplinedOne(names, Next(names, s, Record(id)), Retry(id));
      DisciplinedAppend(names, s, [Record(id)], [Retry(id)]);
      assert [Record(id)] + [Retry(id)] == [Record(id), Retry(id)];
    } else {
      assert !Guarded(s, id);
    }
  }

  lemma {:induction false} RevokedLast(names: set<string>, s: State, pk: nat, id: nat)
    requires GrantDone(s, pk) && id < |s.sent| && s.sent[id] == RevokeAccess(s.rows[pk].pair)
    requires !Guarded(s, id) && id in s.queue
    ensures var t := Next(names, s, Deliver(id, Finished(true), []));
            pk in t.rows && !Agrees(t, t.rows[pk]) && !GrantPending(t, pk)
  {
    hide PerformOp, ValidPaths;
    var t := Next(names, s, Deliver(id, Finished(true), []));
    assert t.rows == s.rows && t.sent == s.sent;
    assert forall j: nat :: j in t.queue ==> j in s.queue;
  }

  lemma {:induction false} DisciplinedAppend(names: set<string>, s: State, a: seq<Event>, b: seq<Event>)
    requires DisciplinedFrom(names, s, a) && DisciplinedFrom(names, After(names, s, a), b)
    ensures DisciplinedFrom(names, s, a + b) && After(names, s, a + b) == After(names, After(names, s, a), b)
  {
    hide Next, Disciplined;
    if b == [] {
      assert a + b == a;
    } else {
      var front, last := b[..|b| - 1], b[|b| - 1];
      DisciplinedAppend(names, s, a, front);
      assert a + b == a + front + [last];
      assert (a + front + [last])[..|a + front|] == a + front;
    }
  }

  lemma {:induction false} DisciplinedOne(names: set<string>, s: State, e: Event)
    requires Disciplined(s, e)
    ensures DisciplinedFrom(names, s, [e]) && After(names, s, [e]) == Next(names, s, e)
  {
    assert [e][..0] == [];
  }

  lemma {:induction false} EnabledCreate(names: set<string>, s: State, pair: Pair, grant: Grant)
    requires Enabled(names, s, Create(pair, grant))
    ensures Next(names, s, Create(pair, grant)) == Created(s, pair, grant)
  {
  }

  /** A row created too early is lost, by a run that is disciplined from then on. */
  lemma {:induction false} CreatedTooEarly(names: set<string>, s: State, pair: Pair, grant: Grant, id: nat)
    requires Consistent(names, s) && Enabled(names, s, Create(pair, grant))
    requires id < |s.sent| && s.sent[id] == RevokeAccess(pair) && !Completed(s, id)
    ensures var t := Created(s, pair, grant);
            var more := [Deliver(|s.sent|, Finished(true), [])]
                        + Wakeup(Next(names, t, Deliver(|s.sent|, Finished(true), [])), id)
                        + [Deliver(id, Finished(true), [])];
            DisciplinedFrom(names, t, more) && !Converging(After(names, t, more))
  {
    var t := Created(s, pair, grant);
    var first, last := Deliver(|s.sent|, Finished(true), []), Deliver(id, Finished(true), []);
    NewGrantDone(names, s, pair, grant);
    DisciplinedOne(names, t, first);
    var u := Next(names, t, first);
    assert IdsInRange(u);
    Woken(names, u, s.nextPk, id);
    var v := After(names, u, Wakeup(u, id));
    RevokedLast(names, v, s.nextPk, id);
    DisciplinedOne(names, v, last);
    hide Next, Disciplined, Wakeup, GrantDone, Agrees, GrantPending, Created, Enabled;
    DisciplinedAppend(names, t, [first], Wakeup(u, id));
    DisciplinedAppend(names, t, [first] + Wakeup(u, id), [last]);
  }

  /**
   * Exactly when: after a disciplined run, a row may be created without giving up convergence in
   * any disciplined continuation if and only if every revoke of its pair has completed.
   */
  lemma {:induction false} SafeToCreateIffSettled(names: set<string>, events: seq<Event>, pair: Pair, grant: Grant)
    requires DisciplinedRun(names, events)
    requires Enabled(names, After(names, START, events), Create(pair, grant))
    ensures var s := After(names, START, events);
            (forall more :: DisciplinedFrom(names, Created(s, pair, grant), more) ==>
                              Converging(After(names, Created(s, pair, grant), more)))
            <==> Settled(s, pair)
  {
    hide Next, Enabled, Consistent, GrantsRun, RowsSettled, Converging, Created, DisciplinedRun, DisciplinedFrom,
         After,
         Completed;
    var s := After(names, START, events);
    var t := Created(s, pair, grant);
    AfterConverging(names, events);
    EnabledCreate(names, s, pair, grant);
    if Settled(s, pair) {
      DisciplinedOne(names, s, Create(pair, grant));
      AfterSteady(names, s, [Create(pair, grant)]);
      forall more | DisciplinedFrom(names, t, more)
        ensures Converging(After(names, t, more))
      {
        AfterSteady(names, t, more);
      }
    } else {
      var id :| 0 <= id < |s.sent| && s.sent[id] == RevokeAccess(pair) && !Completed(s, id);
      CreatedTooEarly(names, s, pair, grant, id);
    }
  }
}
