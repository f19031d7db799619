/**
 Tool deployments. A request deactivates all deployments of the user and tool type, records which one
 was active, and sends a message; a worker activates the new deployment, deploys it, and deactivates it
 again if that fails. Requests, activations and results of all users interleave.
 */
module ToolActivation {
  import opened Options

  datatype Key = Key(user: nat, toolType: string)

  /** A row of ToolDeployment; its index is its id, in the order of creation. */
  datatype Deployment = Deployment(key: Key, active: bool, previous: Option<nat>)

  /**
   * `pending` holds the messages that no worker has taken yet, each by the id of its deployment;
   * `deploying` the deployments that were activated and have not come to a result.
   */
  datatype State = State(deployments: seq<Deployment>, pending: multiset<nat>, deploying: multiset<nat>)

  datatype Event =
    | Request(key: Key)
    | Repeat(id: nat)      // the message is delivered once more
    | Activate(id: nat)
    | Resolve(id: nat, deployed: bool)

  const START := State([], multiset{}, multiset{})

  // ---------------------------------------------------------------- steps

  /** `filter(user, tool_type, is_active=True).first()`: the latest one. */
  function FirstActive(ds: seq<Deployment>, key: Key): (id: Option<nat>)
    ensures id.Some? ==> id.value < |ds| && ds[id.value].key == key && ds[id.value].active
    ensures id.Some? ==> forall i :: id.value < i < |ds| && ds[i].key == key ==> !ds[i].active
    ensures id.None? ==> forall i :: 0 <= i < |ds| && ds[i].key == key ==> !ds[i].active
  {
    if ds == [] then None
    else
      var last := |ds| - 1;
      if ds[last].key == key && ds[last].active then Some(last) else FirstActive(ds[..last], key)
  }

  /** `filter(user, tool_type).update(is_active=False)` */
  function Deactivated(ds: seq<Deployment>, key: Key): (r: seq<Deployment>)
    ensures |r| == |ds|
    ensures forall i :: 0 <= i < |ds| ==> r[i] == if ds[i].key == key then ds[i].(active := false) else ds[i]
  {
    seq(|ds|, i requires 0 <= i < |ds| => if ds[i].key == key then ds[i].(active := false) else ds[i])
  }

  function Requested(s: State, key: Key): State {
    var ds := Deactivated(s.deployments, key) + [Deployment(key, false, FirstActive(s.deployments, key))];
    s.(deployments := ds, pending := s.pending + multiset{|s.deployments|})
  }

  function WithActive(s: State, id: nat, active: bool): State
    requires id < |s.deployments|
  {
    s.(deployments := s.deployments[id := s.deployments[id].(active := active)])
  }

  function Activated(s: State, id: nat): State
    requires id < |s.deployments|
  {
    var taken := s.(pending := s.pending - multiset{id});
    if s.deployments[id].active then taken
    else WithActive(taken, id, true).(deploying := s.deploying + multiset{id})
  }

  function Resolved(s: State, id: nat, deployed: bool): State
    requires id < |s.deployments|
  {
    var done := s.(deploying := s.deploying - multiset{id});
    if deployed then done else WithActive(done, id, false)
  }

  predicate Enabled(s: State, e: Event) {
    match e
    case Request(_) => true
    case Repeat(id) => id < |s.deployments|
    case Activate(id) => id in s.pending && id < |s.deployments|
    case Resolve(id, _) => id in s.deploying && id < |s.deployments|
  }

  function Next(s: State, e: Event): State {
    if !Enabled(s, e) then s
    else
      match e
      case Request(key) => Requested(s, key)
      case Repeat(id) => s.(pending := s.pending + multiset{id})
      case Activate(id) => Activated(s, id)
      case Resolve(id, deployed) => Resolved(s, id, deployed)
  }

  function After(s: State, events: seq<Event>): State {
    if events == [] then s else Next(After(s, events[..|events| - 1]), events[|events| - 1])
  }

  // ---------------------------------------------------------------- the code

  class ToolDeployments {
    var rows: seq<Deployment>
    var messages: multiset<nat>
    var running: multiset<nat>

    function Value(): State
      reads this
    {
      State(rows, messages, running)
    }

    /** `ToolDeploymentSerializer.create` */
    method Create(user: nat, toolType: string) returns (id: nat)
      modifies this
      ensures Value() == Requested(old(Value()), Key(user, toolType))
      ensures id == |old(rows)| == |rows| - 1 && id in messages
      ensures rows[id].key == Key(user, toolType) && !rows[id].active
      ensures forall j :: 0 <= j < id ==>
                rows[j] == if old(rows)[j].key == Key(user, toolType) then old(rows)[j].(active := false) else old(rows)[j]
    {
      var key := Key(user, toolType);
      var previous := FirstActive(rows, key);
      var i := 0;
      while i < |rows|
        modifies this`rows
        invariant 0 <= i <= |rows| == |old(rows)|
        invariant forall j :: 0 <= j < |rows| ==>
                    rows[j] == if j < i && old(rows)[j].key == key then old(rows)[j].(active := false) else old(rows)[j]
      {
        if rows[i].key == key {
          rows := rows[i := rows[i].(active := false)];
        }
        i := i + 1;
      }
      assert rows == Deactivated(old(rows), key);
      id := |rows|;
      rows := rows + [Deployment(key, false, previous)];
      messages := messages + multiset{id};
    }

    /** `tool_deploy` up to the end of its transaction; whether there is something to deploy. */
    method MarkActive(id: nat) returns (deploy: bool)
      requires id in messages && id < |rows|
      modifies this
      ensures Value() == Activated(old(Value()), id)
      ensures deploy <==> !old(rows)[id].active
      ensures rows == old(rows)[id := old(rows)[id].(active := true)]
    {
      messages := messages - multiset{id};
      deploy := !rows[id].active;
      if deploy {
        rows := rows[id := rows[id].(active := true)];
        running := running + multiset{id};
      }
    }

    /** The rest of `tool_deploy`, once it is known whether the deployment worked. */
    method FinishDeploy(id: nat, deployed: bool)
      requires id in running && id < |rows|
      modifies this
      ensures Value() == Resolved(old(Value()), id, deployed)
      ensures rows == if deployed then old(rows) else old(rows)[id := old(rows)[id].(active := false)]
    {
      running := running - multiset{id};
      if !deployed {
        rows := rows[id := rows[id].(active := false)];
      }
    }

    /** `tool_deploy` without interruption. */
    method ToolDeploy(id: nat, deployed: bool)
      requires id in messages && id < |rows|
      modifies this
      ensures Value() == After(old(Value()), if old(rows)[id].active then [Activate(id)] else [Activate(id), Resolve(id, deployed)])
      ensures rows == if old(rows)[id].active then old(rows) else old(rows)[id := old(rows)[id].(active := deployed)]
    {
      hide Requested, FirstActive, Deactivated, After;
      Twice(Value(), Activate(id), Resolve(id, deployed));
      var deploy := MarkActive(id);
      if deploy {
        FinishDeploy(id, deployed);
      }
    }
  }

  lemma {:induction false} Twice(s: State, a: Event, b: Event)
    ensures After(s, [a]) == Next(s, a)
    ensures After(s, [a, b]) == Next(Next(s, a), b)
  {
  }

  // ---------------------------------------------------------------- what events do to the rows

  /** A request deactivates its key and adds an inactive deployment, with a message to be taken. */
  lemma {:induction false} RequestRows(s: State, key: Key)
    ensures var t, n := Next(s, Request(key)), |s.deployments|;
            && |t.deployments| == n + 1
            && t.deployments[n] == Deployment(key, false, FirstActive(s.deployments, key))
            && (forall j :: 0 <= j < n ==>
                  t.deployments[j] == if s.deployments[j].key == key then s.deployments[j].(active := false) else s.deployments[j])
            && t.pending[n] == s.pending[n] + 1 && t.deploying == s.deploying
  {
  }

  /** A repeated message is one more to be taken. */
  lemma {:induction false} RepeatRows(s: State, id: nat)
    requires id < |s.deployments|
    ensures var t := Next(s, Repeat(id));
            t.deployments == s.deployments && t.pending[id] == s.pending[id] + 1 && t.deploying == s.deploying
  {
  }

  /** Taking a message makes its deployment active, whatever it was, and no other row changes. */
  lemma {:induction false} ActivateRows(s: State, id: nat)
    requires id in s.pending && id < |s.deployments|
    ensures var t := Next(s, Activate(id));
            && |t.deployments| == |s.deployments|
            && t.deployments[id] == s.deployments[id].(active := true)
            && (forall j :: 0 <= j < |s.deployments| && j != id ==> t.deployments[j] == s.deployments[j])
            && t.pending[id] == s.pending[id] - 1
            && t.deploying[id] == s.deploying[id] + if s.deployments[id].active then 0 else 1
  {
  }

  /** A success changes no row; a failure makes the deployment inactive, and changes no other. */
  lemma {:induction false} ResolveRows(s: State, id: nat, deployed: bool)
    requires id in s.deploying && id < |s.deployments|
    ensures var t := Next(s, Resolve(id, deployed));
            && (deployed ==> t.deployments == s.deployments)
            && (!deployed ==>
                  && |t.deployments| == |s.deployments|
                  && t.deployments[id] == s.deployments[id].(active := false)
                  && (forall j :: 0 <= j < |s.deployments| && j != id ==> t.deployments[j] == s.deployments[j]))
            && t.deploying[id] == s.deploying[id] - 1 && t.pending == s.pending
  {
  }

  /** Event k of the run was the activation of the deployment. */
  predicate ActivatedAt(events: seq<Event>, k: nat, id: nat) {
    k < |events| && events[k] == Activate(id) && Enabled(After(START, events[..k]), Activate(id))
  }

  /** Event j of the run was a request for the key, or a failed result of the deployment. */
  predicate EndedAt(events: seq<Event>, j: nat, id: nat, key: Key) {
    && j < |events|
    && (events[j] == Request(key)
        || (events[j] == Resolve(id, false) && Enabled(After(START, events[..j]), Resolve(id, false))))
  }

  predicate UnendedSince(events: seq<Event>, k: nat, id: nat, key: Key) {
    forall j: nat :: k < j < |events| ==> !EndedAt(events, j, id, key)
  }

  /** Activated at some moment, and not ended after that. */
  ghost predicate StillActive(events: seq<Event>, id: nat, key: Key) {
    exists k: nat :: ActivatedAt(events, k, id) && UnendedSince(events, k, id, key)
  }

  lemma {:induction false} KeyKept(s: State, e: Event, id: nat)
    requires id < |s.deployments|
    ensures |Next(s, e).deployments| >= |s.deployments| && Next(s, e).deployments[id].key == s.deployments[id].key
  {
  }

  /** What the last event does to the row. */
  lemma {:induction false} ActiveAfter(s: State, e: Event, id: nat)
    requires id < |s.deployments|
    ensures var r := s.deployments[id];
            Next(s, e).deployments[id].active <==>
              || (e == Activate(id) && Enabled(s, e))
              || (r.active && e != Request(r.key) && !(e == Resolve(id, false) && Enabled(s, e)))
  {
    hide FirstActive;
  }

  lemma {:induction false} SameMoment(events: seq<Event>, k: nat, id: nat, key: Key)
    requires k < |events| - 1
    ensures ActivatedAt(events, k, id) == ActivatedAt(events[..|events| - 1], k, id)
    ensures EndedAt(events, k, id, key) == EndedAt(events[..|events| - 1], k, id, key)
  {
    assert events[..|events| - 1][..k] == events[..k];
    hide After, Enabled;
  }

  lemma {:induction false} UnendedStep(events: seq<Event>, k: nat, id: nat, key: Key)
    requires k < |events| - 1
    ensures UnendedSince(events, k, id, key) <==>
              UnendedSince(events[..|events| - 1], k, id, key) && !EndedAt(events, |events| - 1, id, key)
  {
    hide EndedAt;
    var front := events[..|events| - 1];
    if UnendedSince(events, k, id, key) {
      forall j: nat | k < j < |front|
        ensures !EndedAt(front, j, id, key)
      {
        SameMoment(events, j, id, key);
        assert !EndedAt(events, j, id, key);
      }
    }
    if UnendedSince(front, k, id, key) && !EndedAt(events, |events| - 1, id, key) {
      forall j: nat | k < j < |events|
        ensures !EndedAt(events, j, id, key)
      {
        if j < |front| {
          SameMoment(events, j, id, key);
          assert !EndedAt(front, j, id, key);
        }
      }
    }
  }

  lemma {:induction false} StillActiveStep(events: seq<Event>, id: nat, key: Key)
    requires events != []
    ensures StillActive(events, id, key) <==>
              || ActivatedAt(events, |events| - 1, id)
              || (StillActive(events[..|events| - 1], id, key) && !EndedAt(events, |events| - 1, id, key))
  {
    var front, n: nat := events[..|events| - 1], |events| - 1;
    assert UnendedSince(events, n, id, key);
    hide ActivatedAt, EndedAt, UnendedSince;
    if StillActive(events, id, key) && !ActivatedAt(events, n, id) {
      var k: nat :| ActivatedAt(events, k, id) && UnendedSince(events, k, id, key);
      ActivatedBefore(events, k, id);
      SameMoment(events, k, id, key);
      UnendedStep(events, k, id, key);
    }
    if StillActive(front, id, key) && !EndedAt(events, n, id, key) {
      var k: nat :| ActivatedAt(front, k, id) && UnendedSince(front, k, id, key);
      ActivatedBefore(front, k, id);
      SameMoment(events, k, id, key);
      UnendedStep(events, k, id, key);
    }
  }

  lemma {:induction false} ActivatedBefore(events: seq<Event>, k: nat, id: nat)
    ensures ActivatedAt(events, k, id) ==> k < |events|
  {
  }

  lemma {:induction false} NotThereYet(events: seq<Event>, k: nat, id: nat)
    requires |After(START, events).deployments| <= id
    ensures !ActivatedAt(events, k, id)
  {
    hide Next, FirstActive;
    if k < |events| {
      var front := events[..|events| - 1];
      RowsGrow(After(START, front), events[|events| - 1]);
      if k < |front| {
        NotThereYet(front, k, id);
        SameMoment(events, k, id, Key(0, ""));
      } else {
        assert events[..k] == front;
      }
    }
  }

  lemma {:induction false} RowsGrow(s: State, e: Event)
    ensures |s.deployments| <= |Next(s, e).deployments| <= |s.deployments| + 1
    ensures |Next(s, e).deployments| > |s.deployments| ==>
              e.Request? && !Next(s, e).deployments[|s.deployments|].active
  {
  }

  /**
   * Exactly when a deployment is active, in any run: its message was taken at some moment, and since
   * then no request for its key came, and no failed result of its own.
   */
  lemma {:induction false} ActiveIffStillActive(events: seq<Event>, id: nat)
    requires id < |After(START, events).deployments|
    ensures var r := After(START, events).deployments[id]; r.active <==> StillActive(events, id, r.key)
  {
    hide Next, StillActive, Enabled;
    if events != [] {
      var front, e := events[..|events| - 1], events[|events| - 1];
      var s := After(START, front);
      var key := After(START, events).deployments[id].key;
      StillActiveStep(events, id, key);
      LastMoment(events, id, key);
      RowsGrow(s, e);
      if id < |s.deployments| {
        ActiveIffStillActive(front, id);
        KeyKept(s, e, id);
        ActiveAfter(s, e, id);
      } else {
        NeverActivated(front, id, key);
      }
    }
  }

  lemma {:induction false} LastMoment(events: seq<Event>, id: nat, key: Key)
    requires events != []
    ensures var s, e := After(START, events[..|events| - 1]), events[|events| - 1];
            && (ActivatedAt(events, |events| - 1, id) <==> e == Activate(id) && Enabled(s, e))
            && (EndedAt(events, |events| - 1, id, key) <==>
                  e == Request(key) || (e == Resolve(id, false) && Enabled(s, e)))
  {
    hide After, Enabled;
  }

  lemma {:induction false} NeverActivated(events: seq<Event>, id: nat, key: Key)
    requires |After(START, events).deployments| <= id
    ensures !StillActive(events, id, key)
  {
    hide After, ActivatedAt;
    forall k: nat
      ensures !ActivatedAt(events, k, id)
    {
      NotThereYet(events, k, id);
    }
  }

  // ---------------------------------------------------------------- what runs keep

  ghost predicate InRange(s: State) {
    forall id :: id in s.pending || id in s.deploying ==> id < |s.deployments|
  }

  lemma {:induction false} NextInRange(s: State, e: Event)
    requires InRange(s)
    ensures InRange(Next(s, e))
  {
  }

  lemma {:induction false} AfterInRange(s: State, events: seq<Event>)
    requires InRange(s)
    ensures InRange(After(s, events))
  {
    if events != [] {
      AfterInRange(s, events[..|events| - 1]);
      NextInRange(After(s, events[..|events| - 1]), events[|events| - 1]);
    }
  }

  /** Active, or about to be. */
  predicate Live(s: State, id: nat, key: Key) {
    id < |s.deployments| && s.deployments[id].key == key && (s.deployments[id].active || id in s.pending)
  }

  ghost predicate OneLive(s: State, key: Key) {
    forall i, j :: Live(s, i, key) && Live(s, j, key) ==> i == j
  }

  predicate OneActive(s: State, key: Key) {
    forall i, j :: 0 <= i < j < |s.deployments| && s.deployments[i].key == key && s.deployments[j].key == key ==>
      !(s.deployments[i].active && s.deployments[j].active)
  }

  predicate NonePending(s: State, key: Key) {
    forall id :: id in s.pending && id < |s.deployments| ==> s.deployments[id].key != key
  }

  /** No deployment of the same key but this one is live. */
  ghost predicate OnlyLive(s: State, id: nat, key: Key) {
    forall j :: Live(s, j, key) ==> j == id
  }

  /** An event that neither requests nor repeats anything for the key adds nothing live to it. */
  lemma {:induction false} LiveBefore(s: State, e: Event, id: nat, key: Key)
    requires InRange(s) && e != Request(key) && Live(Next(s, e), id, key)
    ensures Live(s, id, key) || e == Repeat(id)
  {
    hide FirstActive, Deactivated;
  }

  /** A request leaves one live deployment, the new one, exactly if no message for the key was pending. */
  lemma {:induction false} RequestLive(s: State, key: Key)
    requires InRange(s)
    ensures OneLive(Next(s, Request(key)), key) <==> NonePending(s, key)
  {
    var t := Next(s, Request(key));
    assert Live(t, |s.deployments|, key);
    if id :| id in s.pending && id < |s.deployments| && s.deployments[id].key == key {
      assert Live(t, id, key);
    }
  }

  /** A repeated message leaves one live deployment, its own, exactly if no other was live. */
  lemma {:induction false} RepeatLive(s: State, id: nat, key: Key)
    requires InRange(s) && id < |s.deployments| && s.deployments[id].key == key
    ensures OneLive(Next(s, Repeat(id)), key) <==> OnlyLive(s, id, key)
  {
    var t := Next(s, Repeat(id));
    assert Live(t, id, key);
    assert forall j :: j != id ==> (Live(t, j, key) <==> Live(s, j, key));
  }

  /** Messages are taken before the next request for their key, and repeated only if nothing else is live. */
  ghost predicate Disciplined(s: State, e: Event) {
    match e
    case Request(key) => NonePending(s, key)
    case Repeat(id) => id < |s.deployments| ==> OnlyLive(s, id, s.deployments[id].key)
    case _ => true
  }

  ghost predicate DisciplinedRun(events: seq<Event>) {
    events == [] || (&& DisciplinedRun(events[..|events| - 1])
                     && Disciplined(After(START, events[..|events| - 1]), events[|events| - 1]))
  }

  lemma {:induction false} KeepsOneLive(s: State, e: Event, key: Key)
    requires InRange(s) && OneLive(s, key) && Disciplined(s, e)
    ensures OneLive(Next(s, e), key)
  {
    if e == Request(key) {
      RequestLive(s, key);
    } else if e.Repeat? && e.id < |s.deployments| && s.deployments[e.id].key == key {
      RepeatLive(s, e.id, key);
    } else {
      forall i | Live(Next(s, e), i, key)
        ensures Live(s, i, key)
      {
        LiveBefore(s, e, i, key);
      }
      hide Next, Live;
    }
  }

  lemma {:induction false} OneLiveOneActive(s: State, key: Key)
    requires OneLive(s, key)
    ensures OneActive(s, key)
  {
    assert forall i: nat :: i < |s.deployments| && s.deployments[i].key == key && s.deployments[i].active ==> Live(s, i, key);
  }

  lemma {:induction false} RunOneLive(events: seq<Event>, key: Key)
    requires DisciplinedRun(events)
    ensures OneLive(After(START, events), key)
  {
    hide Next, OneLive, Disciplined;
    if events == [] {
      StartOneLive(key);
    } else {
      RunOneLive(events[..|events| - 1], key);
      AfterInRange(START, events[..|events| - 1]);
      KeepsOneLive(After(START, events[..|events| - 1]), events[|events| - 1], key);
    }
  }

  lemma {:induction false} StartOneLive(key: Key)
    ensures OneLive(START, key)
  {
  }

  /** In disciplined runs each user has at most one active deployment of each tool type. */
  lemma {:induction false} AtMostOneActive(events: seq<Event>, key: Key)
    requires DisciplinedRun(events)
    ensures OneActive(After(START, events), key)
  {
    RunOneLive(events, key);
    OneLiveOneActive(After(START, events), key);
  }

  /**
   * And the deployment that a request records as the previous one is the one that was active: there
   * is no other, and none is recorded exactly when none was active.
   */
  lemma {:induction false} PreviousIsTheActiveOne(events: seq<Event>, key: Key, id: nat)
    requires DisciplinedRun(events) && id < |After(START, events).deployments|
    ensures var s := After(START, events);
            var created := Next(s, Request(key)).deployments[|s.deployments|];
            && created.key == key && !created.active
            && (created.previous == Some(id) <==> s.deployments[id].key == key && s.deployments[id].active)
  {
    var s := After(START, events);
    AtMostOneActive(events, key);
    var first := FirstActive(s.deployments, key);
    if first.Some? && s.deployments[id].key == key && s.deployments[id].active {
      assert !(first.value < id) && !(id < first.value);
    }
  }

  // ---------------------------------------------------------------- without the discipline

  /** No request for the key, and no repeated message for it but of what is live already. */
  predicate Quiet(s: State, events: seq<Event>, key: Key) {
    forall e :: e in events ==> e != Request(key) && (e.Repeat? ==> !Dormant(s, e.id, key))
  }

  predicate Dormant(s: State, id: nat, key: Key) {
    id < |s.deployments| && s.deployments[id].key == key && !Live(s, id, key)
  }

  /** In such a run, only what was live is live. */
  lemma {:induction false} AfterLive(s: State, events: seq<Event>, key: Key, id: nat)
    requires InRange(s) && Quiet(s, events, key)
    requires Live(After(s, events), id, key)
    ensures Live(s, id, key)
  {
    if events != [] {
      var front, e := events[..|events| - 1], events[|events| - 1];
      assert forall x :: x in front ==> x in events;
      assert e in events;
      AfterInRange(s, front);
      LiveBefore(After(s, front), e, id, key);
      if Live(After(s, front), id, key) {
        AfterLive(s, front, key, id);
      } else {
        RowsKept(s, front, key, id);
      }
    }
  }

  /** Rows keep their keys, and new ones of the key come of its requests alone. */
  lemma {:induction false} RowsKept(s: State, events: seq<Event>, key: Key, id: nat)
    requires Quiet(s, events, key)
    requires var t := After(s, events); id < |t.deployments| && t.deployments[id].key == key
    ensures id < |s.deployments| && s.deployments[id].key == key
  {
    if events != [] {
      var front, e := events[..|events| - 1], events[|events| - 1];
      assert forall x :: x in front ==> x in events;
      assert e in events;
      RowsKept(s, front, key, id);
    }
  }

  /** Two live deployments can both become active: each is so, or has a message to be taken. */
  function Wakeup(s: State, id: nat): seq<Event>
    requires id < |s.deployments|
  {
    if s.deployments[id].active then [] else [Activate(id)]
  }

  lemma {:induction false} Woken(s: State, id: nat, other: nat, key: Key)
    requires Live(s, id, key) && Live(s, other, key)
    ensures id < |s.deployments| && other < |s.deployments|
    ensures var t := After(s, Wakeup(s, id));
            && |t.deployments| == |s.deployments| && t.deployments[id].key == key
            && Live(t, id, key) && t.deployments[id].active && Live(t, other, key)
            && t.deployments[other].key == key
            && (s.deployments[other].active ==> t.deployments[other].active)
  {
    assert After(s, []) == s;
    assert [Activate(id)][..0] == [];
  }

  lemma {:induction false} AfterAppend(s: State, a: seq<Event>, b: seq<Event>)
    ensures After(s, a + b) == After(After(s, a), b)
  {
    hide Next;
    if b == [] {
      assert a + b == a;
    } else {
      assert (a + b)[..|a + b| - 1] == a + b[..|b| - 1];
      AfterAppend(s, a, b[..|b| - 1]);
    }
  }

  lemma {:induction false} BothActive(s: State, i: nat, j: nat, key: Key)
    requires i != j && Live(s, i, key) && Live(s, j, key)
    ensures exists events :: Quiet(s, events, key) && !OneActive(After(s, events), key)
  {
    Woken(s, i, j, key);
    hide After, Live, Wakeup, OneActive, Quiet;
    var t := After(s, Wakeup(s, i));
    Woken(t, j, i, key);
    AfterAppend(s, Wakeup(s, i), Wakeup(t, j));
    TwoActive(After(t, Wakeup(t, j)), i, j, key);
    WakeupQuiet(s, s, i, key);
    WakeupQuiet(s, t, j, key);
    QuietAppend(s, Wakeup(s, i), Wakeup(t, j), key);
  }

  lemma {:induction false} QuietAppend(s: State, a: seq<Event>, b: seq<Event>, key: Key)
    requires Quiet(s, a, key) && Quiet(s, b, key)
    ensures Quiet(s, a + b, key)
  {
  }

  lemma {:induction false} WakeupQuiet(s: State, t: State, id: nat, key: Key)
    requires id < |t.deployments|
    ensures Quiet(s, Wakeup(t, id), key)
  {
  }

  lemma {:induction false} TwoActive(s: State, i: nat, j: nat, key: Key)
    requires i != j && i < |s.deployments| && j < |s.deployments|
    requires s.deployments[i].key == key && s.deployments[i].active && s.deployments[j].key == key && s.deployments[j].active
    ensures !OneActive(s, key)
  {
    var a, b := if i < j then i else j, if i < j then j else i;
    assert s.deployments[a].active && s.deployments[b].active;
  }

  /** However a quiet run goes on, there is never more than one active deployment of the key. */
  ghost predicate SafeFrom(s: State, key: Key) {
    forall events :: Quiet(s, events, key) ==> OneActive(After(s, events), key)
  }

  lemma {:induction false} SafeIffOneLive(s: State, key: Key)
    requires InRange(s)
    ensures SafeFrom(s, key) <==> OneLive(s, key)
  {
    hide Live, After, OneActive, Quiet;
    if OneLive(s, key) {
      forall events | Quiet(s, events, key)
        ensures OneActive(After(s, events), key)
      {
        forall i | Live(After(s, events), i, key)
          ensures Live(s, i, key)
        {
          AfterLive(s, events, key, i);
        }
        OneLiveOneActive(After(s, events), key);
      }
    } else {
      var i, j :| Live(s, i, key) && Live(s, j, key) && i != j;
      BothActive(s, i, j, key);
    }
  }

  /**
   * Exactly when: whatever happens after a request, short of another one for the key and of messages
   * repeated for what is not live, there is never more than one active deployment, if and only if no
   * earlier message for the key was pending at the request.
   */
  lemma {:induction false} SafeIffNonePending(before: seq<Event>, key: Key)
    ensures var s := After(START, before);
            SafeFrom(Next(s, Request(key)), key) <==> NonePending(s, key)
  {
    var s := After(START, before);
    AfterInRange(START, before);
    NextInRange(s, Request(key));
    RequestLive(s, key);
    SafeIffOneLive(Next(s, Request(key)), key);
  }

  /**
   * And a message may be delivered once more, early or late, if and only if no other deployment of
   * its key is active or has a message pending.
   */
  lemma {:induction false} SafeIffOnlyLive(before: seq<Event>, id: nat)
    requires id < |After(START, before).deployments|
    ensures var s := After(START, before);
            var key := s.deployments[id].key;
            SafeFrom(Next(s, Repeat(id)), key) <==> OnlyLive(s, id, key)
  {
    var s := After(START, before);
    AfterInRange(START, before);
    NextInRange(s, Repeat(id));
    RepeatLive(s, id, s.deployments[id].key);
    SafeIffOneLive(Next(s, Repeat(id)), s.deployments[id].key);
  }
}
