/**
 Removing an IP allowlist that apps still use. The view marks it and starts one background worker per
 affected app; each takes the allowlist out of its app, rewrites the app's secrets, and deletes the
 allowlist if no app is left. The workers interleave freely, with each other and with other edits.
 */
module IpAllowlistRemoval {
  import opened Strings

  // ---------------------------------------------------------------- state

  /** A row of AppIPAllowList. */
  datatype Link = Link(app: nat, env: string, allowlist: nat)

  datatype Slot = Slot(app: nat, env: string)

  /**
   * A secret is given by the allowlists whose ranges it was built from, in order. Keys of allowlists
   * are below `bound`.
   */
  datatype Site = Site(allowlists: set<nat>, links: set<Link>, secrets: map<Slot, seq<nat>>, bound: nat)

  /** What one worker has done so far. */
  datatype Phase =
    | Waiting    // started
    | Fetched    // has read the app and the allowlist
    | Committed  // its app no longer uses the allowlist, its secrets are rewritten
    | Deciding   // found no app left, about to delete
    | Done
    | Failed     // could not rewrite the secrets; its transaction was rolled back
    | Missing    // did not find the allowlist

  datatype State = State(site: Site, workers: map<nat, Phase>)

  /** The removal: the allowlist, and the deployment environments of each app. */
  datatype Job = Job(allowlist: nat, envs: map<nat, seq<string>>)

  function EnvsOf(job: Job, app: nat): seq<string> {
    if app in job.envs then job.envs[app] else []
  }

  predicate Uses(site: Site, app: nat, allowlist: nat) {
    exists l :: l in site.links && l.app == app && l.allowlist == allowlist
  }

  /** `ip_range.apps.count() == 0` */
  predicate Unused(site: Site, allowlist: nat) {
    forall l :: l in site.links ==> l.allowlist != allowlist
  }

  // ---------------------------------------------------------------- secrets

  function Ascending(ids: set<nat>, bound: nat): (r: seq<nat>)
    ensures forall id :: id in r <==> id in ids && id < bound
    ensures forall i, j :: 0 <= i < j < |r| ==> r[i] < r[j]
  {
    if bound == 0 then []
    else
      var before := Ascending(ids, bound - 1);
      assert forall i :: 0 <= i < |before| ==> before[i] in before;
      before + if bound - 1 in ids then [bound - 1] else []
  }

  /** `env_allowed_ip_ranges`: the linked allowlists, ordered by key. */
  function EnvRanges(site: Site, app: nat, env: string): seq<nat> {
    Ascending(set l | l in site.links && l.app == app && l.env == env && l.allowlist in site.allowlists :: l.allowlist,
              site.bound)
  }

  function Rewritten(site: Site, app: nat, envs: seq<string>): Site {
    if envs == [] then site
    else
      var before := Rewritten(site, app, envs[..|envs| - 1]);
      before.(secrets := before.secrets[Slot(app, envs[|envs| - 1]) := EnvRanges(site, app, envs[|envs| - 1])])
  }

  function Unlinked(site: Site, app: nat, allowlist: nat): Site {
    site.(links := set l | l in site.links && !(l.app == app && l.allowlist == allowlist))
  }

  // ---------------------------------------------------------------- steps

  datatype Event =
    | Fetch(app: nat)
    | Commit(app: nat)
    | Fail(app: nat, written: nat)
    | Count(app: nat)
    | Delete(app: nat)
    | Edit(app: nat, env: string, allowlists: set<nat>)
    | Refresh(app: nat, env: string)

  function Linked(site: Site, app: nat, env: string): set<nat> {
    set l | l in site.links && l.app == app && l.env == env :: l.allowlist
  }

  predicate Enabled(job: Job, s: State, e: Event) {
    match e
    case Fetch(a) => a in s.workers && s.workers[a].Waiting?
    case Commit(a) => a in s.workers && s.workers[a].Fetched?
    case Fail(a, k) => a in s.workers && s.workers[a].Fetched? && k <= |EnvsOf(job, a)|
    case Count(a) => a in s.workers && s.workers[a].Committed?
    case Delete(a) => a in s.workers && s.workers[a].Deciding?
    case Edit(a, env, ids) =>
      // other edits neither link nor unlink the allowlist that is being removed
      && (job.allowlist in ids <==> job.allowlist in Linked(s.site, a, env))
      && forall id :: id in ids ==> id < s.site.bound
    case Refresh(_, _) => true
  }

  /** `update_records`: the links of an app in one environment are replaced. */
  function Relinked(site: Site, app: nat, env: string, ids: set<nat>): set<Link> {
    (set l | l in site.links && !(l.app == app && l.env == env)) + set id | id in ids :: Link(app, env, id)
  }

  function Edited(site: Site, app: nat, env: string, ids: set<nat>): Site {
    Rewritten(site.(links := Relinked(site, app, env, ids)), app, [env])
  }

  function Next(job: Job, s: State, e: Event): State {
    if !Enabled(job, s, e) then s
    else
      match e
      case Fetch(a) =>
        s.(workers := s.workers[a := if job.allowlist in s.site.allowlists then Fetched else Missing])
      case Commit(a) =>
        State(Rewritten(Unlinked(s.site, a, job.allowlist), a, EnvsOf(job, a)), s.workers[a := Committed])
      case Fail(a, k) =>
        State(Rewritten(Unlinked(s.site, a, job.allowlist), a, EnvsOf(job, a)[..k]).(links := s.site.links),
              s.workers[a := Failed])
      case Count(a) =>
        s.(workers := s.workers[a := if Unused(s.site, job.allowlist) then Deciding else Done])
      case Delete(a) =>
        State(Deleted(s.site, job.allowlist), s.workers[a := Done])
      case Edit(a, env, ids) => s.(site := Edited(s.site, a, env, ids))
      case Refresh(a, env) => s.(site := Rewritten(s.site, a, [env]))
  }

  /** Deleting the row takes its links along; it is no error if the row is gone already. */
  function Deleted(site: Site, allowlist: nat): Site {
    site.(allowlists := site.allowlists - {allowlist},
          links := set l | l in site.links && l.allowlist != allowlist)
  }

  function After(job: Job, s: State, events: seq<Event>): State {
    if events == [] then s else Next(job, After(job, s, events[..|events| - 1]), events[|events| - 1])
  }

  /** `IPAllowlistDelete.form_valid`: delete at once, or start a worker for every app that uses it. */
  function Start(site: Site, allowlist: nat): State {
    if Unused(site, allowlist) then State(Deleted(site, allowlist), map[])
    else State(site, map l | l in site.links && l.allowlist == allowlist :: l.app := Waiting)
  }

  // ---------------------------------------------------------------- what every run keeps

  /** The worker has not taken its app's links away, or was rolled back. */
  predicate Holding(p: Phase) {
    p.Waiting? || p.Fetched? || p.Failed?
  }

  /** The worker has rewritten its app's secrets. */
  predicate Cleared(p: Phase) {
    p.Committed? || p.Deciding? || p.Done?
  }

  /** The apps that use the allowlist are exactly those whose worker still holds it. */
  ghost predicate UsedByHolders(job: Job, s: State) {
    && (forall l :: l in s.site.links && l.allowlist == job.allowlist ==> l.app in s.workers && Holding(s.workers[l.app]))
    && (forall a :: a in s.workers && Holding(s.workers[a]) ==> Uses(s.site, a, job.allowlist))
  }

  ghost predicate SecretsCleared(job: Job, s: State) {
    forall a, env :: a in s.workers && Cleared(s.workers[a]) && env in EnvsOf(job, a) ==>
      Slot(a, env) in s.site.secrets && job.allowlist !in s.site.secrets[Slot(a, env)]
  }

  /** Nobody missed it; whoever is about to delete it is right; and somebody will, once it is unused. */
  ghost predicate DeletedInTime(job: Job, s: State) {
    && (forall a :: a in s.workers ==> !s.workers[a].Missing?)
    && (forall a :: a in s.workers && s.workers[a].Deciding? ==> Unused(s.site, job.allowlist))
    && (job.allowlist !in s.site.allowlists ==> Unused(s.site, job.allowlist))
    && (Unused(s.site, job.allowlist) && job.allowlist in s.site.allowlists ==>
          exists a :: a in s.workers && (s.workers[a].Committed? || s.workers[a].Deciding?))
  }

  ghost predicate Safe(job: Job, s: State) {
    UsedByHolders(job, s) && SecretsCleared(job, s) && DeletedInTime(job, s)
  }

  lemma {:induction false} RewrittenShape(site: Site, app: nat, envs: seq<string>)
    ensures var t := Rewritten(site, app, envs);
            && t.allowlists == site.allowlists && t.links == site.links && t.bound == site.bound
            && (forall slot :: slot in site.secrets ==> slot in t.secrets)
            && (forall env :: env in envs ==> Slot(app, env) in t.secrets)
            && (forall slot :: slot in t.secrets ==>
                  || (slot in site.secrets && t.secrets[slot] == site.secrets[slot])
                  || (slot.app == app && t.secrets[slot] == EnvRanges(site, app, slot.env)))
            && (forall env :: env in envs ==> t.secrets[Slot(app, env)] == EnvRanges(site, app, env))
  {
    if envs != [] {
      RewrittenShape(site, app, envs[..|envs| - 1]);
    }
  }

  /** A secret only has allowlists that are linked. */
  lemma {:induction false} RangesLinked(site: Site, app: nat, env: string, allowlist: nat)
    requires allowlist in EnvRanges(site, app, env)
    ensures Link(app, env, allowlist) in site.links
  {
  }

  /** A secret has exactly the existing allowlists that are linked, each once, in the order of their keys. */
  lemma {:induction false} RangesExact(site: Site, app: nat, env: string, allowlist: nat)
    requires forall id :: id in site.allowlists ==> id < site.bound
    ensures allowlist in EnvRanges(site, app, env) <==> Link(app, env, allowlist) in site.links && allowlist in site.allowlists
    ensures var r := EnvRanges(site, app, env); forall i, j :: 0 <= i < j < |r| ==> r[i] < r[j]
  {
  }

  /** Rewriting secrets leaves out what is not linked. */
  lemma {:induction false} RewrittenClears(site: Site, app: nat, envs: seq<string>, allowlist: nat, slot: Slot)
    requires slot.app == app ==> Link(app, slot.env, allowlist) !in site.links
    requires slot in site.secrets && allowlist !in site.secrets[slot]
    ensures var t := Rewritten(site, app, envs); slot in t.secrets && allowlist !in t.secrets[slot]
  {
    RewrittenShape(site, app, envs);
    if slot.app == app && allowlist in EnvRanges(site, app, slot.env) {
      RangesLinked(site, app, slot.env, allowlist);
    }
  }

  /** The site that an event leaves, apart from its secrets. */
  lemma {:induction false} NextShape(job: Job, s: State, e: Event)
    requires Enabled(job, s, e)
    ensures var t := Next(job, s, e).site;
            && t.allowlists == (if e.Delete? then s.site.allowlists - {job.allowlist} else s.site.allowlists)
            && t.links == match e
                          case Commit(a) => Unlinked(s.site, a, job.allowlist).links
                          case Delete(_) => Deleted(s.site, job.allowlist).links
                          case Edit(a, env, ids) => Relinked(s.site, a, env, ids)
                          case _ => s.site.links
  {
    match e
    case Commit(a) => RewrittenShape(Unlinked(s.site, a, job.allowlist), a, EnvsOf(job, a));
    case Edit(a, env, ids) => RewrittenShape(s.site.(links := Relinked(s.site, a, env, ids)), a, [env]);
    case Fail(a, k) => RewrittenShape(Unlinked(s.site, a, job.allowlist), a, EnvsOf(job, a)[..k]);
    case Refresh(a, env) => RewrittenShape(s.site, a, [env]);
    case _ =>
  }

  /** Editing keeps the links of the allowlist that is being removed. */
  lemma {:induction false} RelinkedKeeps(site: Site, app: nat, env: string, ids: set<nat>, allowlist: nat, l: Link)
    requires allowlist in ids <==> allowlist in Linked(site, app, env)
    requires l.allowlist == allowlist
    ensures l in Relinked(site, app, env, ids) <==> l in site.links
  {
  }

  /** Who uses the allowlist after an event: as before, but for the app whose worker commits. */
  lemma {:induction false} NextUses(job: Job, s: State, e: Event, l: Link)
    requires Enabled(job, s, e) && l.allowlist == job.allowlist
    ensures l in Next(job, s, e).site.links <==>
              l in s.site.links && !e.Delete? && !(e.Commit? && e.app == l.app)
  {
    hide Next, EnvRanges;
    NextShape(job, s, e);
    if e.Edit? {
      RelinkedKeeps(s.site, e.app, e.env, e.allowlists, job.allowlist, l);
    }
  }

  /** When an event can happen: a worker's in its order, others' edits unless they touch the allowlist. */
  predicate Possible(job: Job, s: State, e: Event) {
    match e
    case Fetch(a) => a in s.workers && s.workers[a] == Waiting
    case Commit(a) => a in s.workers && s.workers[a] == Fetched
    case Fail(a, k) => a in s.workers && s.workers[a] == Fetched && k <= |EnvsOf(job, a)|
    case Count(a) => a in s.workers && s.workers[a] == Committed
    case Delete(a) => a in s.workers && s.workers[a] == Deciding
    case Edit(a, env, ids) =>
      && (forall id :: id in ids ==> id < s.site.bound)
      && (job.allowlist in ids <==> Link(a, env, job.allowlist) in s.site.links)
    case Refresh(_, _) => true
  }

  /** And what it does to the workers. */
  lemma {:induction false} NextPhases(job: Job, s: State, e: Event, app: nat)
    requires Possible(job, s, e) && app in s.workers
    ensures app in Next(job, s, e).workers
    ensures Next(job, s, e).workers[app] ==
            match e
            case Fetch(a) => if a != app then s.workers[app] else if job.allowlist in s.site.allowlists then Fetched else Missing
            case Commit(a) => if a != app then s.workers[app] else Committed
            case Fail(a, _) => if a != app then s.workers[app] else Failed
            case Count(a) =>
              if a != app then s.workers[app]
              else if exists l :: l in s.site.links && l.allowlist == job.allowlist then Done
              else Deciding
            case Delete(a) => if a != app then s.workers[app] else Done
            case _ => s.workers[app]
  {
    hide Rewritten, EnvRanges, Unlinked, Deleted;
  }

  /**
   * What an event does to the links: a worker's commit takes its own app's links of this allowlist,
   * the deletion those of this allowlist, an edit replaces one app's in one environment; all others stay.
   */
  lemma {:induction false} NextLinks(job: Job, s: State, e: Event, l: Link)
    requires Possible(job, s, e)
    ensures l in Next(job, s, e).site.links <==>
              match e
              case Commit(a) => l in s.site.links && !(l.app == a && l.allowlist == job.allowlist)
              case Delete(_) => l in s.site.links && l.allowlist != job.allowlist
              case Edit(a, env, ids) => if l.app == a && l.env == env then l.allowlist in ids else l in s.site.links
              case _ => l in s.site.links
    ensures Next(job, s, e).site.allowlists == if e.Delete? then s.site.allowlists - {job.allowlist} else s.site.allowlists
  {
    assert Enabled(job, s, e);
    hide Next, EnvRanges, Enabled;
    NextShape(job, s, e);
  }

  /** Starting takes away the allowlist and its links if no app uses it, and nothing otherwise. */
  lemma {:induction false} StartLinks(site: Site, allowlist: nat, l: Link)
    ensures var t := Start(site, allowlist).site;
            && t.allowlists == (if Unused(site, allowlist) then site.allowlists - {allowlist} else site.allowlists)
            && (l in t.links <==> l in site.links)
            && t.secrets == site.secrets
  {
  }

  /** The secret of the slot is made of exactly these allowlists. */
  ghost predicate MadeOf(site: Site, slot: Slot, ids: set<nat>) {
    slot in site.secrets && forall id :: id in site.secrets[slot] <==> id in ids
  }

  /** The existing allowlists that an app is linked to in one environment. */
  function InForce(site: Site, app: nat, env: string): set<nat> {
    set l | l in site.links && l.app == app && l.env == env && l.allowlist in site.allowlists :: l.allowlist
  }

  /** The environments whose secrets an event rewrites. */
  predicate Rewrites(job: Job, e: Event, slot: Slot) {
    match e
    case Commit(a) => slot.app == a && slot.env in EnvsOf(job, a)
    case Fail(a, k) => slot.app == a && k <= |EnvsOf(job, a)| && slot.env in EnvsOf(job, a)[..k]
    case Edit(a, env, _) => slot == Slot(a, env)
    case Refresh(a, env) => slot == Slot(a, env)
    case _ => false
  }

  lemma {:induction false} RewrittenMadeOf(site: Site, app: nat, envs: seq<string>, slot: Slot)
    requires forall id :: id in site.allowlists ==> id < site.bound
    ensures var t := Rewritten(site, app, envs);
            if slot.app == app && slot.env in envs then MadeOf(t, slot, InForce(site, app, slot.env))
            else (slot in t.secrets <==> slot in site.secrets) && (slot in t.secrets ==> t.secrets[slot] == site.secrets[slot])
  {
    if envs != [] {
      RewrittenMadeOf(site, app, envs[..|envs| - 1], slot);
    }
  }

  /**
   * What an event does to the secrets. Those it rewrites list exactly the existing allowlists that
   * are linked afterwards; only a worker that fails leaves the one to be removed out of secrets whose
   * links come back. All other secrets stay.
   */
  lemma {:induction false} NextMadeOf(job: Job, s: State, e: Event, slot: Slot)
    requires Possible(job, s, e) && forall id :: id in s.site.allowlists ==> id < s.site.bound
    ensures var t := Next(job, s, e).site;
            if Rewrites(job, e, slot)
            then MadeOf(t, slot, InForce(t, slot.app, slot.env) - if e.Fail? then {job.allowlist} else {})
            else (slot in t.secrets <==> slot in s.site.secrets) && (slot in t.secrets ==> t.secrets[slot] == s.site.secrets[slot])
  {
    var t := Next(job, s, e).site;
    assert InForce(t, slot.app, slot.env) - {} == InForce(t, slot.app, slot.env);
    match e
    case Commit(a) =>
      var u := Unlinked(s.site, a, job.allowlist);
      RewrittenShape(u, a, EnvsOf(job, a));
      RewrittenMadeOf(u, a, EnvsOf(job, a), slot);
      assert InForce(t, slot.app, slot.env) == InForce(u, slot.app, slot.env);
    case Fail(a, k) => FailMadeOf(job, s, a, k, slot);
    case Edit(a, env, ids) =>
      var u := s.site.(links := Relinked(s.site, a, env, ids));
      RewrittenShape(u, a, [env]);
      RewrittenMadeOf(u, a, [env], slot);
      assert InForce(t, slot.app, slot.env) == InForce(u, slot.app, slot.env);
    case Refresh(a, env) =>
      RewrittenShape(s.site, a, [env]);
      RewrittenMadeOf(s.site, a, [env], slot);
      assert InForce(t, slot.app, slot.env) == InForce(s.site, slot.app, slot.env);
    case _ =>
  }

  lemma {:induction false} FailMadeOf(job: Job, s: State, a: nat, k: nat, slot: Slot)
    requires Enabled(job, s, Fail(a, k)) && forall id :: id in s.site.allowlists ==> id < s.site.bound
    ensures var t := Next(job, s, Fail(a, k)).site;
            if slot.app == a && slot.env in EnvsOf(job, a)[..k]
            then MadeOf(t, slot, InForce(t, slot.app, slot.env) - {job.allowlist})
            else (slot in t.secrets <==> slot in s.site.secrets) && (slot in t.secrets ==> t.secrets[slot] == s.site.secrets[slot])
  {
    hide EnvRanges, Rewritten;
    var u := Unlinked(s.site, a, job.allowlist);
    RewrittenShape(u, a, EnvsOf(job, a)[..k]);
    RewrittenMadeOf(u, a, EnvsOf(job, a)[..k], slot);
    var t := Next(job, s, Fail(a, k)).site;
    assert t.links == s.site.links && t.allowlists == s.site.allowlists;
    if slot.app == a {
      assert InForce(u, slot.app, slot.env) == InForce(t, slot.app, slot.env) - {job.allowlist};
    }
  }

  function PhaseAfter(job: Job, s: State, e: Event, app: nat): Phase
    requires app in s.workers
  {
    if e == Fetch(app) then (if job.allowlist in s.site.allowlists then Fetched else Missing)
    else if e == Commit(app) then Committed
    else if e.Fail? && e.app == app then Failed
    else if e == Count(app) then (if Unused(s.site, job.allowlist) then Deciding else Done)
    else if e == Delete(app) then Done
    else s.workers[app]
  }

  lemma {:induction false} NextWorkers(job: Job, s: State, e: Event, app: nat)
    requires Enabled(job, s, e)
    ensures var t := Next(job, s, e);
            && (app in t.workers <==> app in s.workers)
            && (app in s.workers ==> t.workers[app] == PhaseAfter(job, s, e, app))
  {
  }

  lemma {:induction false} NextUnused(job: Job, s: State, e: Event)
    requires Enabled(job, s, e) && Unused(s.site, job.allowlist)
    ensures Unused(Next(job, s, e).site, job.allowlist)
  {
    hide Next, Enabled;
    forall l | l in Next(job, s, e).site.links
      ensures l.allowlist != job.allowlist
    {
      if l.allowlist == job.allowlist {
        NextUses(job, s, e, l);
      }
    }
  }

  lemma {:induction false} NextHolders(job: Job, s: State, e: Event)
    requires Enabled(job, s, e) && Safe(job, s)
    ensures UsedByHolders(job, Next(job, s, e))
  {
    hide Next, Enabled;
    var t := Next(job, s, e);
    forall l | l in t.site.links && l.allowlist == job.allowlist
      ensures l.app in t.workers && Holding(t.workers[l.app])
    {
      NextUses(job, s, e, l);
      NextWorkers(job, s, e, l.app);
      EventEnabled(job, s, e);
      assert !Unused(s.site, job.allowlist);
    }
    forall a | a in t.workers && Holding(t.workers[a])
      ensures Uses(t.site, a, job.allowlist)
    {
      NextWorkers(job, s, e, a);
      EventEnabled(job, s, e);
      var l :| l in s.site.links && l.app == a && l.allowlist == job.allowlist;
      NextUses(job, s, e, l);
    }
  }

  lemma {:induction false} EventEnabled(job: Job, s: State, e: Event)
    requires Enabled(job, s, e)
    ensures e.Fetch? || e.Commit? || e.Fail? || e.Count? || e.Delete? ==> e.app in s.workers
    ensures e.Fetch? ==> s.workers[e.app].Waiting?
    ensures e.Commit? || e.Fail? ==> s.workers[e.app].Fetched?
    ensures e.Count? ==> s.workers[e.app].Committed?
    ensures e.Delete? ==> s.workers[e.app].Deciding?
  {
  }

  lemma {:induction false} NextInTime(job: Job, s: State, e: Event)
    requires Enabled(job, s, e) && Safe(job, s)
    ensures DeletedInTime(job, Next(job, s, e))
  {
    hide Next, Enabled, EnvRanges;
    var t := Next(job, s, e);
    NextShape(job, s, e);
    EventEnabled(job, s, e);
    if Unused(s.site, job.allowlist) {
      NextUnused(job, s, e);
    }
    forall a | a in t.workers
      ensures !t.workers[a].Missing?
      ensures t.workers[a].Deciding? ==> Unused(t.site, job.allowlist)
    {
      NextWorkers(job, s, e, a);
      if Holding(s.workers[a]) {
        StillListed(job, s, a);
      }
    }
    if Unused(t.site, job.allowlist) && job.allowlist in t.site.allowlists {
      var a := Finisher(job, s, e);
      NextWorkers(job, s, e, a);
    }
  }

  /** While a worker holds the allowlist, it exists. */
  lemma {:induction false} StillListed(job: Job, s: State, app: nat)
    requires Safe(job, s) && app in s.workers && Holding(s.workers[app])
    ensures job.allowlist in s.site.allowlists
  {
  }

  /** Some worker is left to delete the allowlist: the one that was, or the one that just committed. */
  lemma {:induction false} Finisher(job: Job, s: State, e: Event) returns (a: nat)
    requires Enabled(job, s, e) && Safe(job, s)
    requires Unused(Next(job, s, e).site, job.allowlist) && job.allowlist in Next(job, s, e).site.allowlists
    ensures a in s.workers && (PhaseAfter(job, s, e, a).Committed? || PhaseAfter(job, s, e, a).Deciding?)
  {
    hide Next, Enabled, EnvRanges;
    NextShape(job, s, e);
    EventEnabled(job, s, e);
    if Unused(s.site, job.allowlist) {
      a :| a in s.workers && (s.workers[a].Committed? || s.workers[a].Deciding?);
    } else {
      var l :| l in s.site.links && l.allowlist == job.allowlist;
      NextUses(job, s, e, l);
      a := l.app;
    }
  }

  lemma {:induction false} NextSecrets(job: Job, s: State, e: Event)
    requires Enabled(job, s, e) && Safe(job, s)
    ensures SecretsCleared(job, Next(job, s, e))
  {
    var t := Next(job, s, e);
    forall a, env | a in t.workers && Cleared(t.workers[a]) && env in EnvsOf(job, a)
      ensures Slot(a, env) in t.site.secrets && job.allowlist !in t.site.secrets[Slot(a, env)]
    {
      hide Next, Enabled, EnvRanges, Rewritten;
      NextWorkers(job, s, e, a);
      EventEnabled(job, s, e);
      SecretAfter(job, s, e, a, env);
    }
  }

  /** A cleared app has no link, and its secrets stay without the allowlist. */
  lemma {:induction false} SecretAfter(job: Job, s: State, e: Event, app: nat, env: string)
    requires Enabled(job, s, e) && Safe(job, s)
    requires app in s.workers && Cleared(PhaseAfter(job, s, e, app)) && env in EnvsOf(job, app)
    ensures var t := Next(job, s, e).site; Slot(app, env) in t.secrets && job.allowlist !in t.secrets[Slot(app, env)]
  {
    var r, slot := job.allowlist, Slot(app, env);
    if e == Commit(app) {
      var u := Unlinked(s.site, app, r);
      RewrittenShape(u, app, EnvsOf(job, app));
      if r in EnvRanges(u, app, env) {
        RangesLinked(u, app, env, r);
      }
    } else {
      assert Cleared(s.workers[app]) by {
        EventEnabled(job, s, e);
      }
      assert Link(app, env, r) !in s.site.links;
      assert slot in s.site.secrets && r !in s.site.secrets[slot];
      SecretKept(job, s, e, slot);
    }
  }

  lemma {:induction false} SecretKept(job: Job, s: State, e: Event, slot: Slot)
    requires Enabled(job, s, e)
    requires Link(slot.app, slot.env, job.allowlist) !in s.site.links
    requires slot in s.site.secrets && job.allowlist !in s.site.secrets[slot]
    ensures var t := Next(job, s, e).site; slot in t.secrets && job.allowlist !in t.secrets[slot]
  {
    var r := job.allowlist;
    match e
    case Commit(a) => RewrittenClears(Unlinked(s.site, a, r), a, EnvsOf(job, a), r, slot);
    case Fail(a, k) => RewrittenClears(Unlinked(s.site, a, r), a, EnvsOf(job, a)[..k], r, slot);
    case Edit(a, env, ids) =>
      RelinkedKeeps(s.site, a, env, ids, r, Link(slot.app, slot.env, r));
      RewrittenClears(s.site.(links := Relinked(s.site, a, env, ids)), a, [env], r, slot);
    case Refresh(a, env) => RewrittenClears(s.site, a, [env], r, slot);
    case _ =>
  }

  // ---------------------------------------------------------------- the theorems

  /** Links refer to existing allowlists, and the one to remove is there. */
  ghost predicate Sound(site: Site, allowlist: nat) {
    allowlist in site.allowlists && forall l :: l in site.links ==> l.allowlist in site.allowlists
  }

  lemma {:induction false} StartSafe(job: Job, site: Site)
    requires Sound(site, job.allowlist)
    ensures Safe(job, Start(site, job.allowlist))
  {
  }

  lemma {:induction false} AfterSafe(job: Job, s: State, events: seq<Event>)
    requires Safe(job, s)
    ensures Safe(job, After(job, s, events))
    ensures After(job, s, events).workers.Keys == s.workers.Keys
  {
    hide Next, UsedByHolders, SecretsCleared, DeletedInTime;
    if events != [] {
      var before, e := After(job, s, events[..|events| - 1]), events[|events| - 1];
      AfterSafe(job, s, events[..|events| - 1]);
      if Enabled(job, before, e) {
        NextHolders(job, before, e);
        NextSecrets(job, before, e);
        NextInTime(job, before, e);
        forall a: nat
          ensures a in Next(job, before, e).workers <==> a in before.workers
        {
          NextWorkers(job, before, e, a);
        }
      } else {
        NotEnabled(job, before, e);
      }
    }
  }

  lemma {:induction false} NotEnabled(job: Job, s: State, e: Event)
    requires !Enabled(job, s, e)
    ensures Next(job, s, e) == s
  {
  }

  /**
   * Under every interleaving: one worker for each app that used the allowlist; a worker about to
   * delete it, and any event that does remove it, finds no app that uses it; and no worker finds it
   * missing. `events` may be any run, so this holds at every moment.
   */
  lemma {:induction false} NeverDeletedWhileUsed(job: Job, site: Site, events: seq<Event>)
    requires Sound(site, job.allowlist)
    ensures job.allowlist !in Start(site, job.allowlist).site.allowlists ==> Unused(site, job.allowlist)
    ensures var s := After(job, Start(site, job.allowlist), events);
            && (forall a :: Enabled(job, s, Delete(a)) ==> Unused(s.site, job.allowlist))
            && (forall e :: job.allowlist in s.site.allowlists && job.allowlist !in Next(job, s, e).site.allowlists ==>
                  Unused(s.site, job.allowlist))
            && (forall a :: a in s.workers ==> !s.workers[a].Missing?)
            && (forall a :: a in s.workers <==> Uses(site, a, job.allowlist))
  {
    var s := After(job, Start(site, job.allowlist), events);
    StartSafe(job, site);
    AfterSafe(job, Start(site, job.allowlist), events);
    StartWorkers(site, job.allowlist);
    hide After, Start, UsedByHolders, SecretsCleared, Unused;
    forall e | job.allowlist in s.site.allowlists && job.allowlist !in Next(job, s, e).site.allowlists
      ensures Unused(s.site, job.allowlist)
    {
      RemovedByDelete(job, s, e);
    }
  }

  /** Only a worker that decided to delete the allowlist removes it. */
  lemma {:induction false} RemovedByDelete(job: Job, s: State, e: Event)
    requires job.allowlist in s.site.allowlists && job.allowlist !in Next(job, s, e).site.allowlists
    ensures e.Delete? && Enabled(job, s, e) && e.app in s.workers && s.workers[e.app].Deciding?
  {
    hide Rewritten, EnvRanges;
    if Enabled(job, s, e) {
      NextShape(job, s, e);
    }
  }

  lemma {:induction false} StartWorkers(site: Site, allowlist: nat)
    ensures forall a :: a in Start(site, allowlist).workers <==> Uses(site, a, allowlist)
  {
  }

  predicate Finished(p: Phase) {
    p.Done? || p.Failed?
  }

  /**
   * Once all workers have finished, the allowlist is deleted exactly when none of them failed, and
   * the secrets of every app whose worker did not fail leave it out.
   */
  lemma {:induction false} DeletedInTheEnd(job: Job, site: Site, events: seq<Event>)
    requires Sound(site, job.allowlist)
    requires var s := After(job, Start(site, job.allowlist), events); forall a :: a in s.workers ==> Finished(s.workers[a])
    ensures var s := After(job, Start(site, job.allowlist), events);
            && (job.allowlist !in s.site.allowlists <==> forall a :: a in s.workers ==> s.workers[a].Done?)
            && (forall a, env :: a in s.workers && s.workers[a].Done? && env in EnvsOf(job, a) ==>
                  Slot(a, env) in s.site.secrets && job.allowlist !in s.site.secrets[Slot(a, env)])
  {
    StartSafe(job, site);
    AfterSafe(job, Start(site, job.allowlist), events);
  }

  // ---------------------------------------------------------------- edits that do not respect the removal

  /** Somebody else replaces an app's links in one environment, those of the allowlist included. */
  function ByHand(s: State, app: nat, env: string, ids: set<nat>): State {
    s.(site := Edited(s.site, app, env, ids))
  }

  lemma {:induction false} ByHandShape(s: State, app: nat, env: string, ids: set<nat>)
    ensures var t := ByHand(s, app, env, ids).site;
            && t.allowlists == s.site.allowlists && t.links == Relinked(s.site, app, env, ids)
            && (forall slot :: slot in s.site.secrets ==> slot in t.secrets)
            && (forall slot :: slot in s.site.secrets && slot.app != app ==> t.secrets[slot] == s.site.secrets[slot])
  {
    RewrittenShape(s.site.(links := Relinked(s.site, app, env, ids)), app, [env]);
  }

  lemma {:induction false} AfterCons(job: Job, s: State, e: Event, rest: seq<Event>)
    ensures After(job, s, [e] + rest) == After(job, Next(job, s, e), rest)
  {
    hide Next;
    if rest == [] {
      assert [e] + rest == [e] && [e][..0] == [];
    } else {
      assert ([e] + rest)[..|[e] + rest| - 1] == [e] + rest[..|rest| - 1];
      AfterCons(job, s, e, rest[..|rest| - 1]);
    }
  }

  function Waiters(s: State): set<nat> {
    set a | a in s.workers && s.workers[a].Waiting?
  }

  /** The workers that still have their app's links to take away. */
  function Holders(s: State): set<nat> {
    set a | a in s.workers && (s.workers[a].Waiting? || s.workers[a].Fetched?)
  }

  function Unfinished(s: State): set<nat> {
    set a | a in s.workers && (s.workers[a].Waiting? || s.workers[a].Fetched? || s.workers[a].Committed?)
  }

  // ---------------------------------------------------------------- a link that no worker takes away

  /** The app uses the allowlist, no worker will unlink it any more, and none is about to delete. */
  ghost predicate Pinned(job: Job, s: State, app: nat) {
    && job.allowlist in s.site.allowlists
    && Uses(s.site, app, job.allowlist)
    && (app in s.workers ==> !s.workers[app].Waiting? && !s.workers[app].Fetched?)
    && (forall a :: a in s.workers ==> !s.workers[a].Deciding? && !s.workers[a].Missing?)
  }

  lemma {:induction false} UseKept(job: Job, s: State, e: Event, app: nat)
    requires Enabled(job, s, e) && Uses(s.site, app, job.allowlist) && !e.Delete? && e != Commit(app)
    ensures Uses(Next(job, s, e).site, app, job.allowlist)
  {
    hide Next, Enabled;
    var l :| l in s.site.links && l.app == app && l.allowlist == job.allowlist;
    NextUses(job, s, e, l);
  }

  lemma {:induction false} UsedIsUsed(site: Site, app: nat, allowlist: nat)
    requires Uses(site, app, allowlist)
    ensures !Unused(site, allowlist)
  {
  }

  lemma {:induction false} NextPinned(job: Job, s: State, e: Event, app: nat)
    requires Enabled(job, s, e) && Pinned(job, s, app)
    ensures Pinned(job, Next(job, s, e), app)
  {
    hide Next, Enabled, EnvRanges, Uses, Unused;
    NextShape(job, s, e);
    EventEnabled(job, s, e);
    UseKept(job, s, e, app);
    UsedIsUsed(s.site, app, job.allowlist);
    forall a: nat
      ensures a in Next(job, s, e).workers <==> a in s.workers
      ensures a in s.workers ==> Next(job, s, e).workers[a] == PhaseAfter(job, s, e, a)
    {
      NextWorkers(job, s, e, a);
    }
  }

  /** Such a link keeps the allowlist for ever. */
  lemma {:induction false} AfterPinned(job: Job, s: State, events: seq<Event>, app: nat)
    requires Pinned(job, s, app)
    ensures Pinned(job, After(job, s, events), app)
  {
    hide Next, Pinned;
    if events != [] {
      var before, e := After(job, s, events[..|events| - 1]), events[|events| - 1];
      AfterPinned(job, s, events[..|events| - 1], app);
      if Enabled(job, before, e) {
        NextPinned(job, before, e, app);
      } else {
        NotEnabled(job, before, e);
      }
    }
  }

  /** A worker that has failed, or is past reading the allowlist, neither waits again nor misses it. */
  lemma {:induction false} PhaseStays(job: Job, s: State, events: seq<Event>, app: nat)
    requires app in s.workers
    ensures var t := After(job, s, events);
            && app in t.workers
            && (s.workers[app].Failed? ==> t.workers[app].Failed?)
            && (s.workers[app].Done? ==> t.workers[app].Done?)
            && (!s.workers[app].Waiting? && !s.workers[app].Missing? ==> !t.workers[app].Waiting? && !t.workers[app].Missing?)
  {
    hide Next;
    if events != [] {
      var before, e := After(job, s, events[..|events| - 1]), events[|events| - 1];
      PhaseStays(job, s, events[..|events| - 1], app);
      if Enabled(job, before, e) {
        NextWorkers(job, before, e, app);
        EventEnabled(job, before, e);
      } else {
        NotEnabled(job, before, e);
      }
    }
  }

  // ---------------------------------------------------------------- unlinking an app by hand

  predicate MissedAfter(job: Job, s: State, app: nat, events: seq<Event>) {
    var t := After(job, s, events); app in t.workers && t.workers[app].Missing?
  }

  /** The app's worker has yet to look for the allowlist, and the others can delete it before. */
  ghost predicate Overtaken(s: State, app: nat) {
    && app in s.workers && s.workers[app].Waiting?
    && (forall a :: a in s.workers && a != app ==> !s.workers[a].Failed?)
    && (exists a :: a in s.workers && a != app && (s.workers[a].Waiting? || s.workers[a].Fetched? || s.workers[a].Committed?))
  }

  /** All links left are of other apps whose workers will take them away, and one is left to delete. */
  ghost predicate Leaving(job: Job, s: State, app: nat) {
    && job.allowlist in s.site.allowlists
    && app in s.workers && s.workers[app].Waiting?
    && (forall l :: l in s.site.links && l.allowlist == job.allowlist ==> l.app != app && l.app in Holders(s))
    && (exists a :: a in Unfinished(s) && a != app)
  }

  lemma {:induction false} FetchLeaves(job: Job, s: State, app: nat, a: nat)
    requires Leaving(job, s, app) && a in Waiters(s) && a != app
    ensures var t := Next(job, s, Fetch(a));
            Leaving(job, t, app) && Holders(t) == Holders(s) && Waiters(t) == Waiters(s) - {a}
  {
    var t := Next(job, s, Fetch(a));
    assert t.workers == s.workers[a := Fetched];
    assert a in Unfinished(t);
  }

  lemma {:induction false} CommitLeaves(job: Job, s: State, app: nat, a: nat)
    requires Leaving(job, s, app) && a in Holders(s) && a !in Waiters(s)
    ensures var t := Next(job, s, Commit(a)); Leaving(job, t, app) && Holders(t) == Holders(s) - {a}
  {
    var t := Next(job, s, Commit(a));
    hide Rewritten, EnvRanges;
    NextShape(job, s, Commit(a));
    assert t.workers == s.workers[a := Committed];
    assert a in Unfinished(t);
  }

  lemma {:induction false} LastOvertakes(job: Job, s: State, app: nat, a: nat)
    requires Leaving(job, s, app) && Holders(s) == {app} && a in Unfinished(s) && a != app
    ensures MissedAfter(job, s, app, [Count(a)] + ([Delete(a)] + ([Fetch(app)] + [])))
  {
    assert s.workers[a].Committed? by {
      assert a !in Holders(s);
    }
    assert Unused(s.site, job.allowlist);
    var s1 := Next(job, s, Count(a));
    var s2 := Next(job, s1, Delete(a));
    AfterCons(job, s, Count(a), [Delete(a)] + ([Fetch(app)] + []));
    AfterCons(job, s1, Delete(a), [Fetch(app)] + []);
    AfterCons(job, s2, Fetch(app), []);
  }

  /** The run in which the others finish first. */
  lemma {:induction false} OthersFirst(job: Job, s: State, app: nat) returns (events: seq<Event>)
    requires Leaving(job, s, app)
    ensures MissedAfter(job, s, app, events)
    decreases |Holders(s)|, |Waiters(s)|
  {
    hide Leaving, MissedAfter, Next;
    if a :| a in Waiters(s) && a != app {
      FetchLeaves(job, s, app, a);
      FewerWaiters(Waiters(s), a);
      var rest := OthersFirst(job, Next(job, s, Fetch(a)), app);
      events := [Fetch(a)] + rest;
      MissedCons(job, s, app, Fetch(a), rest);
    } else if a :| a in Holders(s) && a !in Waiters(s) {
      CommitLeaves(job, s, app, a);
      FewerWaiters(Holders(s), a);
      var rest := OthersFirst(job, Next(job, s, Commit(a)), app);
      events := [Commit(a)] + rest;
      MissedCons(job, s, app, Commit(a), rest);
    } else {
      var a := SomeoneLeft(job, s, app);
      events := [Count(a)] + ([Delete(a)] + ([Fetch(app)] + []));
      LastOvertakes(job, s, app, a);
    }
  }

  lemma {:induction false} SomeoneLeft(job: Job, s: State, app: nat) returns (a: nat)
    requires Leaving(job, s, app)
    requires forall a :: a in Waiters(s) ==> a == app
    requires forall a :: a in Holders(s) ==> a in Waiters(s)
    ensures Holders(s) == {app} && a in Unfinished(s) && a != app
  {
    a :| a in Unfinished(s) && a != app;
  }

  lemma {:induction false} FewerWaiters(s: set<nat>, a: nat)
    requires a in s
    ensures |s - {a}| < |s|
  {
    assert s == (s - {a}) + {a};
  }

  lemma {:induction false} MissedCons(job: Job, s: State, app: nat, e: Event, rest: seq<Event>)
    requires MissedAfter(job, Next(job, s, e), app, rest)
    ensures MissedAfter(job, s, app, [e] + rest)
  {
    AfterCons(job, s, e, rest);
  }

  /** The others have all finished; the allowlist stays until the app's own worker has read it. */
  ghost predicate LastOne(job: Job, s: State, app: nat) {
    && app in s.workers && !s.workers[app].Missing?
    && (s.workers[app].Waiting? ==> job.allowlist in s.site.allowlists)
    && (forall a :: a in s.workers && a != app ==> s.workers[a].Done?)
  }

  lemma {:induction false} NextLastOne(job: Job, s: State, e: Event, app: nat)
    requires Enabled(job, s, e) && LastOne(job, s, app)
    ensures LastOne(job, Next(job, s, e), app)
  {
    hide Next, Enabled, EnvRanges;
    NextShape(job, s, e);
    EventEnabled(job, s, e);
    forall a: nat
      ensures a in Next(job, s, e).workers <==> a in s.workers
      ensures a in s.workers ==> Next(job, s, e).workers[a] == PhaseAfter(job, s, e, a)
    {
      NextWorkers(job, s, e, a);
    }
  }

  lemma {:induction false} AfterLastOne(job: Job, s: State, events: seq<Event>, app: nat)
    requires LastOne(job, s, app)
    ensures LastOne(job, After(job, s, events), app)
  {
    hide Next, LastOne;
    if events != [] {
      var before, e := After(job, s, events[..|events| - 1]), events[|events| - 1];
      AfterLastOne(job, s, events[..|events| - 1], app);
      if Enabled(job, before, e) {
        NextLastOne(job, before, e, app);
      } else {
        NotEnabled(job, before, e);
      }
    }
  }

  /** Nobody is about to delete an allowlist in use. */
  lemma {:induction false} UsedNotDecided(job: Job, s: State, app: nat)
    requires Safe(job, s) && Uses(s.site, app, job.allowlist)
    ensures app in s.workers && Holding(s.workers[app]) && job.allowlist in s.site.allowlists
    ensures forall a :: a in s.workers ==> !s.workers[a].Deciding? && !s.workers[a].Missing?
  {
  }

  lemma {:induction false} UnlinkedUses(s: State, app: nat, env: string, ids: set<nat>, allowlist: nat, a: nat)
    requires allowlist !in ids && a != app
    ensures Uses(ByHand(s, app, env, ids).site, a, allowlist) <==> Uses(s.site, a, allowlist)
  {
    ByHandShape(s, app, env, ids);
    var t := ByHand(s, app, env, ids);
    if Uses(s.site, a, allowlist) {
      var l :| l in s.site.links && l.app == a && l.allowlist == allowlist;
      assert l in t.site.links;
    }
  }

  lemma {:induction false} NotOvertaken(job: Job, s: State, app: nat, env: string, ids: set<nat>, events: seq<Event>)
    requires Safe(job, s) && Uses(s.site, app, job.allowlist) && job.allowlist !in ids
    requires !Overtaken(s, app)
    ensures !MissedAfter(job, ByHand(s, app, env, ids), app, events)
  {
    var t := ByHand(s, app, env, ids);
    UsedNotDecided(job, s, app);
    ByHandShape(s, app, env, ids);
    hide After, Safe, ByHand;
    if !s.workers[app].Waiting? {
      PhaseStays(job, t, events, app);
    } else if a :| a in s.workers && a != app && s.workers[a].Failed? {
      HolderUses(job, s, a);
      UnlinkedUses(s, app, env, ids, job.allowlist, a);
      AfterPinned(job, t, events, a);
    } else {
      AfterLastOne(job, t, events, app);
    }
  }

  lemma {:induction false} HolderUses(job: Job, s: State, a: nat)
    requires Safe(job, s) && a in s.workers && Holding(s.workers[a])
    ensures Uses(s.site, a, job.allowlist)
  {
  }

  lemma {:induction false} OvertakenLeaves(job: Job, s: State, app: nat, env: string, ids: set<nat>)
    requires Safe(job, s) && Uses(s.site, app, job.allowlist) && job.allowlist !in ids
    requires Overtaken(s, app) && !Uses(ByHand(s, app, env, ids).site, app, job.allowlist)
    ensures Leaving(job, ByHand(s, app, env, ids), app)
  {
    var t := ByHand(s, app, env, ids);
    UsedNotDecided(job, s, app);
    ByHandShape(s, app, env, ids);
    hide ByHand;
    forall l | l in t.site.links && l.allowlist == job.allowlist
      ensures l.app != app && l.app in Holders(t)
    {
      assert l in s.site.links;
    }
    var a :| a in s.workers && a != app && (s.workers[a].Waiting? || s.workers[a].Fetched? || s.workers[a].Committed?);
    assert a in Unfinished(t);
  }

  /**
   * An app that is unlinked by hand during the removal: its worker can find the allowlist missing if
   * and only if it has not started reading, no other worker has failed, and some other has not finished.
   */
  lemma {:induction false} MissedIffOvertaken(job: Job, s: State, app: nat, env: string, ids: set<nat>)
    requires Safe(job, s) && Uses(s.site, app, job.allowlist)
    requires job.allowlist !in ids && !Uses(ByHand(s, app, env, ids).site, app, job.allowlist)
    ensures (exists events :: MissedAfter(job, ByHand(s, app, env, ids), app, events)) <==> Overtaken(s, app)
  {
    hide Safe, Overtaken, Leaving, MissedAfter, ByHand;
    if Overtaken(s, app) {
      OvertakenLeaves(job, s, app, env, ids);
      var events := OthersFirst(job, ByHand(s, app, env, ids), app);
    } else {
      forall events
        ensures !MissedAfter(job, ByHand(s, app, env, ids), app, events)
      {
        NotOvertaken(job, s, app, env, ids, events);
      }
    }
  }

  // ---------------------------------------------------------------- linking an app by hand

  predicate AllFinished(s: State) {
    forall a :: a in s.workers ==> Finished(s.workers[a])
  }

  predicate AllDone(s: State) {
    forall a :: a in s.workers ==> s.workers[a].Done?
  }

  /** In no run from here is a worker about to delete an allowlist in use. */
  ghost predicate DeletesUnused(job: Job, s: State) {
    forall events: seq<Event> ::
      var t := After(job, s, events); forall a :: Enabled(job, t, Delete(a)) ==> Unused(t.site, job.allowlist)
  }

  predicate EndsRight(job: Job, t: State) {
    AllFinished(t) ==> (job.allowlist !in t.site.allowlists <==> AllDone(t))
  }

  /** Every run from here that finishes has deleted the allowlist exactly when no worker failed. */
  ghost predicate DeletesInTheEnd(job: Job, s: State) {
    forall events: seq<Event> :: EndsRight(job, After(job, s, events))
  }

  /** The app has a worker that will take the new link away too. */
  predicate Expected(s: State, app: nat) {
    app in s.workers && Holding(s.workers[app])
  }

  ghost predicate SomeDeciding(s: State) {
    exists a :: a in s.workers && s.workers[a].Deciding?
  }

  ghost predicate SomeFailed(s: State) {
    exists a :: a in s.workers && s.workers[a].Failed?
  }

  lemma {:induction false} SafeForGood(job: Job, s: State)
    requires Safe(job, s)
    ensures DeletesUnused(job, s) && DeletesInTheEnd(job, s)
  {
    hide After, Safe;
    forall events: seq<Event>
      ensures var t := After(job, s, events); forall a :: Enabled(job, t, Delete(a)) ==> Unused(t.site, job.allowlist)
      ensures EndsRight(job, After(job, s, events))
    {
      AfterSafe(job, s, events);
      SafeAtOnce(job, After(job, s, events));
    }
  }

  lemma {:induction false} SafeAtOnce(job: Job, s: State)
    requires Safe(job, s)
    ensures forall a :: Enabled(job, s, Delete(a)) ==> Unused(s.site, job.allowlist)
    ensures EndsRight(job, s)
  {
  }

  lemma {:induction false} LinkedUses(s: State, app: nat, env: string, ids: set<nat>, allowlist: nat)
    requires allowlist in ids
    ensures Uses(ByHand(s, app, env, ids).site, app, allowlist)
    ensures forall a :: a != app ==> (Uses(ByHand(s, app, env, ids).site, a, allowlist) <==> Uses(s.site, a, allowlist))
  {
    var t := ByHand(s, app, env, ids);
    ByHandShape(s, app, env, ids);
    hide ByHand;
    assert Link(app, env, allowlist) in t.site.links;
    forall a | a != app
      ensures Uses(t.site, a, allowlist) <==> Uses(s.site, a, allowlist)
    {
      if Uses(s.site, a, allowlist) {
        var l :| l in s.site.links && l.app == a && l.allowlist == allowlist;
        assert l in t.site.links;
      }
    }
  }

  lemma {:induction false} LinkedSafe(job: Job, s: State, app: nat, env: string, ids: set<nat>)
    requires Safe(job, s) && job.allowlist in s.site.allowlists && job.allowlist in ids
    ensures Safe(job, ByHand(s, app, env, ids)) <==> Expected(s, app)
  {
    var t := ByHand(s, app, env, ids);
    ByHandShape(s, app, env, ids);
    LinkedUses(s, app, env, ids, job.allowlist);
    hide ByHand;
    var l :| l in t.site.links && l.app == app && l.allowlist == job.allowlist;
    if Expected(s, app) {
      HolderUses(job, s, app);
      UsedNotDecided(job, s, app);
    }
  }

  lemma {:induction false} LinkedPins(job: Job, s: State, app: nat, env: string, ids: set<nat>)
    requires Safe(job, s) && job.allowlist in s.site.allowlists && job.allowlist in ids
    requires !Expected(s, app) && !SomeDeciding(s)
    ensures Pinned(job, ByHand(s, app, env, ids), app)
  {
    ByHandShape(s, app, env, ids);
    LinkedUses(s, app, env, ids, job.allowlist);
    hide ByHand;
  }

  /** A pinned allowlist outlives all workers when none fails. */
  lemma {:induction false} NoneFails(job: Job, s: State, app: nat) returns (events: seq<Event>)
    requires Pinned(job, s, app) && !SomeFailed(s)
    ensures var t := After(job, s, events); AllDone(t) && job.allowlist in t.site.allowlists
    decreases |Unfinished(s)|, |Holders(s)|, |Waiters(s)|
  {
    hide Next;
    if a :| a in Unfinished(s) {
      var e := if s.workers[a].Waiting? then Fetch(a) else if s.workers[a].Fetched? then Commit(a) else Count(a);
      StepOn(job, s, app, a, e);
      FewerWaiters(if e.Fetch? then Waiters(s) else if e.Commit? then Holders(s) else Unfinished(s), a);
      hide Pinned, SomeFailed, Unfinished, Holders, Waiters;
      var rest := NoneFails(job, Next(job, s, e), app);
      events := [e] + rest;
      AfterCons(job, s, e, rest);
    } else {
      events := [];
      assert forall a :: a in s.workers ==> a !in Unfinished(s);
    }
  }

  lemma {:induction false} StepOn(job: Job, s: State, app: nat, a: nat, e: Event)
    requires Pinned(job, s, app) && !SomeFailed(s) && a in Unfinished(s)
    requires e == if s.workers[a].Waiting? then Fetch(a) else if s.workers[a].Fetched? then Commit(a) else Count(a)
    ensures var t := Next(job, s, e);
            && Pinned(job, t, app) && !SomeFailed(t)
            && (e.Fetch? ==> Unfinished(t) == Unfinished(s) && Holders(t) == Holders(s) && Waiters(t) == Waiters(s) - {a})
            && (e.Commit? ==> Unfinished(t) == Unfinished(s) && Holders(t) == Holders(s) - {a})
            && (e.Count? ==> Unfinished(t) == Unfinished(s) - {a})
  {
    NextPinned(job, s, e, app);
    hide Rewritten, EnvRanges, Pinned, Unlinked;
    PinnedUsed(job, s, app);
    assert Next(job, s, e).workers == s.workers[a := PhaseAfter(job, s, e, a)];
  }

  lemma {:induction false} PinnedUsed(job: Job, s: State, app: nat)
    requires Pinned(job, s, app)
    ensures !Unused(s.site, job.allowlist) && job.allowlist in s.site.allowlists
  {
  }

  /** Once a worker decided, all that is left are deletions. */
  ghost predicate Decided(job: Job, s: State) {
    && (forall a :: a in s.workers ==> !Holding(s.workers[a]) && !s.workers[a].Missing?)
    && (job.allowlist in s.site.allowlists ==> SomeDeciding(s))
  }

  lemma {:induction false} DecisionsKept(job: Job, s: State, e: Event)
    requires Enabled(job, s, e) && Decided(job, s) && job.allowlist in Next(job, s, e).site.allowlists
    ensures SomeDeciding(Next(job, s, e))
  {
    hide Next, Enabled, EnvRanges;
    NextShape(job, s, e);
    EventEnabled(job, s, e);
    var a :| a in s.workers && s.workers[a].Deciding?;
    NextWorkers(job, s, e, a);
    assert Next(job, s, e).workers[a].Deciding?;
  }

  lemma {:induction false} NextDecided(job: Job, s: State, e: Event)
    requires Enabled(job, s, e) && Decided(job, s)
    ensures Decided(job, Next(job, s, e))
  {
    hide Next, Enabled, EnvRanges, SomeDeciding, Unused;
    EventEnabled(job, s, e);
    forall a | a in Next(job, s, e).workers
      ensures !Holding(Next(job, s, e).workers[a]) && !Next(job, s, e).workers[a].Missing?
    {
      NextWorkers(job, s, e, a);
    }
    if job.allowlist in Next(job, s, e).site.allowlists {
      DecisionsKept(job, s, e);
    }
  }

  lemma {:induction false} AfterDecided(job: Job, s: State, events: seq<Event>)
    requires Decided(job, s)
    ensures Decided(job, After(job, s, events))
  {
    hide Next, Decided;
    if events != [] {
      var before, e := After(job, s, events[..|events| - 1]), events[|events| - 1];
      AfterDecided(job, s, events[..|events| - 1]);
      if Enabled(job, before, e) {
        NextDecided(job, before, e);
      } else {
        NotEnabled(job, before, e);
      }
    }
  }

  lemma {:induction false} SafeDecided(job: Job, s: State)
    requires Safe(job, s) && SomeDeciding(s)
    ensures Decided(job, s)
  {
    forall a | a in s.workers
      ensures !Holding(s.workers[a])
    {
      if Holding(s.workers[a]) {
        HolderUses(job, s, a);
      }
    }
  }

  /** What the link does when some worker had decided to delete: it will, used or not. */
  lemma {:induction false} LinkedTooLate(job: Job, s: State, app: nat, env: string, ids: set<nat>)
    requires Safe(job, s) && job.allowlist in s.site.allowlists && job.allowlist in ids
    requires SomeDeciding(s)
    ensures !DeletesUnused(job, ByHand(s, app, env, ids)) && DeletesInTheEnd(job, ByHand(s, app, env, ids))
  {
    var t := ByHand(s, app, env, ids);
    ByHandShape(s, app, env, ids);
    LinkedUses(s, app, env, ids, job.allowlist);
    SafeDecided(job, s);
    assert t.workers == s.workers && Decided(job, t);
    hide ByHand, Safe;
    var a :| a in s.workers && s.workers[a].Deciding?;
    assert After(job, t, []) == t && Enabled(job, t, Delete(a));
    forall events: seq<Event>
      ensures EndsRight(job, After(job, t, events))
    {
      AfterDecided(job, t, events);
    }
  }

  /** And when none had: it stays for good. */
  lemma {:induction false} LinkedInTime(job: Job, s: State, app: nat, env: string, ids: set<nat>)
    requires Safe(job, s) && job.allowlist in s.site.allowlists && job.allowlist in ids
    requires !Expected(s, app) && !SomeDeciding(s)
    ensures DeletesUnused(job, ByHand(s, app, env, ids))
    ensures DeletesInTheEnd(job, ByHand(s, app, env, ids)) <==> SomeFailed(s)
  {
    var t := ByHand(s, app, env, ids);
    LinkedPins(job, s, app, env, ids);
    assert t.workers == s.workers;
    hide ByHand, Safe, After;
    forall events: seq<Event>
      ensures var u := After(job, t, events);
              (forall a :: Enabled(job, u, Delete(a)) ==> Unused(u.site, job.allowlist)) && job.allowlist in u.site.allowlists
    {
      AfterPinned(job, t, events, app);
    }
    if a :| a in s.workers && s.workers[a].Failed? {
      forall events: seq<Event>
        ensures EndsRight(job, After(job, t, events))
      {
        PhaseStays(job, t, events, a);
      }
    } else {
      var events := NoneFails(job, t, app);
      assert !EndsRight(job, After(job, t, events));
    }
  }

  /**
   * An app that is linked by hand during the removal. The removal stays safe exactly when the app's
   * worker has yet to take its links away. Otherwise a worker that decided before deletes the
   * allowlist while the app uses it; and if there is none, the allowlist is never deleted, so that
   * the end is wrong unless a worker failed anyway.
   */
  lemma {:induction false} LinkedByHand(job: Job, s: State, app: nat, env: string, ids: set<nat>)
    requires Safe(job, s) && job.allowlist in s.site.allowlists && job.allowlist in ids
    ensures var t := ByHand(s, app, env, ids);
            && (Safe(job, t) <==> Expected(s, app))
            && (DeletesUnused(job, t) <==> Expected(s, app) || !SomeDeciding(s))
            && (DeletesInTheEnd(job, t) <==> Expected(s, app) || SomeDeciding(s) || SomeFailed(s))
  {
    LinkedSafe(job, s, app, env, ids);
    hide DeletesUnused, DeletesInTheEnd, ByHand;
    if Expected(s, app) {
      NotDecidedIfExpected(job, s, app);
      SafeForGood(job, ByHand(s, app, env, ids));
    } else if SomeDeciding(s) {
      LinkedTooLate(job, s, app, env, ids);
    } else {
      LinkedInTime(job, s, app, env, ids);
    }
  }

  lemma {:induction false} NotDecidedIfExpected(job: Job, s: State, app: nat)
    requires Safe(job, s) && Expected(s, app)
    ensures !SomeDeciding(s)
  {
    HolderUses(job, s, app);
    UsedNotDecided(job, s, app);
  }

  // ---------------------------------------------------------------- an example

  /** Two apps use the allowlist; one is unlinked by hand before its worker has read the allowlist. */
  lemma {:induction false} UnlinkedByHand(job: Job, a: nat, b: nat, env: string)
    requires a != b && job.allowlist > 0
    ensures var site := Site({job.allowlist}, {Link(a, env, job.allowlist), Link(b, env, job.allowlist)}, map[], job.allowlist + 1);
            var s := Start(site, job.allowlist);
            var edited := s.(site := Edited(s.site, b, env, {}));
            var t := After(job, edited, [Fetch(a), Commit(a), Count(a), Delete(a), Fetch(b)]);
            b in t.workers && t.workers[b].Missing?
  {
    var r := job.allowlist;
    var site := Site({r}, {Link(a, env, r), Link(b, env, r)}, map[], r + 1);
    var s := Start(site, r);
    assert Link(a, env, r) in site.links && Link(b, env, r) in site.links;
    var s0 := s.(site := Edited(s.site, b, env, {}));
    RewrittenShape(s.site.(links := Relinked(s.site, b, env, {})), b, [env]);
    var es := [Fetch(a), Commit(a), Count(a), Delete(a), Fetch(b)];
    var s1 := Next(job, s0, es[0]);
    var s2 := Next(job, s1, es[1]);
    var s3 := Next(job, s2, es[2]);
    var s4 := Next(job, s3, es[3]);
    AfterFive(job, s0, es[0], es[1], es[2], es[3], es[4]);
    RewrittenShape(Unlinked(s1.site, a, r), a, EnvsOf(job, a));
    assert Unused(s2.site, r);
  }

  lemma {:induction false} AfterFive(job: Job, s: State, a: Event, b: Event, c: Event, d: Event, e: Event)
    ensures After(job, s, [a, b, c, d, e]) == Next(job, Next(job, Next(job, Next(job, Next(job, s, a), b), c), d), e)
  {
    hide Next;
    var es := [a, b, c, d, e];
    assert es[..4][..3] == es[..3] && es[..3][..2] == es[..2] && es[..2][..1] == es[..1] && es[..1][..0] == [];
    assert After(job, s, es[..1]) == Next(job, s, a);
    assert After(job, s, es[..2]) == Next(job, Next(job, s, a), b);
    assert After(job, s, es[..3]) == Next(job, Next(job, Next(job, s, a), b), c);
  }

  // ---------------------------------------------------------------- the code

  lemma {:induction false} RewrittenStep(site: Site, app: nat, envs: seq<string>, i: nat)
    requires i < |envs|
    ensures Rewritten(site, app, envs[..i + 1])
         == Rewritten(site, app, envs[..i]).(secrets :=
              Rewritten(site, app, envs[..i]).secrets[Slot(app, envs[i]) := EnvRanges(Rewritten(site, app, envs[..i]), app, envs[i])])
  {
    assert envs[..i + 1][..i] == envs[..i];
    RewrittenShape(site, app, envs[..i]);
  }

  /** The tables and the secrets that the views and the background workers share. */
  class Store {
    var allowlists: set<nat>
    var links: set<Link>
    var secrets: map<Slot, seq<nat>>
    const bound: nat

    function Value(): Site
      reads this
    {
      Site(allowlists, links, secrets, bound)
    }

    /** The loop over the deployment environments, in both handlers. */
    method RewriteSecrets(app: nat, envs: seq<string>)
      modifies this`secrets
      ensures Value() == Rewritten(old(Value()), app, envs)
    {
      ghost var site := Value();
      hide EnvRanges, Rewritten;
      RewrittenNone(site, app, envs);
      var i := 0;
      while i < |envs|
        invariant 0 <= i <= |envs|
        invariant Value() == Rewritten(site, app, envs[..i])
      {
        RewrittenStep(site, app, envs, i);
        secrets := secrets[Slot(app, envs[i]) := EnvRanges(Value(), app, envs[i])];
        i := i + 1;
      }
      assert envs[..|envs|] == envs;
    }

    /** `app_ip_ranges_delete`, when nothing else happens in between and the secrets can be written. */
    method AppIpRangesDelete(app: nat, ipRange: nat, envs: seq<string>) returns (found: bool)
      modifies this
      ensures found <==> ipRange in old(allowlists)
      ensures var site := Rewritten(Unlinked(old(Value()), app, ipRange), app, envs);
              Value() == if !found then old(Value())
                         else if Unused(site, ipRange) then Deleted(site, ipRange)
                         else site
      ensures found ==> forall l :: l in links <==> l in old(links) && !(l.app == app && l.allowlist == ipRange)
      ensures found ==> allowlists == if exists l :: l in old(links) && l.allowlist == ipRange && l.app != app
                                      then old(allowlists) else old(allowlists) - {ipRange}
      ensures found && (forall id :: id in old(allowlists) ==> id < bound) ==>
                forall env :: env in envs ==> MadeOf(Value(), Slot(app, env), InForce(old(Value()), app, env) - {ipRange})
    {
      ghost var before := Value();
      RemovalOutcome(before, app, ipRange, envs);
      hide Unlinked, MadeOf, InForce, Rewritten, EnvRanges;
      UnlinkedLinks(before, app, ipRange);
      if ipRange !in allowlists {
        return false;
      }
      links := set l | l in links && !(l.app == app && l.allowlist == ipRange);
      RewriteSecrets(app, envs);
      if forall l :: l in links ==> l.allowlist != ipRange {
        allowlists := allowlists - {ipRange};
        links := set l | l in links && l.allowlist != ipRange;
      }
      found := true;
    }

    /** `app_ip_ranges_update` */
    method AppIpRangesUpdate(app: nat, envs: seq<string>)
      modifies this`secrets
      ensures Value() == Rewritten(old(Value()), app, envs)
    {
      RewriteSecrets(app, envs);
    }

    /** The apps that use the allowlist, each once: one background task is started for each. */
    method AffectedApps(allowlist: nat) returns (apps: seq<nat>)
      ensures NoDuplicates(apps)
      ensures forall a :: a in apps <==> Uses(Value(), a, allowlist)
    {
      apps := [];
      var todo := set l | l in links && l.allowlist == allowlist :: l.app;
      while todo != {}
        invariant NoDuplicates(apps)
        invariant forall a :: a in apps || a in todo <==> Uses(Value(), a, allowlist)
        invariant forall a :: a in todo ==> a !in apps
        decreases todo
      {
        var a :| a in todo;
        todo := todo - {a};
        apps := apps + [a];
      }
    }

    /** `trigger_tasks_for_ip_range_update`: a refresh of every app that uses the changed allowlist. */
    method TriggerUpdate(allowlist: nat, oldRanges: set<string>, newRanges: set<string>) returns (tasks: seq<nat>)
      ensures NoDuplicates(tasks)
      ensures forall a :: a in tasks <==> oldRanges != newRanges && Uses(Value(), a, allowlist)
    {
      tasks := [];
      if |oldRanges - newRanges| > 0 || |newRanges - oldRanges| > 0 {
        assert oldRanges != newRanges;
        tasks := AffectedApps(allowlist);
      } else {
        assert oldRanges - newRanges == {} && newRanges - oldRanges == {};
        assert oldRanges == newRanges;
      }
    }

    /** `IPAllowlistDelete.form_valid`, with the workers it starts. */
    method FormValid(allowlist: nat) returns (workers: seq<nat>)
      modifies this
      ensures Value() == Start(old(Value()), allowlist).site
      ensures links == old(links) && secrets == old(secrets)
      ensures allowlists == if Unused(old(Value()), allowlist) then old(allowlists) - {allowlist} else old(allowlists)
      ensures NoDuplicates(workers)
      ensures forall a :: a in workers <==> a in Start(old(Value()), allowlist).workers
    {
      workers := [];
      if forall l :: l in links ==> l.allowlist != allowlist {
        allowlists := allowlists - {allowlist};
        links := set l | l in links && l.allowlist != allowlist;
      } else {
        workers := AffectedApps(allowlist);
      }
    }
  }

  lemma {:induction false} UnlinkedLinks(site: Site, app: nat, ipRange: nat)
    ensures Unlinked(site, app, ipRange) == site.(links := set l | l in site.links && !(l.app == app && l.allowlist == ipRange))
  {
  }

  /** What taking the allowlist out of one app comes to, whether or not it is deleted then. */
  lemma {:induction false} RemovalOutcome(site: Site, app: nat, ipRange: nat, envs: seq<string>)
    ensures var t := Rewritten(Unlinked(site, app, ipRange), app, envs);
            var r := if Unused(t, ipRange) then Deleted(t, ipRange) else t;
            && (forall l :: l in r.links <==> l in site.links && !(l.app == app && l.allowlist == ipRange))
            && r.allowlists == (if exists l :: l in site.links && l.allowlist == ipRange && l.app != app
                                then site.allowlists else site.allowlists - {ipRange})
            && ((forall id :: id in site.allowlists ==> id < site.bound) ==>
                  forall env :: env in envs ==> MadeOf(r, Slot(app, env), InForce(site, app, env) - {ipRange}))
  {
    hide EnvRanges, Rewritten;
    var u := Unlinked(site, app, ipRange);
    RewrittenShape(u, app, envs);
    if forall id :: id in site.allowlists ==> id < site.bound {
      forall env | env in envs
        ensures MadeOf(Rewritten(u, app, envs), Slot(app, env), InForce(site, app, env) - {ipRange})
      {
        RewrittenMadeOf(u, app, envs, Slot(app, env));
        assert InForce(u, app, env) == InForce(site, app, env) - {ipRange};
      }
    }
  }

  lemma {:induction false} RewrittenNone(site: Site, app: nat, envs: seq<string>)
    ensures Rewritten(site, app, envs[..0]) == site
  {
  }

  /** One worker from start to end without interruption is its events in a row. */
  lemma {:induction false} WorkerAlone(job: Job, s: State, app: nat)
    requires app in s.workers && s.workers[app].Waiting? && job.allowlist in s.site.allowlists
    ensures var site := Rewritten(Unlinked(s.site, app, job.allowlist), app, EnvsOf(job, app));
            After(job, s, [Fetch(app), Commit(app), Count(app), Delete(app)])
            == State(if Unused(site, job.allowlist) then Deleted(site, job.allowlist) else site, s.workers[app := Done])
  {
    hide Rewritten, Unlinked, Unused, Deleted;
    var es := [Fetch(app), Commit(app), Count(app), Delete(app)];
    assert es[..3][..2] == es[..2] && es[..2][..1] == es[..1] && es[..1][..0] == [];
    assert After(job, s, es[..1]) == Next(job, s, es[0]);
    assert After(job, s, es[..2]) == Next(job, Next(job, s, es[0]), es[1]);
    assert After(job, s, es[..3]) == Next(job, Next(job, Next(job, s, es[0]), es[1]), es[2]);
  }
}
