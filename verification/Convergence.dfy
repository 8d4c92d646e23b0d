/** Drift is repaired once and for all: undisturbed visits to the granted requests of a project bring
    their roles in sync one by one, and each visit that writes the project leaves fewer of them to do,
    so that patching, watching and reconciling comes to an end. */
module Convergence {
  import opened Prelude
  import opened Templates
  import opened Roles
  import opened Requests
  import opened Cluster
  import opened Permission
  import opened Reconcile
  import opened Safety
  import opened CalmRuns
  import opened CalmVisits
  import opened Polling
  import Runs

  // ---------------------------------------------------------------- drift

  /** What the stored template renders to for a request that it renders for. */
  function RenderingOf(s: Store, ar: Request): Rendered
    requires Renders(s, ar)
  {
    Render(s.templates[ar.spec.template], ar.status.target, ar.spec.app).value
  }

  /** A granted request of the project whose role can be rendered. */
  predicate Served(s: Store, id: nat, key: Ref) {
    && id in s.requests && s.requests[id].status.state == Granted && ProjectKey(s.requests[id]) == key
    && Renders(s, s.requests[id])
  }

  predicate InSyncAt(s: Store, roles: seq<ProjectRole>, id: nat)
    requires id in s.requests && Renders(s, s.requests[id])
  {
    var ar := s.requests[id];
    var rt := RenderingOf(s, ar);
    InSync(roles, RoleOf(ar, rt), rt, ar.spec.user, true)
  }

  predicate Drifted(s: Store, id: nat, key: Ref) {
    Served(s, id, key) && !InSyncAt(s, RolesAt(s, key), id)
  }

  /** The granted requests of the project that are out of sync. */
  function DriftedIn(s: Store, key: Ref): set<nat> {
    set id | id in s.requests && Drifted(s, id, key)
  }

  predicate AgreeingPair(s: Store, i: nat, j: nat)
    requires i in s.requests && j in s.requests && Renders(s, s.requests[i]) && Renders(s, s.requests[j])
  {
    var a, b := RenderingOf(s, s.requests[i]), RenderingOf(s, s.requests[j]);
    RoleOf(s.requests[i], a) == RoleOf(s.requests[j], b) ==> a.description == b.description && a.policies == b.policies
  }

  /** Requests of the project with the same role name agree on what the role holds. */
  ghost predicate Agreeing(s: Store, key: Ref) {
    forall i, j :: Served(s, i, key) && Served(s, j, key) ==> AgreeingPair(s, i, j)
  }

  // ---------------------------------------------------------------- one visit

  function Yes(message: string): PluginReply {
    Answer(PluginGranted, message)
  }

  /** The request may be visited for a sync: nothing else is due for it. */
  ghost predicate Syncable(cfg: Config, s: Store, id: nat, key: Ref) {
    && Served(s, id, key)
    && var ar := s.requests[id];
       Held(cfg, s, ar, RenderingOf(s, ar)) && !Expiring(ar.status, s.now)
  }

  /** The roles after a visit: as they were, or with the sync made. */
  function SyncedRoles(s: Store, id: nat, key: Ref): seq<ProjectRole>
    requires Served(s, id, key)
  {
    var ar, roles := s.requests[id], RolesAt(s, key);
    var rt := RenderingOf(s, ar);
    if InSyncAt(s, roles, id) then roles else SyncEdit(roles, RoleOf(ar, rt), ar.spec.user, rt, true)
  }

  lemma SyncFlow(w: World, n: nat, message: string, ar: Request, rt: Rendered) returns (x: World, m: nat)
    requires Calm(w, n, Yes(message)) && n >= 6 && Ready(w.store, ar, rt)
    requires ar.status.state == Granted && !Expiring(ar.status, w.store.now)
    ensures Calm(x, m, Yes(message)) && m >= 2 && x.store == w.store
    ensures HandlePermission(w, ar).w == EditProject(x, ar, SyncAccess, Some(rt), ATTEMPTS).0
    ensures HandlePermission(w, ar).ar == ar
    ensures EditProject(x, ar, SyncAccess, Some(rt), ATTEMPTS).1.None? ==> HandlePermission(w, ar).result == Ok(Granted)
  {
    CalmPermission(w, n, Yes(message), ar, rt);
    var w3 := Next(Next(Next(w)));
    CalmPause(w3, n - 3, Yes(message));
    x, m := Allowed(w3, ar).0, if w.cfg.plugin then n - 4 else n - 3;
  }

  lemma CalmSkip(w: World, n: nat, reply: PluginReply, ar: Request, rt: Rendered)
    requires Calm(w, n, reply) && n >= 1 && ProjectKey(ar) in w.store.projects
    requires Skips(SyncAccess, w.store.projects[ProjectKey(ar)].roles, ar, rt)
    ensures EditProject(w, ar, SyncAccess, Some(rt), ATTEMPTS) == (Next(w), None)
  {
    CalmPause(w, n, reply);
  }

  /** An undisturbed, allowed visit writes the project exactly when the request has drifted, and
      nothing else in any case. */
  lemma SyncVisit(w: World, message: string, id: nat, key: Ref)
    requires Calm(w, 8, Yes(message)) && Syncable(w.cfg, w.store, id, key)
    ensures var t := Reconcile.Reconcile(w, id).w.store;
      && OnlyRoles(w.store, t, key, SyncedRoles(w.store, id, key))
      && (!Drifted(w.store, id, key) ==> t == w.store)
  {
    var ar := w.store.requests[id];
    var rt := RenderingOf(w.store, ar);
    HeldProceeds(w, 8, Yes(message), ar, rt);
    var v := Next(Next(w));
    var x, m := SyncFlow(v, 6, message, ar, rt);
    CalmEdit(x, m, Yes(message), ar, SyncAccess, rt);
    if InSyncAt(w.store, RolesAt(w.store, key), id) { CalmSkip(x, m, Yes(message), ar, rt); }
    var flow := HandlePermission(v, ar);
    FinishKeeps(flow.w, ar, Granted);
    assert Resolve(v, ar).w == flow.w;
  }

  // ---------------------------------------------------------------- fewer to do

  lemma OthersStayInSync(s: Store, t: Store, id: nat, other: nat, key: Ref)
    requires Served(s, id, key) && Served(s, other, key) && AgreeingPair(s, id, other)
    requires t.requests == s.requests && t.templates == s.templates
    requires RolesAt(t, key) == SyncedRoles(s, id, key) && InSyncAt(s, RolesAt(s, key), other)
    ensures Served(t, other, key) && InSyncAt(t, RolesAt(t, key), other)
  {
    var a, b := s.requests[id], s.requests[other];
    var rt, rt' := RenderingOf(s, a), RenderingOf(s, b);
    GrantEditIsSyncEdit(RolesAt(s, key), RoleOf(a, rt), a.spec.user, rt);
    GrantEditKeepsOthersInSync(RolesAt(s, key), RoleOf(a, rt), a.spec.user, rt,
                               RoleOf(b, rt'), rt', b.spec.user, true);
  }

  lemma VisitedIsInSync(s: Store, t: Store, id: nat, key: Ref)
    requires Served(s, id, key) && t.requests == s.requests && t.templates == s.templates
    requires RolesAt(t, key) == SyncedRoles(s, id, key)
    ensures !Drifted(t, id, key)
  {
    var ar := s.requests[id];
    var rt := RenderingOf(s, ar);
    GrantEditIsSyncEdit(RolesAt(s, key), RoleOf(ar, rt), ar.spec.user, rt);
    GrantEditSyncs(RolesAt(s, key), RoleOf(ar, rt), ar.spec.user, rt, true);
  }

  /** A sync takes the request from the drifted ones and adds none. */
  lemma SyncOnlyRemoves(s: Store, t: Store, id: nat, key: Ref)
    requires Served(s, id, key) && Agreeing(s, key) && OnlyRoles(s, t, key, SyncedRoles(s, id, key))
    ensures Agreeing(t, key) && DriftedIn(t, key) <= DriftedIn(s, key) - {id}
  {
    VisitedIsInSync(s, t, id, key);
    forall other | other in DriftedIn(t, key) ensures other in DriftedIn(s, key) - {id} {
      assert Served(s, other, key) && AgreeingPair(s, id, other);
      if InSyncAt(s, RolesAt(s, key), other) { OthersStayInSync(s, t, id, other, key); }
    }
    forall i, j | Served(t, i, key) && Served(t, j, key) ensures AgreeingPair(t, i, j) {
      assert Served(s, i, key) && Served(s, j, key) && AgreeingPair(s, i, j);
    }
  }

  lemma StaysSyncable(cfg: Config, s: Store, t: Store, id: nat, key: Ref, roles: seq<ProjectRole>)
    requires Syncable(cfg, s, id, key) && OnlyRoles(s, t, key, roles) && StoreOk(t)
    ensures Syncable(cfg, t, id, key)
  {
    StaysUnopposed(s, t, s.requests[id]);
  }

  // ---------------------------------------------------------------- tours

  function Quietly(message: string): seq<Turn> {
    seq(8, i => Turn([], Succeed, Yes(message)))
  }

  /** Undisturbed, allowed visits, one after the other. */
  function Tour(ids: seq<nat>, message: string): seq<Runs.Op> {
    if ids == [] then [] else [Runs.Visit(ids[0], Quietly(message))] + Tour(ids[1..], message)
  }

  /** How many operations of the run change a project. */
  function Writes(w: World, ops: seq<Runs.Op>): nat
    decreases |ops|
  {
    if ops == [] then 0
    else
      var x := Runs.Perform(w, ops[0]);
      (if x.store.projects == w.store.projects then 0 else 1) + Writes(x, ops[1..])
  }

  /** All these requests may be visited for a sync, and those of the project agree. */
  ghost predicate Tourable(w: World, ids: seq<nat>, key: Ref) {
    && Sound(w) && Agreeing(w.store, key)
    && forall k :: 0 <= k < |ids| ==> Syncable(w.cfg, w.store, ids[k], key)
  }

  lemma OneOfTour(w: World, ids: seq<nat>, key: Ref, message: string)
    requires Tourable(w, ids, key) && ids != []
    ensures var x := Runs.Perform(w, Runs.Visit(ids[0], Quietly(message)));
      && Tourable(x, ids[1..], key) && DriftedIn(x.store, key) <= DriftedIn(w.store, key) - {ids[0]}
      && (ids[0] !in DriftedIn(w.store, key) ==> x.store == w.store)
  {
    var v, id := w.(script := Quietly(message)), ids[0];
    var x := Runs.Perform(w, Runs.Visit(id, Quietly(message)));
    assert Calm(v, 8, Yes(message));
    SyncVisit(v, message, id, key);
    SyncOnlyRemoves(w.store, x.store, id, key);
    Runs.PerformSound(w, Runs.Visit(id, Quietly(message)));
    StoreFine(x);
    forall k | 0 <= k < |ids[1..]| ensures Syncable(x.cfg, x.store, ids[1..][k], key) {
      StaysSyncable(w.cfg, w.store, x.store, ids[k + 1], key, SyncedRoles(w.store, id, key));
    }
  }

  lemma {:induction false} Fewer(a: set<nat>, b: set<nat>)
    requires a <= b
    ensures |a| <= |b|
    decreases a
  {
    if a != {} {
      var x :| x in a;
      Fewer(a - {x}, b - {x});
    }
  }

  lemma FewerThan(a: set<nat>, b: set<nat>, id: nat)
    requires a <= b - {id} && id in b
    ensures |a| < |b|
  {
    Fewer(a, b - {id});
  }

  lemma TourSplits(w: World, ids: seq<nat>, message: string)
    requires ids != []
    ensures var x := Runs.Perform(w, Runs.Visit(ids[0], Quietly(message)));
      && Runs.Run(w, Tour(ids, message)) == Runs.Run(x, Tour(ids[1..], message))
      && Writes(w, Tour(ids, message)) ==
         (if x.store.projects == w.store.projects then 0 else 1) + Writes(x, Tour(ids[1..], message))
  {
    assert Tour(ids, message)[1..] == Tour(ids[1..], message);
  }

  function AllOf(ids: seq<nat>): set<nat> {
    if ids == [] then {} else {ids[0]} + AllOf(ids[1..])
  }

  /** One visit and the tour that follows it. */
  lemma WritesAddUp(first: nat, rest: nat, id: nat, before: set<nat>, between: set<nat>, after: set<nat>)
    requires between <= before - {id} && first <= 1 && (id !in before ==> first == 0)
    requires rest + |after| <= |between|
    ensures first + rest + |after| <= |before|
  {
    Fewer(between, before);
    if id in before { FewerThan(between, before, id); }
  }

  /** The tour has left only so many requests out of sync, at the price of so many writes. */
  ghost predicate Converged(w: World, ids: seq<nat>, key: Ref, message: string) {
    var x := Runs.Run(w, Tour(ids, message));
    && Writes(w, Tour(ids, message)) + |DriftedIn(x.store, key)| <= |DriftedIn(w.store, key)|
    && DriftedIn(x.store, key) <= DriftedIn(w.store, key) - AllOf(ids)
  }

  lemma TourStep(w: World, x: World, ids: seq<nat>, key: Ref, message: string)
    requires ids != [] && x == Runs.Perform(w, Runs.Visit(ids[0], Quietly(message)))
    requires DriftedIn(x.store, key) <= DriftedIn(w.store, key) - {ids[0]}
    requires ids[0] !in DriftedIn(w.store, key) ==> x.store == w.store
    requires Converged(x, ids[1..], key, message)
    ensures Converged(w, ids, key, message)
  {
    TourSplits(w, ids, message);
    var y := Runs.Run(x, Tour(ids[1..], message));
    WritesAddUp(if x.store.projects == w.store.projects then 0 else 1, Writes(x, Tour(ids[1..], message)), ids[0],
                DriftedIn(w.store, key), DriftedIn(x.store, key), DriftedIn(y.store, key));
  }

  /** However long and in whatever order granted requests are visited, projects are written at most as
      often as there were requests out of sync; those visited are in sync in the end, and no other
      has gone out of sync. */
  lemma {:induction false} TourConverges(w: World, ids: seq<nat>, key: Ref, message: string)
    requires Tourable(w, ids, key)
    ensures var x := Runs.Run(w, Tour(ids, message));
      && Writes(w, Tour(ids, message)) + |DriftedIn(x.store, key)| <= |DriftedIn(w.store, key)|
      && DriftedIn(x.store, key) <= DriftedIn(w.store, key) - AllOf(ids)
    decreases |ids|
  {
    if ids != [] {
      var x := Runs.Perform(w, Runs.Visit(ids[0], Quietly(message)));
      OneOfTour(w, ids, key, message);
      TourConverges(x, ids[1..], key, message);
      TourStep(w, x, ids, key, message);
    }
  }

  /** Once nothing is out of sync, such visits change nothing that is stored. */
  lemma {:induction false} SettledStaysSettled(w: World, ids: seq<nat>, key: Ref, message: string)
    requires Tourable(w, ids, key) && DriftedIn(w.store, key) == {}
    ensures Runs.Run(w, Tour(ids, message)).store == w.store
    decreases |ids|
  {
    if ids != [] {
      OneOfTour(w, ids, key, message);
      TourSplits(w, ids, message);
      SettledStaysSettled(Runs.Perform(w, Runs.Visit(ids[0], Quietly(message))), ids[1..], key, message);
    }
  }

  // ---------------------------------------------------------------- where it does not end

  /** Requests with the same role name and different descriptions of the role are never in sync both,
      so that one of them is out of sync whatever is done: the two undo each other's writes. */
  lemma QuarrelNeverEnds(s: Store, i: nat, j: nat, key: Ref)
    requires Served(s, i, key) && Served(s, j, key)
    requires var a, b := RenderingOf(s, s.requests[i]), RenderingOf(s, s.requests[j]);
      RoleOf(s.requests[i], a) == RoleOf(s.requests[j], b) && a.description != b.description
    ensures i in DriftedIn(s, key) || j in DriftedIn(s, key)
  {
    var a, roles := s.requests[i], RolesAt(s, key);
    var rt := RenderingOf(s, a);
    if InSyncAt(s, roles, i) {
      var k :| 0 <= k < |roles| && roles[k].name == RoleOf(a, rt);
      assert RoleInSync(roles[k], rt, a.spec.user, true);
    }
  }
}
