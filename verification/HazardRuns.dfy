/** The exact condition under which a reconciliation keeps at most one request in flight. */
module HazardRuns {
  import opened Prelude
  import opened Templates
  import opened Roles
  import opened Requests
  import opened Cluster
  import opened Permission
  import opened Reconcile
  import opened Safety
  import opened Outside
  import opened FinalizerSafety
  import opened OneInFlight
  import opened CalmRuns
  import opened CalmVisits
  import opened StillRuns
  import Runs

  // ---------------------------------------------------------------- the condition suffices

  lemma HazardAlong(w: World, x: World, id: nat)
    requires Sound(w) && Continues(w, x, {}) && id < w.store.next && Hazard(x.store, id)
    ensures Hazard(w.store, id)
  {
    StoreFine(w);
    var j :| Rival(x.store, id, j);
    assert Rival(w.store, id, j);
  }

  lemma AtMostOneAlong(w: World, x: World)
    requires Sound(w) && Continues(w, x, {}) && AtMostOne(w.store)
    ensures AtMostOne(x.store)
  {
    forall i, j | Rival(x.store, i, j) ensures !Flying(x.store, i) {
      if Flying(x.store, i) { assert Rival(w.store, i, j); }
    }
  }

  /** Visiting a request that is no hazard keeps at most one request in flight. */
  lemma VisitKeepsAtMostOne(w: World, id: nat)
    requires Sound(w) && id < w.store.next && AtMostOne(w.store) && !Hazard(w.store, id)
    ensures AtMostOne(Reconcile.Reconcile(w, id).w.store)
  {
    ReadStored(w, id);
    var (w1, got) := GetRequest(w, id);
    AtMostOneAlong(w, w1);
    if got.Ok? {
      if Hazard(w1.store, id) { HazardAlong(w, w1, id); }
      CopyKeepsAtMostOne(w1, got.value);
    }
  }

  // ---------------------------------------------------------------- the condition is needed

  const YES := Answer(PluginGranted, "")

  /** The request is granted and its user a member; no request has gone. */
  predicate Lands(s: Store, t: Store, ar: Request, project: string, rt: Rendered) {
    && StateIn(t, ar.id, {Granted}) && s.requests.Keys <= t.requests.Keys
    && t.requests[ar.id].status.target == project && t.requests[ar.id].deleting == ar.deleting
    && Member(RolesAt(t, Ref(ar.ns, project)), RoleOf(ar, rt), ar.spec.user)
  }

  lemma CalmDecide(w: World, n: nat, ar: Request, rt: Rendered)
    requires Calm(w, n, YES) && n >= 4 && Ready(w.store, ar, rt) && Undecided(ar)
    ensures Decided(w, Decide(w, ar, rt), ar, rt, Granted, "")
    ensures Lands(w.store, Decide(w, ar, rt).w.store, ar, ar.status.target, rt)
  {
    AnswerDecides(w, n, YES, ar, rt);
    GrantMembership(w.store.projects[ProjectKey(ar)].roles, RoleOf(ar, rt), ar.spec.user, rt);
  }

  /** An initialised request, be it one its conflict check has just marked invalid, is granted by
      the same reconciliation. */
  lemma CalmResolve(w: World, n: nat, ar: Request, rt: Rendered)
    requires Calm(w, n, YES) && n >= 7 && Ready(w.store, ar, rt)
    requires ar.status.state in {Initiated, Invalid} && ar.status.expiresAt.None?
    ensures Lands(w.store, Resolve(w, ar).w.store, ar, ar.status.target, rt)
  {
    CalmPermission(w, n, YES, ar, rt);
    CalmDecide(Next(Next(Next(w))), n - 3, ar, rt);
    var flow := HandlePermission(w, ar);
    FinishKeeps(flow.w, flow.ar, Granted);
    assert Resolve(w, ar).w == flow.w;
  }

  /** A new request is initialised and granted. */
  lemma CalmResolveNew(w: World, n: nat, ar: Request, project: string, rt: Rendered)
    requires Calm(w, n, YES) && n >= 8 && ReadyFor(w.store, ar, project, rt) && ar.status == FRESH
    ensures Lands(w.store, Resolve(w, ar).w.store, ar, project, rt)
  {
    CalmStart(w, n, YES, ar, project, rt);
    var w3 := Next(Next(Next(w)));
    CalmInitialised(w3, n - 3, YES, ar, project, rt);
    var init := Initialise(w3, ar, project, rt);
    CalmDecide(init.w, n - 4, init.ar, rt);
    assert HandleWithRole(w3, ar, project, rt) == Decide(init.w, init.ar, rt);
    var flow := HandlePermission(w, ar);
    FinishKeeps(flow.w, flow.ar, Granted);
    assert Resolve(w, ar).w == flow.w;
  }

  lemma CalmConflict(w: World, n: nat, reply: PluginReply, ar: Request, rt: Rendered, j: nat)
    requires StoreOk(w.store) && Calm(w, n, reply) && n >= 2 && Ready(w.store, ar, rt) && Rival(w.store, ar.id, j)
    requires ar.spec.user != "" && !Nameless(ar)
    ensures var step := HandleConflict(w, ar);
      && step.err.None? && Calm(step.w, n - 2, reply) && Ready(step.w.store, step.ar, rt)
      && step.ar == ar.(status := step.ar.status, version := step.ar.version)
      && step.ar.status.state == Invalid && step.ar.status.target == ar.status.target
      && step.ar.status.expiresAt == ar.status.expiresAt
      && w.store.requests.Keys <= step.w.store.requests.Keys
      && step.w.store.projects == w.store.projects && step.w.store.now == w.store.now && step.w.cfg == w.cfg
  {
    CalmPause(w, n, reply);
    RivalFound(w.store, ar, j);
    var w1 := Next(w);
    var conflict := ValidateConflict(Siblings(w1.store, ar.ns, ar.spec.user, ar.spec.app), ar);
    var x := NoteConflict(w1, ar);
    CalmPutStatus(x, n - 1, reply, ar, Recorded(ar.status, ar.spec.duration, Invalid, conflict.value, x.store.now));
  }

  /** Without a user name the check finds nobody. */
  lemma CalmNoConflict(w: World, n: nat, ar: Request)
    requires Calm(w, n, YES) && n >= 1 && ar.spec.user == ""
    ensures HandleConflict(w, ar) == Step(Next(w), ar, None) && Calm(Next(w), n - 1, YES)
  {
    CalmPause(w, n, YES);
  }

  /** A request in the hazard, ready in `project`. */
  predicate Poised(s: Store, ar: Request, project: string, rt: Rendered, j: nat) {
    && ReadyFor(s, ar, project, rt) && Rival(s, ar.id, j) && !Nameless(ar) && !ar.deleting
    && (ar.status.state == Initiated ==> ar.status.target == project && ar.status.expiresAt.None?)
    && (ar.status.state != Initiated ==> ar.status == FRESH && ar.spec.user == "")
  }

  lemma CalmProceed(w: World, n: nat, ar: Request, project: string, rt: Rendered, j: nat)
    requires StoreOk(w.store) && Calm(w, n, YES) && n >= 9 && Poised(w.store, ar, project, rt, j)
    ensures Lands(w.store, Proceed(w, ar).w.store, ar, project, rt)
  {
    if ar.spec.user != "" {
      CalmConflict(w, n, YES, ar, rt, j);
      var step := HandleConflict(w, ar);
      CalmResolve(step.w, n - 2, step.ar, rt);
    } else {
      CalmNoConflict(w, n, ar);
      if ar.status.state == Initiated {
        CalmResolve(Next(w), n - 1, ar, rt);
      } else {
        CalmResolveNew(Next(w), n - 1, ar, project, rt);
      }
    }
  }

  lemma CalmAddFinalizer(w: World, n: nat, ar: Request, project: string, rt: Rendered, j: nat)
    requires StoreOk(w.store) && Calm(w, n, YES) && n >= 2 && Poised(w.store, ar, project, rt, j)
    ensures var step := AddFinalizer(w, ar, ATTEMPTS);
      && step.err.None? && SameIdentity(ar, step.ar) && step.ar.spec == ar.spec && !step.ar.deleting
      && Calm(step.w, n - 2, YES)
      && Poised(step.w.store, step.ar, project, rt, j) && StoreOk(step.w.store)
      && w.store.requests.Keys <= step.w.store.requests.Keys
  {
    CalmPause(w, n, YES);
    CalmPause(Next(w), n - 1, YES);
    FinalizerOk(w.store, ar.id, true);
    assert AddFinalizer(w, ar, ATTEMPTS).w == Commit(Next(Next(w)), WithFinalizer(w.store, ar.id, true));
  }

  lemma ToProceed(w: World, ar: Request)
    requires ar.status.state in {Empty, Initiated}
    ensures Continue(w, ar) == Proceed(w, ar)
  {
  }

  /** Left alone and with the plugin's leave, a request in the hazard ends up granted. */
  lemma CalmCopy(w: World, n: nat, ar: Request, project: string, rt: Rendered, j: nat)
    requires StoreOk(w.store) && Calm(w, n, YES) && n >= 11 && Poised(w.store, ar, project, rt, j)
    ensures Lands(w.store, FromCopy(w, ar).w.store, ar, project, rt)
  {
    var step := HandleFinalizer(w, ar);
    if ar.finalizer { assert step == Flow(w, ar, Ok(false)); } else { CalmAddFinalizer(w, n, ar, project, rt, j); }
    ToProceed(step.w, step.ar);
    CalmProceed(step.w, if ar.finalizer then n else n - 2, step.ar, project, rt, j);
  }

  /** The project the request targets, or some project for a new one. */
  function Goal(ar: Request): string {
    if ar.status.target == "" then "default" else ar.status.target
  }

  /** Other actors put the application into that project, with an empty role list and a template
      without policies. */
  function Setup(ar: Request, name: string): seq<Event> {
    [SetApp(ar.spec.app, Goal(ar)),
     SetProject(Ref(ar.ns, Goal(ar)), []),
     SetTemplate(RoleTemplate(ar.spec.template, name, [], []))]
  }

  function Turns(events: seq<Event>, calls: nat): seq<Turn> {
    [Turn(events, Succeed, YES)] + seq(calls, i => Turn([], Succeed, YES))
  }

  function SetUp(s: Store, ar: Request, name: string): Store {
    Apply(Apply(Apply(s, Setup(ar, name)[0]), Setup(ar, name)[1]), Setup(ar, name)[2])
  }

  lemma SetupApplied(w: World, ar: Request, name: string)
    ensures Interfere(w, Setup(ar, name)).store == SetUp(w.store, ar, name)
    ensures Interfere(w, Setup(ar, name)).script == w.script
    ensures w.ev.clean && ar.spec.template in w.cfg.names && name == w.cfg.names[ar.spec.template] ==>
              Interfere(w, Setup(ar, name)).ev.clean
  {
    var e := Setup(ar, name);
    var w1 := After(w, e[0]);
    var w2 := After(w1, e[1]);
    var w3 := After(w2, e[2]);
    assert e[1..][0] == e[1] && e[2..][0] == e[2] && e[3..] == [] && e[1..][1..] == e[2..] && e[2..][1..] == e[3..];
    assert Interfere(w3, e[3..]) == w3;
    assert Interfere(w2, e[2..]) == w3;
    assert Interfere(w1, e[1..]) == w3;
  }

  lemma SetupReady(s: Store, ar: Request, name: string)
    requires ar.id in s.requests && s.requests[ar.id] == ar && !Nameless(ar)
    ensures ReadyFor(SetUp(s, ar, name), ar, Goal(ar), Rendered(ar.spec.template, name, "", [""]))
  {
    var rt := RoleTemplate(ar.spec.template, name, [], []);
    assert Render(rt, Goal(ar), ar.spec.app) == Ok(Rendered(ar.spec.template, name, "", [""]));
  }

  lemma SetupRead(w: World, ar: Request, name: string)
    requires ar.id in w.store.requests && w.store.requests[ar.id] == ar
    requires w.script == Turns(Setup(ar, name), 11)
    ensures var (w1, got) := GetRequest(w, ar.id);
      got == Ok(ar) && w1.store == SetUp(w.store, ar, name) && Calm(w1, 11, YES)
  {
    var x := w.(script := w.script[1..]);
    SetupApplied(x, ar, name);
    assert w.script[0].events == Setup(ar, name);
    assert forall i :: 0 <= i < 11 ==> x.script[i] == Turn([], Succeed, YES);
  }

  lemma SetupStrikes(w: World, ar: Request, name: string, j: nat)
    requires StoreOk(SetUp(w.store, ar, name)) && Hazard(w.store, ar.id)
    requires w.store.requests[ar.id] == ar && Rival(w.store, ar.id, j) && RequestOk(w.store, ar)
    requires w.script == Turns(Setup(ar, name), 11)
    ensures var t := Reconcile.Reconcile(w, ar.id).w.store;
      StateIn(t, ar.id, {Granted}) && j in t.requests
  {
    SetupRead(w, ar, name);
    SetupReady(w.store, ar, name);
    var w1 := GetRequest(w, ar.id).0;
    assert w1.store.requests == w.store.requests;
    CalmCopy(w1, 11, ar, Goal(ar), Rendered(ar.spec.template, name, "", [""]), j);
  }

  lemma BothFlying(s: Store, t: Store, id: nat, j: nat)
    requires Kept(s, t, {id}) && Rival(s, id, j) && j in t.requests && StateIn(t, id, {Granted})
    ensures !AtMostOne(t)
  {
    assert Rival(t, id, j);
  }

  /** The name the request's template has in a clean run, if it has one. */
  function ConfiguredName(w: World, ar: Request): string {
    if ar.spec.template in w.cfg.names then w.cfg.names[ar.spec.template] else ""
  }

  /** The turns that let the hazard strike. */
  function Strike(w: World, id: nat): seq<Turn>
    requires id in w.store.requests
  {
    var ar := w.store.requests[id];
    Turns(Setup(ar, ConfiguredName(w, ar)), 11)
  }

  lemma SetupStoreOk(w: World, ar: Request, name: string)
    requires StoreOk(w.store)
    ensures StoreOk(SetUp(w.store, ar, name))
  {
    var s := SetUp(w.store, ar, name);
    forall id | id in s.requests ensures s.requests[id].id == id && id < s.next && RequestOk(s, s.requests[id]) {
      assert RequestOk(w.store, w.store.requests[id]);
    }
  }

  lemma StrikeGrants(w: World, id: nat) returns (j: nat)
    requires Sound(w) && Hazard(w.store, id)
    ensures Rival(w.store, id, j)
    ensures var t := Reconcile.Reconcile(w.(script := Strike(w, id)), id).w.store;
      StateIn(t, id, {Granted}) && j in t.requests
  {
    StoreFine(w);
    var ar := w.store.requests[id];
    assert RequestOk(w.store, ar);
    j :| Rival(w.store, id, j);
    SetupStoreOk(w, ar, ConfiguredName(w, ar));
    SetupStrikes(w.(script := Strike(w, id)), ar, ConfiguredName(w, ar), j);
  }

  lemma VisitKept(w: World, id: nat, turns: seq<Turn>)
    requires Sound(w)
    ensures Kept(w.store, Runs.Perform(w, Runs.Visit(id, turns)).store, {id})
  {
    Runs.PerformSound(w, Runs.Visit(id, turns));
  }

  /** With these turns, a visit to the request leaves at most one request in flight. */
  ghost predicate VisitIsSafe(w: World, id: nat, turns: seq<Turn>) {
    AtMostOne(Runs.Perform(w, Runs.Visit(id, turns)).store)
  }

  lemma SafeWithoutHazard(w: World, id: nat, turns: seq<Turn>)
    requires Sound(w) && AtMostOne(w.store) && id < w.store.next && !Hazard(w.store, id)
    ensures VisitIsSafe(w, id, turns)
  {
    var x := w.(script := turns);
    assert Sound(x) && x.store == w.store;
    VisitKeepsAtMostOne(x, id);
    assert Runs.Perform(w, Runs.Visit(id, turns)) == Reconcile.Reconcile(x, id).w;
  }

  lemma UnsafeWithHazard(w: World, id: nat)
    requires Sound(w) && Hazard(w.store, id)
    ensures !VisitIsSafe(w, id, Strike(w, id))
  {
    var j := StrikeGrants(w, id);
    VisitKept(w, id, Strike(w, id));
    BothFlying(w.store, Runs.Perform(w, Runs.Visit(id, Strike(w, id))).store, id, j);
  }

  /** A reconciliation keeps at most one request in flight, whatever other actors, the API server
      and the plugin do in it, exactly when the request is not in the hazard. */
  lemma AtMostOneIffNoHazard(w: World, id: nat)
    requires Sound(w) && AtMostOne(w.store) && id < w.store.next
    ensures (forall turns :: VisitIsSafe(w, id, turns)) <==> !Hazard(w.store, id)
  {
    if Hazard(w.store, id) {
      UnsafeWithHazard(w, id);
    } else {
      forall turns ensures VisitIsSafe(w, id, turns) {
        SafeWithoutHazard(w, id, turns);
      }
    }
  }

  lemma StrikeRead(w: World, ar: Request)
    requires ar.id in w.store.requests && w.store.requests[ar.id] == ar && Keyed(w.store)
    requires w.ev.clean && ar.spec.template in w.cfg.names && w.script == Strike(w, ar.id)
    ensures var (x, got) := GetRequest(w, ar.id);
      got == Ok(ar) && Still(x) && Keyed(x.store) && x.ev.clean
  {
    SetupRead(w, ar, ConfiguredName(w, ar));
    SetupApplied(w.(script := w.script[1..]), ar, ConfiguredName(w, ar));
    assert |GetRequest(w, ar.id).0.script| == 11;
  }

  /** The turns of the strike keep a clean run clean. */
  lemma StrikeIsClean(w: World, id: nat)
    requires Sound(w) && w.ev.clean && Hazard(w.store, id) && w.store.requests[id].spec.template in w.cfg.names
    ensures Runs.Perform(w, Runs.Visit(id, Strike(w, id))).ev.clean
  {
    StoreFine(w);
    var ar := w.store.requests[id];
    var x := w.(script := Strike(w, id));
    StrikeRead(x, ar);
    CopyFollows(GetRequest(x, id).0, ar);
    assert Reconcile.Reconcile(x, id) == FromCopy(GetRequest(x, id).0, ar);
  }

  /** The turns leave the run clean. */
  ghost predicate VisitIsClean(w: World, id: nat, turns: seq<Turn>) {
    Runs.Perform(w, Runs.Visit(id, turns)).ev.clean
  }

  /** The same in clean runs, where every template keeps its configured role name. */
  lemma CleanIffNoHazard(w: World, id: nat)
    requires Sound(w) && w.ev.clean && AtMostOne(w.store) && id < w.store.next
    requires id in w.store.requests ==> w.store.requests[id].spec.template in w.cfg.names
    ensures (forall turns :: VisitIsClean(w, id, turns) ==> VisitIsSafe(w, id, turns)) <==> !Hazard(w.store, id)
  {
    if Hazard(w.store, id) {
      UnsafeWithHazard(w, id);
      StrikeIsClean(w, id);
      assert VisitIsClean(w, id, Strike(w, id));
    } else {
      forall turns ensures VisitIsSafe(w, id, turns) {
        SafeWithoutHazard(w, id, turns);
      }
    }
  }

  // ---------------------------------------------------------------- over runs

  /** The operation reconciles no request that is in the hazard, or not created yet. */
  ghost predicate AvoidsHazard(w: World, op: Runs.Op) {
    op.Visit? ==> op.id < w.store.next && !Hazard(w.store, op.id)
  }

  /** So does every operation of the run, when its turn comes. */
  ghost predicate RunAvoidsHazard(w: World, ops: seq<Runs.Op>)
    decreases |ops|
  {
    ops != [] ==> AvoidsHazard(w, ops[0]) && RunAvoidsHazard(Runs.Perform(w, ops[0]), ops[1..])
  }

  lemma StepKeepsAtMostOne(w: World, op: Runs.Op)
    requires Sound(w) && AtMostOne(w.store) && AvoidsHazard(w, op)
    ensures AtMostOne(Runs.Perform(w, op).store)
  {
    match op
    case Visit(id, turns) => SafeWithoutHazard(w, id, turns);
    case Act(events) =>
      InterfereSound(w, events);
      AtMostOneAlong(w, Interfere(w, events));
  }

  /** When no reconciliation starts on a request that is in the hazard then, at most one request is in
      flight at the end of every run. */
  lemma {:induction false} RunKeepsAtMostOne(w: World, ops: seq<Runs.Op>)
    requires Sound(w) && AtMostOne(w.store) && RunAvoidsHazard(w, ops)
    ensures AtMostOne(Runs.Run(w, ops).store)
    decreases |ops|
  {
    if ops != [] {
      Runs.PerformSound(w, ops[0]);
      StepKeepsAtMostOne(w, ops[0]);
      RunKeepsAtMostOne(Runs.Perform(w, ops[0]), ops[1..]);
    }
  }
}
