/** One request alone is enough for the other failures: clean runs from the start lead to a granted
    request whose application has lost its project, to a clean-up without a template, and to a grant
    whose answer is lost. */
module GrantRuns {
  import opened Prelude
  import opened Templates
  import opened Roles
  import opened Requests
  import opened Cluster
  import opened Permission
  import opened Reconcile
  import opened Safety
  import opened OneInFlight
  import opened CalmRuns
  import opened CalmVisits
  import opened StillRuns
  import opened HazardRuns
  import opened Membership
  import opened Reachability

  /** The first request is granted and its user in the role; the second is as it arrived. */
  predicate FirstGranted(s: Store) {
    && Furnished(s) && s.now == 0 && s.requests.Keys == {0, 1} && s.requests[1] == Asked(1, 3)
    && Member(RolesAt(s, PROJECT), RoleName("admin", APP), "alice")
    && var ar := s.requests[0];
       && ar == Asked(0, ar.version).(status := ar.status, finalizer := true)
       && ar.status == FirstStatus(Asked(0, 2), "default", RENDERED, Granted, "", 0)
  }

  lemma WelcomedFirst(w: World)
    requires Sound(w) && Arrived(w.store) && w.cfg.plugin && w.cfg.timeout >= 0
    ensures Welcomed(w.store, Reconcile.Reconcile(w.(script := Replies(YES)), 0).w.store, Asked(0, 2),
                     "default", RENDERED, Granted, "")
  {
    var v := w.(script := Replies(YES));
    StoreFine(w);
    FurnishedReady(w.store, Asked(0, 2));
    NoneAheadUnopposed(w.store, Asked(0, 2));
    assert Calm(v, 12, YES);
    FirstVisit(v, YES, Asked(0, 2), "default", RENDERED);
  }

  lemma WelcomedIsGranted(s: Store, t: Store)
    requires Arrived(s) && Furnished(t) && t.now == 0 && t.requests - {0} == s.requests - {0} && StoreOk(t)
    requires Welcomed(s, t, Asked(0, 2), "default", RENDERED, Granted, "")
    ensures FirstGranted(t)
  {
    OthersKept(s.requests, t.requests, 0, 1);
    KeysKept(s.requests, t.requests, 0);
    assert RequestOk(t, t.requests[0]);
    GrantMembership(RolesAt(s, PROJECT), RoleName("admin", APP), "alice", RENDERED);
  }

  lemma GrantStep(a: World, b: World)
    requires Sound(a) && Arrived(a.store) && a.cfg.plugin && a.cfg.timeout >= 0
    requires b == Runs.Perform(a, Runs.Visit(0, Replies(YES)))
    ensures Sound(b) && FirstGranted(b.store) && b.ev.clean == a.ev.clean && b.cfg == a.cfg
  {
    WelcomedFirst(a);
    QuietVisit(a, 0, YES);
    StoreFine(b);
    WelcomedIsGranted(a.store, b.store);
  }

  /** A clean run from the start in which the first request is granted. */
  lemma GrantIsReachable() returns (start: World, ops: seq<Runs.Op>, w: World)
    ensures Runs.Initial(start) && w == Runs.Run(start, ops)
    ensures Sound(w) && w.ev.clean && w.cfg == Start().cfg && FirstGranted(w.store)
  {
    start := Start();
    StartIsInitial();
    var arrive, visit := Runs.Act(Arrivals()), Runs.Visit(0, Replies(YES));
    var a := Runs.Perform(start, arrive);
    w := Runs.Perform(a, visit);
    ArrivalStep(a);
    GrantStep(a, w);
    ops := [] + [arrive] + [visit];
    RunThen(start, [], arrive);
    RunThen(start, [] + [arrive], visit);
  }

  /** Its user stays in the role as long as the projects and the request's status stay. */
  lemma StillMember(s: Store, t: Store)
    requires FirstGranted(s) && t.projects == s.projects && 0 in t.requests
    requires t.requests[0].status == s.requests[0].status && SameIdentity(s.requests[0], t.requests[0])
    ensures !Removed(t, t.requests[0])
  {
  }

  // ---------------------------------------------------------------- an application without a project

  lemma {:induction false} ProjectDropped(w: World, x: World)
    requires w.ev.clean && FirstGranted(w.store) && x == Interfere(w, [SetApp(APP, "")])
    ensures x.store == w.store.(apps := w.store.apps[APP := ""]) && x.ev.clean && x.cfg == w.cfg
    ensures !Removed(x.store, x.store.requests[0]) && NoneAhead(x.store, x.store.requests[0])
  {
    InterfereThen(w, [], SetApp(APP, ""));
    assert [SetApp(APP, "")] == [] + [SetApp(APP, "")];
    StillMember(w.store, x.store);
  }

  lemma ProjectlessStrands(x: World)
    requires Sound(x) && x.ev.clean && x.cfg == Start().cfg && x.store.requests.Keys == {0, 1}
    requires APP in x.store.apps && x.store.apps[APP] == ""
    requires var ar := x.store.requests[0];
      && !Removed(x.store, ar) && NoneAhead(x.store, ar) && ar.spec == SPEC && ar.finalizer && !ar.deleting
      && ar.status.state == Granted && ar.status.target != ""
    ensures Stranded(Runs.Perform(x, Runs.Visit(0, Replies(YES))).store, x.store.requests[0])
  {
    var ar, v := x.store.requests[0], x.(script := Replies(YES));
    HoldsInRun(x, 0, Replies(YES));
    NoneAheadUnopposed(x.store, ar);
    assert Calm(v, 10, YES);
    SmoothStrandedIff(v, YES, ar);
  }

  /** A clean run from the start ends with a granted request whose application has lost its project
      name, and one more visit concludes it with its user in the role. */
  lemma ProjectlessIsReachable() returns (start: World, init: seq<Runs.Op>, before: World, ar: Request)
    ensures Runs.Initial(start) && before == Runs.Run(start, init) && Sound(before) && before.ev.clean
    ensures 0 in before.store.requests && ar == before.store.requests[0]
    ensures ar.status.state == Granted && !Removed(before.store, ar)
    ensures APP in before.store.apps && before.store.apps[APP] == "" && ar.spec.app == APP
    ensures Stranded(Runs.Run(start, init + [Runs.Visit(0, Replies(YES))]).store, ar)
  {
    var ops, w;
    start, ops, w := GrantIsReachable();
    var drop := Runs.Act([SetApp(APP, "")]);
    before, init := Runs.Perform(w, drop), ops + [drop];
    RunThen(start, ops, drop);
    Runs.PerformSound(w, drop);
    ProjectDropped(w, before);
    ar := before.store.requests[0];
    ProjectlessStrands(before);
    RunThen(start, init, Runs.Visit(0, Replies(YES)));
  }

  // ---------------------------------------------------------------- a clean-up without a template

  /** The template goes, and the request is deleted. */
  function Losses(): seq<Event> {
    [DropTemplate(TEMPLATE)] + [DeleteRequest(0)]
  }

  lemma {:induction false} TemplateDropped(w: World, x: World)
    requires w.ev.clean && FirstGranted(w.store) && x == Interfere(w, Losses())
    ensures x.ev.clean && x.cfg == w.cfg && x.store.projects == w.store.projects && TEMPLATE !in x.store.templates
    ensures 0 in x.store.requests && x.store.requests[0].deleting
    ensures x.store.requests[0] == w.store.requests[0].(deleting := true, version := x.store.requests[0].version)
    ensures !Removed(x.store, x.store.requests[0])
  {
    InterfereThen(w, [], DropTemplate(TEMPLATE));
    InterfereThen(w, [] + [DropTemplate(TEMPLATE)], DeleteRequest(0));
    var y := After(w, DropTemplate(TEMPLATE));
    assert Losses() == [] + [DropTemplate(TEMPLATE)] + [DeleteRequest(0)];
    assert y.store == w.store.(templates := w.store.templates - {TEMPLATE});
    StillMember(w.store, x.store);
  }

  lemma PanicsThere(w: World)
    requires 0 in w.store.requests && TEMPLATE !in w.store.templates && PROJECT in w.store.projects
    requires var ar := w.store.requests[0];
      && ar.id == 0 && ar.deleting && ar.finalizer && ar.status.state == Granted
      && ar.spec.template == TEMPLATE && ProjectKey(ar) == PROJECT
    ensures var done := Reconcile.Reconcile(w.(script := Replies(YES)), 0);
      done.result == Err(Panic) && done.w.store == w.store
  {
    assert Calm(w.(script := Replies(YES)), 6, YES);
    DeletionPanicsIff(w.(script := Replies(YES)), 6, YES, w.store.requests[0]);
  }

  /** A clean run from the start ends with a request whose clean-up dereferences nil: it is granted, its
      user in the role, its template gone and itself marked for deletion. The visit leaves it all as
      it is. */
  lemma PanicIsReachable() returns (start: World, init: seq<Runs.Op>, before: World, ar: Request)
    ensures Runs.Initial(start) && before == Runs.Run(start, init) && Sound(before) && before.ev.clean
    ensures 0 in before.store.requests && ar == before.store.requests[0]
    ensures ar.deleting && ar.status.state == Granted && !Removed(before.store, ar)
    ensures var done := Reconcile.Reconcile(before.(script := Replies(YES)), 0);
      done.result == Err(Panic) && done.w.store == before.store
  {
    var ops, w;
    start, ops, w := GrantIsReachable();
    var lose := Runs.Act(Losses());
    before, init := Runs.Perform(w, lose), ops + [lose];
    RunThen(start, ops, lose);
    Runs.PerformSound(w, lose);
    TemplateDropped(w, before);
    ar := before.store.requests[0];
    PanicsThere(before);
  }

  // ---------------------------------------------------------------- a grant whose answer is lost

  /** The eighth call is the patch of the grant: it takes effect and its answer is lost. */
  function LostPatch(): seq<Turn> {
    seq(12, i => Turn([], if i == 7 then Lose else Succeed, YES))
  }

  /** The turns from the grant on. */
  predicate LostAhead(w: World) {
    && |w.script| >= 3 && Still(w)
    && w.script[0].outcome == Succeed && w.script[1].outcome == Lose && w.script[2].outcome == Succeed
  }

  lemma LostGrant(w: World, ar: Request)
    requires LostAhead(w) && ar.id in w.store.requests && w.store.requests[ar.id] == ar
    requires ProjectKey(ar) in w.store.projects && ar.status.state == Initiated
    requires Gone(w.store, ProjectKey(ar), RoleOf(ar, RENDERED), ar.spec.user)
    ensures var t := Grant(w, ar, RENDERED, "").w.store;
      StateIn(t, ar.id, {Denied}) && Member(RolesAt(t, ProjectKey(ar)), RoleOf(ar, RENDERED), ar.spec.user)
  {
    assert Rest(w).script == w.script[1..] && Rest(Rest(w)).script == w.script[2..];
    GrantOutcome(w, ar, RENDERED, "");
  }

  /** The decision of an allowing plugin on an initiated request is its grant. */
  lemma AllowedIsGrant(w: World, n: nat, ar: Request)
    requires Calm(w, n, YES) && n >= 1 && w.cfg.plugin && ar.status.state == Initiated
    ensures Decide(w, ar, RENDERED) == Grant(NoteAnswer(Next(w), ar.id, PluginGranted), ar, RENDERED, "")
  {
    CalmPause(w, n, YES);
  }

  /** Without a request timeout nothing is stored after permission handling. */
  lemma NothingTimesOut(w: World, ar: Request, state: State)
    requires w.cfg.timeout == 0
    ensures Finish(w, ar, state).w == w
  {
  }

  lemma ResolveLands(w: World, ar: Request, flow: Flow<State>)
    requires HandlePermission(w, ar) == flow && flow.w.cfg.timeout == 0
    ensures Resolve(w, ar).w == flow.w
  {
    if flow.result.Ok? { NothingTimesOut(flow.w, flow.ar, flow.result.value); }
  }

  /** The first request is initiated, and its next reconciliation loses the answer of the patch. */
  predicate LosingNext(w: World, ar: Request) {
    && Calm(w, 4, YES) && w.cfg.plugin && w.cfg.timeout == 0 && Keyed(w.store) && Ready(w.store, ar, RENDERED)
    && ar.status.state == Initiated && ar.status.expiresAt.None?
    && |w.script| >= 7 && LostAhead(w.(script := w.script[4..]))
    && Gone(w.store, ProjectKey(ar), RoleOf(ar, RENDERED), ar.spec.user)
  }

  lemma LostDecision(w: World, ar: Request) returns (y: World)
    requires LosingNext(w, ar)
    ensures HandlePermission(w, ar) == Grant(y, ar, RENDERED, "") && y.store == w.store && y.cfg == w.cfg
    ensures LostAhead(y)
  {
    CalmPermission(w, 4, YES, ar, RENDERED);
    var x := Next(Next(Next(w)));
    AllowedIsGrant(x, 1, ar);
    y := NoteAnswer(Next(x), ar.id, PluginGranted);
    assert y.script == w.script[4..];
  }

  lemma LostResolve(w: World, ar: Request)
    requires LosingNext(w, ar)
    ensures var t := Resolve(w, ar).w.store;
      StateIn(t, ar.id, {Denied}) && Member(RolesAt(t, ProjectKey(ar)), RoleOf(ar, RENDERED), ar.spec.user)
  {
    var y := LostDecision(w, ar);
    LostGrant(y, ar);
    GrantFollows(y, ar, RENDERED, "");
    ResolveLands(w, ar, Grant(y, ar, RENDERED, ""));
  }

  lemma LostScript(w: World)
    requires w.script == LostPatch()
    ensures Calm(w, 6, YES) && |w.script| == 12
    ensures LostAhead(w.(script := w.script[6..]))
  {
  }

  lemma HalfWayLoses(b: World, w: World, ar: Request)
    requires Sound(b) && b.ev.clean && HalfWay(b.store) && b.cfg == Start().cfg && w == b.(script := LostPatch())
    requires ar == w.store.requests[0]
    ensures Unopposed(w.store, ar) && LosingNext(Next(Next(w)), ar)
  {
    StoreFine(b);
    FurnishedReady(w.store, ar);
    NoneAheadUnopposed(w.store, ar);
    LostScript(w);
    CalmPause(w, 6, YES);
    CalmPause(Next(w), 5, YES);
    assert Next(Next(w)).script[4..] == w.script[6..];
  }

  lemma LostCopy(w: World, ar: Request)
    requires Calm(w, 5, YES) && Unopposed(w.store, ar) && w.cfg.ttl == 0
    requires ar.finalizer && !ar.deleting && ar.status.state == Initiated
    ensures FromCopy(w, ar) == Resolve(Next(w), ar)
  {
    UnopposedProceeds(w, 5, YES, ar);
    assert Continue(w, ar) == Proceed(w, ar);
    assert FromCopy(w, ar) == Continue(w, ar);
  }

  lemma LostVisit(b: World, ar: Request)
    requires Sound(b) && b.ev.clean && HalfWay(b.store) && b.cfg == Start().cfg && ar == b.store.requests[0]
    ensures var t := Reconcile.Reconcile(b.(script := LostPatch()), 0).w.store;
      StateIn(t, 0, {Denied}) && Member(RolesAt(t, PROJECT), RoleName("admin", APP), "alice")
  {
    var w := b.(script := LostPatch());
    LostScript(w);
    CalmPause(w, 6, YES);
    HalfWayLoses(b, w, ar);
    LostResolve(Next(Next(w)), ar);
    LostCopy(Next(w), ar);
    assert Reconcile.Reconcile(w, 0) == FromCopy(Next(w), ar);
  }

  lemma LostRemains(b: World, w: World)
    requires Sound(b) && Sound(w) && Continues(b, w, {0}) && HalfWay(b.store) && StateIn(w.store, 0, {Denied})
    requires Member(RolesAt(w.store, PROJECT), RoleName("admin", APP), "alice")
    ensures !Removed(w.store, w.store.requests[0])
  {
    Runs.AssignmentKept(b, w, {0}, 0);
  }

  lemma LostStaysClean(b: World)
    requires Keyed(b.store)
    ensures Reconcile.Reconcile(b.(script := LostPatch()), 0).w.ev.clean == b.ev.clean
  {
    ReconcileFollows(b.(script := LostPatch()), 0);
  }

  lemma LostPerformed(b: World, w: World)
    requires Sound(b) && b.ev.clean && HalfWay(b.store) && b.cfg == Start().cfg
    requires w == Runs.Perform(b, Runs.Visit(0, LostPatch()))
    ensures Sound(w) && w.ev.clean
    ensures StateIn(w.store, 0, {Denied}) && !Removed(w.store, w.store.requests[0])
  {
    StoreFine(b);
    LostVisit(b, b.store.requests[0]);
    LostStaysClean(b);
    Runs.PerformSound(b, Runs.Visit(0, LostPatch()));
    LostRemains(b, w);
  }

  /** A first request is interrupted, so that its next visit starts initiated; nobody is in the role. */
  lemma InterruptionSteps() returns (a: World, b: World)
    ensures a == Runs.Perform(Start(), Runs.Act(Arrivals()))
    ensures b == Runs.Perform(a, Runs.Visit(0, Replies(CallFailed)))
    ensures Sound(b) && b.ev.clean && b.cfg == Start().cfg && HalfWay(b.store)
  {
    a := Runs.Perform(Start(), Runs.Act(Arrivals()));
    b := Runs.Perform(a, Runs.Visit(0, Replies(CallFailed)));
    ArrivalStep(a);
    FirstStep(a, b);
  }

  /** A clean run from the start ends with a request denied for a lost answer, with its user in the role
      that the grant has put it in. */
  lemma LostGrantIsReachable() returns (start: World, ops: seq<Runs.Op>, w: World)
    ensures Runs.Initial(start) && w == Runs.Run(start, ops) && Sound(w) && w.ev.clean
    ensures StateIn(w.store, 0, {Denied}) && !Removed(w.store, w.store.requests[0])
  {
    start := Start();
    StartIsInitial();
    var a, b := InterruptionSteps();
    var p, q, r := Runs.Act(Arrivals()), Runs.Visit(0, Replies(CallFailed)), Runs.Visit(0, LostPatch());
    ThreeOps(start, p, q, r);
    ops, w := [p, q, r], Runs.Perform(b, r);
    LostPerformed(b, w);
  }
}
