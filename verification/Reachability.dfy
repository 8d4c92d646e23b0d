/** The situations the conditions are about do arise: a run from the start, without anything unclean,
    leads to the hazard, from there to two granted requests for the same role, and from there to a
    user stranded in the role. */
module Reachability {
  import opened Prelude
  import opened Templates
  import opened Roles
  import opened Requests
  import opened Cluster
  import opened Reconcile
  import opened Safety
  import opened OneInFlight
  import opened CalmRuns
  import opened CalmVisits
  import opened StillRuns
  import opened HazardRuns
  import opened Membership
  import opened Keeping

  const APP := Ref("argocd", "shop")
  const TEMPLATE := Ref("argocd", "admin")
  const PROJECT := Ref("argocd", "default")
  const SPEC := Spec(3600, TEMPLATE, 1, APP, "alice")
  const ASK := CreateRequest("argocd", SPEC)
  const RENDERED := Rendered(TEMPLATE, "admin", "", [""])
  const EMPTY_STORE := Store(0, 0, 0, map[], map[], map[], map[])

  /** A plugin is configured, and a name for the template; nothing is stored. */
  function Start(): World {
    World(Config(true, 0, 0, 60, map[TEMPLATE := "admin"]), EMPTY_STORE, [], [EMPTY_STORE], NO_EVIDENCE)
  }

  /** An application, its project and a template are set up. */
  function Setup(): seq<Event> {
    [SetApp(APP, "default")] + [SetProject(PROJECT, [])]
    + [SetTemplate(RoleTemplate(TEMPLATE, "admin", [], []))]
  }

  /** And one user asks for the role twice. */
  function Arrivals(): seq<Event> {
    Setup() + [ASK] + [ASK]
  }

  function Replies(reply: PluginReply): seq<Turn> {
    seq(13, i => Turn([], Succeed, reply))
  }

  function Asked(id: nat, version: nat): Request {
    Request(id, version, "argocd", 0, false, false, SPEC, FRESH)
  }

  /** The application is in the project, which is there, and the template renders. */
  predicate Furnished(s: Store) {
    && APP in s.apps && s.apps[APP] == "default" && PROJECT in s.projects
    && TEMPLATE in s.templates && s.templates[TEMPLATE] == RoleTemplate(TEMPLATE, "admin", [], [])
  }

  /** The store after the arrivals. */
  predicate Arrived(s: Store) {
    && s.requests == map[0 := Asked(0, 2), 1 := Asked(1, 3)] && s.next == 2 && s.now == 0
    && Furnished(s) && RolesAt(s, PROJECT) == []
  }

  lemma StartIsInitial()
    ensures Runs.Initial(Start())
  {
  }

  lemma {:induction false} InterfereThen(w: World, events: seq<Event>, e: Event)
    ensures Interfere(w, events + [e]) == After(Interfere(w, events), e)
    decreases |events|
  {
    if events == [] {
      assert [] + [e] == [e] && [e][1..] == [];
    } else {
      assert (events + [e])[0] == events[0] && (events + [e])[1..] == events[1..] + [e];
      InterfereThen(After(w, events[0]), events[1..], e);
    }
  }

  /** The world with the application, the project and the template, and nothing asked. */
  lemma {:induction false} AfterSetup()
    ensures var w := Interfere(Start(), Setup());
      && Furnished(w.store) && w.ev.clean && w.cfg == Start().cfg
      && w.store.requests == map[] && RolesAt(w.store, PROJECT) == []
      && w.store.next == 0 && w.store.now == 0 && w.store.rev == 1
  {
    var a, b := [SetApp(APP, "default")], [SetProject(PROJECT, [])];
    assert a == [] + a;
    InterfereThen(Start(), [], SetApp(APP, "default"));
    InterfereThen(Start(), a, SetProject(PROJECT, []));
    InterfereThen(Start(), a + b, SetTemplate(RoleTemplate(TEMPLATE, "admin", [], [])));
  }

  lemma AfterAsking(w: World)
    requires Furnished(w.store) && w.store.now == 0
    ensures var x := After(w, ASK);
      && x.store.requests == w.store.requests[w.store.next := Asked(w.store.next, w.store.rev + 1)]
      && x.store.next == w.store.next + 1 && x.store.rev == w.store.rev + 1 && x.store.now == 0
      && x.store.projects == w.store.projects
      && Furnished(x.store) && x.ev.clean == w.ev.clean && x.cfg == w.cfg
  {
  }

  lemma {:induction false} AfterAskingTwice(w: World, setup: seq<Event>)
    requires var x := Interfere(w, setup);
      && Furnished(x.store) && x.store.requests == map[] && RolesAt(x.store, PROJECT) == []
      && x.store.next == 0 && x.store.now == 0 && x.store.rev == 1
    ensures var x, y := Interfere(w, setup), Interfere(w, setup + [ASK] + [ASK]);
      Arrived(y.store) && y.ev.clean == x.ev.clean && y.cfg == x.cfg
  {
    InterfereThen(w, setup, ASK);
    InterfereThen(w, setup + [ASK], ASK);
    AfterAsking(Interfere(w, setup));
    AfterAsking(Interfere(w, setup + [ASK]));
  }

  lemma {:induction false} AfterArrivals()
    ensures var w := Runs.Perform(Start(), Runs.Act(Arrivals()));
      Arrived(w.store) && w.ev.clean && w.cfg == Start().cfg
  {
    AfterSetup();
    AfterAskingTwice(Start(), Setup());
  }

  // ---------------------------------------------------------------- visits with one reply

  lemma FurnishedReady(s: Store, ar: Request)
    requires Furnished(s) && ar.id in s.requests && s.requests[ar.id] == ar && ar.ns == "argocd" && ar.spec == SPEC
    ensures ReadyFor(s, ar, "default", RENDERED)
  {
    assert Render(s.templates[TEMPLATE], "default", APP) == Ok(RENDERED);
  }

  /** No sibling is in flight or newer. */
  predicate NoneAhead(s: Store, ar: Request) {
    forall id :: id in s.requests && id != ar.id && SameAsk(ar, s.requests[id]) ==>
      !InFlight(s.requests[id].status.state) && s.requests[id].created <= ar.created
  }

  lemma NoneAheadUnopposed(s: Store, ar: Request)
    requires Keyed(s) && NoneAhead(s, ar)
    ensures Unopposed(s, ar)
  {
    ConflictFound(Siblings(s, ar.ns, ar.spec.user, ar.spec.app), ar);
    ListedFrom(s, 0, ar.ns, ar.spec.user, ar.spec.app);
  }

  /** A visit in which nobody acts keeps the run clean and furnished and the other request as it was. */
  lemma QuietVisit(w: World, id: nat, reply: PluginReply)
    requires Sound(w) && Furnished(w.store)
    ensures var x := Runs.Perform(w, Runs.Visit(id, Replies(reply)));
      && Sound(x) && x.cfg == w.cfg && x.ev.clean == w.ev.clean && Furnished(x.store) && x.store.now == w.store.now
      && x.store.next == w.store.next && x.store.requests - {id} == w.store.requests - {id}
      && Still(x)
  {
    StoreFine(w);
    Runs.PerformSound(w, Runs.Visit(id, Replies(reply)));
    ReconcileFollows(w.(script := Replies(reply)), id);
  }

  // ---------------------------------------------------------------- the hazard

  lemma InterruptedFirst(w: World)
    requires Sound(w) && Arrived(w.store) && w.cfg.plugin
    ensures var t := Reconcile.Reconcile(w.(script := Replies(CallFailed)), 0).w.store;
      && 0 in t.requests && t.projects == w.store.projects
      && t.requests[0] == Asked(0, t.requests[0].version).(
                            status := Initialised(Asked(0, 2), "default", RENDERED, 0), finalizer := true)
  {
    var v := w.(script := Replies(CallFailed));
    StoreFine(w);
    FurnishedReady(w.store, Asked(0, 2));
    NoneAheadUnopposed(w.store, Asked(0, 2));
    assert Calm(v, 12, CallFailed);
    InterruptedVisit(v, CallFailed, Asked(0, 2), "default", RENDERED);
  }

  /** The first request is left initiated, the second as it arrived. */
  predicate HalfWay(s: Store) {
    && Furnished(s) && s.next == 2 && s.now == 0 && s.requests.Keys == {0, 1} && s.requests[1] == Asked(1, 3)
    && RolesAt(s, PROJECT) == []
    && s.requests[0] == Asked(0, s.requests[0].version).(
                          status := Initialised(Asked(0, 2), "default", RENDERED, 0), finalizer := true)
  }

  lemma OthersKept(a: map<nat, Request>, b: map<nat, Request>, id: nat, other: nat)
    requires a - {id} == b - {id} && other in a && other != id
    ensures other in b && b[other] == a[other]
  {
    assert other in a - {id};
  }

  lemma KeysKept(a: map<nat, Request>, b: map<nat, Request>, id: nat)
    requires a - {id} == b - {id} && id in a && id in b
    ensures a.Keys == b.Keys
  {
    assert a.Keys == (a - {id}).Keys + {id} && b.Keys == (b - {id}).Keys + {id};
  }

  lemma HalfWayFrom(s: Store, t: Store)
    requires Arrived(s) && Furnished(t) && t.now == s.now && t.next == s.next && t.requests - {0} == s.requests - {0}
    requires 0 in t.requests && t.projects == s.projects
    requires t.requests[0] == Asked(0, t.requests[0].version).(
                                status := Initialised(Asked(0, 2), "default", RENDERED, 0), finalizer := true)
    ensures HalfWay(t)
  {
    OthersKept(s.requests, t.requests, 0, 1);
    KeysKept(s.requests, t.requests, 0);
  }

  lemma FirstIsInitiated(w: World)
    requires Sound(w) && Arrived(w.store) && w.cfg.plugin
    ensures HalfWay(Runs.Perform(w, Runs.Visit(0, Replies(CallFailed))).store)
  {
    InterruptedFirst(w);
    QuietVisit(w, 0, CallFailed);
    HalfWayFrom(w.store, Runs.Perform(w, Runs.Visit(0, Replies(CallFailed))).store);
  }

  lemma GrantedSecond(w: World)
    requires Sound(w) && HalfWay(w.store) && w.cfg.plugin && w.cfg.timeout >= 0
    ensures Welcomed(w.store, Reconcile.Reconcile(w.(script := Replies(YES)), 1).w.store, Asked(1, 3),
                     "default", RENDERED, Granted, "")
  {
    var v := w.(script := Replies(YES));
    StoreFine(w);
    FurnishedReady(w.store, Asked(1, 3));
    NoneAheadUnopposed(w.store, Asked(1, 3));
    assert Calm(v, 12, YES);
    FirstVisit(v, YES, Asked(1, 3), "default", RENDERED);
  }

  /** The second request is as its grant has left it. */
  predicate SecondGranted(s: Store) {
    && 1 in s.requests
    && s.requests[1] == Asked(1, s.requests[1].version).(
                          status := FirstStatus(Asked(1, 3), "default", RENDERED, Granted, "", 0), finalizer := true)
  }

  /** The first request is initiated, the second granted. */
  predicate OneGranted(s: Store) {
    && Furnished(s) && s.next == 2 && SecondGranted(s)
    && 0 in s.requests && s.requests[0] == Asked(0, s.requests[0].version).(
                            status := Initialised(Asked(0, 2), "default", RENDERED, 0), finalizer := true)
  }

  lemma SecondIsGranted(w: World)
    requires Sound(w) && HalfWay(w.store) && w.cfg.plugin && w.cfg.timeout >= 0
    ensures OneGranted(Runs.Perform(w, Runs.Visit(1, Replies(YES))).store)
  {
    GrantedSecond(w);
    QuietVisit(w, 1, YES);
    var x := Runs.Perform(w, Runs.Visit(1, Replies(YES)));
    OthersKept(w.store.requests, x.store.requests, 1, 0);
    StoreFine(x);
    assert RequestOk(x.store, x.store.requests[1]);
  }

  /** The two requests ask for the same. */
  lemma SameAsks(w: World, x: World)
    requires Continues(w, x, {1}) && HalfWay(w.store) && OneGranted(x.store)
    ensures Rival(x.store, 0, 1)
  {
    assert SameIdentity(w.store.requests[1], x.store.requests[1]);
  }

  lemma ThreeOps(w: World, p: Runs.Op, q: Runs.Op, r: Runs.Op)
    ensures Runs.Run(w, [p, q, r]) == Runs.Perform(Runs.Perform(Runs.Perform(w, p), q), r)
  {
    var ops := [p, q, r];
    var a := Runs.Perform(w, p);
    var b := Runs.Perform(a, q);
    var c := Runs.Perform(b, r);
    assert ops[1..] == [q, r] && [q, r][1..] == [r] && [r][1..] == [];
    assert Runs.Run(c, []) == c;
    assert Runs.Run(b, [r]) == c;
    assert Runs.Run(a, [q, r]) == c;
  }

  lemma ArrivalStep(a: World)
    requires a == Runs.Perform(Start(), Runs.Act(Arrivals()))
    ensures Sound(a) && Arrived(a.store) && a.ev.clean && a.cfg == Start().cfg
  {
    StartIsInitial();
    Runs.InitialSound(Start());
    Runs.PerformSound(Start(), Runs.Act(Arrivals()));
    AfterArrivals();
  }

  lemma FirstStep(a: World, b: World)
    requires Sound(a) && Arrived(a.store) && a.cfg.plugin && b == Runs.Perform(a, Runs.Visit(0, Replies(CallFailed)))
    ensures Sound(b) && HalfWay(b.store) && b.ev.clean == a.ev.clean && b.cfg == a.cfg
  {
    FirstIsInitiated(a);
    QuietVisit(a, 0, CallFailed);
  }

  lemma SecondStep(b: World, c: World)
    requires Sound(b) && HalfWay(b.store) && b.cfg.plugin && b.cfg.timeout >= 0
    requires c == Runs.Perform(b, Runs.Visit(1, Replies(YES)))
    ensures Sound(c) && OneGranted(c.store) && c.ev.clean == b.ev.clean && c.cfg == b.cfg && Rival(c.store, 0, 1)
  {
    SecondIsGranted(b);
    QuietVisit(b, 1, YES);
    Runs.PerformSound(b, Runs.Visit(1, Replies(YES)));
    SameAsks(b, c);
  }

  lemma OpeningSteps() returns (a: World, b: World, c: World)
    ensures a == Runs.Perform(Start(), Runs.Act(Arrivals()))
    ensures b == Runs.Perform(a, Runs.Visit(0, Replies(CallFailed)))
    ensures c == Runs.Perform(b, Runs.Visit(1, Replies(YES)))
    ensures Sound(c) && c.ev.clean && c.cfg == Start().cfg && Rival(c.store, 0, 1) && OneGranted(c.store)
  {
    a := Runs.Perform(Start(), Runs.Act(Arrivals()));
    b := Runs.Perform(a, Runs.Visit(0, Replies(CallFailed)));
    c := Runs.Perform(b, Runs.Visit(1, Replies(YES)));
    ArrivalStep(a);
    FirstStep(a, b);
    SecondStep(b, c);
  }

  lemma OneGrantedIsHazard(s: Store)
    requires OneGranted(s) && Rival(s, 0, 1)
    ensures Hazard(s, 0)
  {
  }

  /** A clean run from the start reaches the hazard: a first request left initiated by a failing
      plugin, and a second one for the same role granted meanwhile. */
  lemma HazardIsReachable() returns (start: World, ops: seq<Runs.Op>, w: World)
    ensures Runs.Initial(start) && w == Runs.Run(start, ops)
    ensures Sound(w) && w.ev.clean && Hazard(w.store, 0)
    ensures w.cfg == Start().cfg && Rival(w.store, 0, 1) && OneGranted(w.store)
  {
    start := Start();
    StartIsInitial();
    var a, b, c := OpeningSteps();
    var p, q, r := Runs.Act(Arrivals()), Runs.Visit(0, Replies(CallFailed)), Runs.Visit(1, Replies(YES));
    ThreeOps(start, p, q, r);
    ops, w := [p, q, r], c;
    OneGrantedIsHazard(c.store);
  }

  // ---------------------------------------------------------------- two grants, and a stranded user

  lemma OneGrantedPoised(s: Store)
    requires OneGranted(s) && Rival(s, 0, 1)
    ensures Poised(s, s.requests[0], "default", RENDERED, 1)
  {
    FurnishedReady(s, s.requests[0]);
  }

  lemma GrantedFirst(w: World)
    requires Sound(w) && OneGranted(w.store) && Rival(w.store, 0, 1)
    ensures Lands(w.store, Reconcile.Reconcile(w.(script := Replies(YES)), 0).w.store, w.store.requests[0],
                  "default", RENDERED)
  {
    var v := w.(script := Replies(YES));
    StoreFine(w);
    OneGrantedPoised(w.store);
    assert Calm(v, 12, YES);
    CalmPause(v, 12, YES);
    CalmCopy(Next(v), 11, w.store.requests[0], "default", RENDERED, 1);
    assert Reconcile.Reconcile(v, 0) == FromCopy(Next(v), w.store.requests[0]);
  }

  /** Both requests are granted, and their user is in the role. */
  predicate BothGranted(s: Store) {
    && Furnished(s) && Rival(s, 0, 1) && StateIn(s, 0, {Granted}) && SecondGranted(s)
    && Member(RolesAt(s, PROJECT), RoleName("admin", APP), "alice")
    && var ar := s.requests[0];
       && !ar.deleting && ar.ns == "argocd" && ar.status.target == "default"
       && ar.spec.app == APP && ar.spec.template == TEMPLATE && ar.spec.user == "alice"
  }

  lemma BothFromOne(s: Store, t: Store)
    requires OneGranted(s) && Rival(s, 0, 1) && Kept(s, t, {0}) && t.requests - {0} == s.requests - {0}
    requires Furnished(t) && Lands(s, t, s.requests[0], "default", RENDERED)
    ensures BothGranted(t)
  {
    OthersKept(s.requests, t.requests, 0, 1);
    assert SameIdentity(s.requests[0], t.requests[0]);
    assert PROJECT == Ref("argocd", "default");
  }

  lemma ThirdStep(c: World, d: World)
    requires Sound(c) && OneGranted(c.store) && Rival(c.store, 0, 1)
    requires d == Runs.Perform(c, Runs.Visit(0, Replies(YES)))
    ensures Sound(d) && d.ev.clean == c.ev.clean && d.cfg == c.cfg && BothGranted(d.store)
  {
    GrantedFirst(c);
    QuietVisit(c, 0, YES);
    Runs.PerformSound(c, Runs.Visit(0, Replies(YES)));
    BothFromOne(c.store, d.store);
  }

  lemma RunThen(w: World, ops: seq<Runs.Op>, op: Runs.Op)
    ensures Runs.Run(w, ops + [op]) == Runs.Perform(Runs.Run(w, ops), op)
    decreases |ops|
  {
    if ops == [] {
      assert [] + [op] == [op] && [op][1..] == [];
    } else {
      assert (ops + [op])[0] == ops[0] && (ops + [op])[1..] == ops[1..] + [op];
      RunThen(Runs.Perform(w, ops[0]), ops[1..], op);
    }
  }

  /** From there one more visit gives two granted requests for the same role: a granted request with
      a rival is reachable in a clean run from the start. */
  lemma GrantedRivalIsReachable() returns (start: World, ops: seq<Runs.Op>, w: World)
    ensures Runs.Initial(start) && w == Runs.Run(start, ops)
    ensures Sound(w) && w.ev.clean && w.cfg == Start().cfg && BothGranted(w.store)
  {
    var before, c;
    start, before, c := HazardIsReachable();
    w := Runs.Perform(c, Runs.Visit(0, Replies(YES)));
    ThirdStep(c, w);
    ops := before + [Runs.Visit(0, Replies(YES))];
    RunThen(start, before, Runs.Visit(0, Replies(YES)));
  }

  lemma BothGrantedHolds(w: World)
    requires Sound(w) && w.ev.clean && BothGranted(w.store) && w.cfg.names == map[TEMPLATE := "admin"]
    ensures var ar := w.store.requests[0];
      ar.id == 0 && ar.finalizer && Holds(w.(script := Replies(CallFailed)), ar) && Keyed(w.store)
  {
    StoreFine(w);
    var ar := w.store.requests[0];
    assert RequestOk(w.store, ar) && NamedRole(w.cfg.names, ar);
    HoldsInRun(w, 0, Replies(CallFailed));
  }

  lemma BothGrantedOpposed(cfg: Config, s: Store)
    requires StoreOk(s) && BothGranted(s) && cfg.plugin
    ensures SmoothlyStrands(cfg, s, s.requests[0], CallFailed)
  {
    RivalFound(s, s.requests[0], 1);
  }

  lemma BothGrantedStrands(w: World)
    requires Sound(w) && w.ev.clean && BothGranted(w.store) && w.cfg == Start().cfg
    ensures Stranded(Runs.Perform(w, Runs.Visit(0, Replies(CallFailed))).store, w.store.requests[0])
  {
    var v := w.(script := Replies(CallFailed));
    StoreFine(w);
    BothGrantedHolds(w);
    BothGrantedOpposed(w.cfg, w.store);
    assert Calm(v, 10, CallFailed);
    SmoothStrandedIff(v, CallFailed, w.store.requests[0]);
  }

  lemma StrandedStays(w: World, x: World, ar: Request)
    requires Sound(w) && Sound(x) && Continues(w, x, {ar.id}) && Stranded(x.store, ar)
    requires ar.id in w.store.requests && w.store.requests[ar.id] == ar && ar.status.state != Empty
    ensures !Removed(x.store, x.store.requests[ar.id])
  {
    Runs.AssignmentKept(w, x, {ar.id}, ar.id);
  }

  /** And one more strands the user: a request that was granted, with its user in the role, is
      concluded, never to be reconciled again, with its user still in the role, and all of that in a
      clean run from the start. */
  lemma StrandedIsReachable()
      returns (start: World, init: seq<Runs.Op>, before: World, ops: seq<Runs.Op>, w: World, ar: Request)
    ensures Runs.Initial(start) && before == Runs.Run(start, init) && w == Runs.Run(start, ops)
    ensures Sound(before) && BothGranted(before.store) && before.store.requests[0] == ar
    ensures ar.id == 0 && !Removed(before.store, ar)
    ensures Sound(w) && w.ev.clean && Stranded(w.store, ar) && !Removed(w.store, w.store.requests[0])
  {
    var visit := Runs.Visit(0, Replies(CallFailed));
    start, init, before := GrantedRivalIsReachable();
    ar := before.store.requests[0];
    BothGrantedHolds(before);
    BothGrantedStrands(before);
    ops, w := init + [visit], Runs.Perform(before, visit);
    RunThen(start, init, visit);
    QuietVisit(before, 0, CallFailed);
    Runs.PerformSound(before, visit);
    StrandedStays(before, w, ar);
  }

  // ---------------------------------------------------------------- a dispossessed one

  lemma SecondDeleted(w: World, x: World)
    requires BothGranted(w.store) && w.ev.clean && x == Interfere(w, [DeleteRequest(1)])
    ensures x.ev.clean && x.store.(rev := w.store.rev, requests := w.store.requests) == w.store
    ensures 0 in x.store.requests && x.store.requests[0] == w.store.requests[0]
    ensures 1 in x.store.requests && x.store.requests[1].deleting
    ensures x.store.requests[1] == w.store.requests[1].(deleting := true, version := x.store.requests[1].version)
  {
    assert [DeleteRequest(1)] == [] + [DeleteRequest(1)];
    InterfereThen(w, [], DeleteRequest(1));
  }

  /** The first request is granted with its user in the role, the second marked for deletion. */
  predicate SecondGoes(s: Store) {
    && Furnished(s) && 0 in s.requests && 1 in s.requests && s.requests[1].deleting
    && s.requests[1] == Asked(1, s.requests[1].version).(
                          status := FirstStatus(Asked(1, 3), "default", RENDERED, Granted, "", 0),
                          finalizer := true, deleting := true)
    && var ar := s.requests[0];
       && ar.id == 0 && ar.status.state == Granted && ar.ns == "argocd" && ar.status.target == "default"
       && ar.status.roleName == RoleName("admin", APP) && ar.spec.user == "alice" && !Removed(s, ar)
  }

  lemma BothGrantedRole(w: World)
    requires Sound(w) && w.ev.clean && BothGranted(w.store) && w.cfg == Start().cfg
    ensures var ar := w.store.requests[0];
      ar.id == 0 && ar.status.roleName == RoleName("admin", APP) && !Removed(w.store, ar)
  {
    StoreFine(w);
    assert NamedRole(w.cfg.names, w.store.requests[0]);
  }

  lemma SecondLeaves(w: World, x: World)
    requires Sound(w) && w.ev.clean && BothGranted(w.store) && w.cfg == Start().cfg
    requires x == Runs.Perform(w, Runs.Act([DeleteRequest(1)]))
    ensures SecondGoes(x.store) && x.ev.clean
  {
    BothGrantedRole(w);
    SecondDeleted(w, x);
  }

  lemma SecondGoesAway(w: World)
    requires Sound(w) && SecondGoes(w.store)
    ensures var t := Runs.Perform(w, Runs.Visit(1, Replies(YES))).store;
      0 in t.requests && t.requests[0] == w.store.requests[0] && Removed(t, t.requests[0])
  {
    var v := w.(script := Replies(YES));
    StoreFine(w);
    assert Calm(v, 13, YES);
    assert Render(w.store.templates[TEMPLATE], "default", APP) == Ok(RENDERED);
    DispossessedIff(v, YES, w.store.requests[0], w.store.requests[1]);
  }

  /** Deleting one of the two requests takes the user out of the role while the other stays granted. */
  lemma DispossessedIsReachable() returns (start: World, init: seq<Runs.Op>, before: World, ar: Request)
    ensures Runs.Initial(start) && before == Runs.Run(start, init) && Sound(before) && before.ev.clean
    ensures 0 in before.store.requests && ar == before.store.requests[0]
    ensures ar.status.state == Granted && !Removed(before.store, ar)
    ensures var t := Runs.Run(start, init + [Runs.Visit(1, Replies(YES))]).store;
      0 in t.requests && t.requests[0] == ar && Removed(t, ar)
  {
    var ops, w;
    start, ops, w := GrantedRivalIsReachable();
    var drop := Runs.Act([DeleteRequest(1)]);
    before, init := Runs.Perform(w, drop), ops + [drop];
    RunThen(start, ops, drop);
    Runs.PerformSound(w, drop);
    SecondLeaves(w, before);
    ar := before.store.requests[0];
    SecondGoesAway(before);
    RunThen(start, init, Runs.Visit(1, Replies(YES)));
  }
}
