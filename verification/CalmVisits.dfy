/** What one reconciliation accomplishes when nobody interferes and every call succeeds: the
    decision of the plugin is carried out, expired access is taken away, a drifted role is
    repaired, a deleted request goes with its membership. */
module CalmVisits {
  import opened Prelude
  import opened Templates
  import opened Roles
  import opened Requests
  import opened Cluster
  import opened Permission
  import opened Reconcile
  import opened Safety
  import opened FinalizerSafety
  import opened OneInFlight
  import opened CalmRuns

  function RoleOf(ar: Request, rt: Rendered): string {
    RoleName(rt.name, ar.spec.app)
  }

  /** The stores differ at most in the roles of that project, which are now these. */
  predicate OnlyRoles(s: Store, t: Store, key: Ref, roles: seq<ProjectRole>) {
    && t.(rev := s.rev, projects := s.projects) == s
    && key in s.projects && key in t.projects && t.projects[key].roles == roles
    && t.projects - {key} == s.projects - {key}
  }

  /** An edit of the project is made, unless a sync finds nothing to do. */
  lemma CalmEdit(w: World, n: nat, reply: PluginReply, ar: Request, edit: Edit, rt: Rendered)
    requires Calm(w, n, reply) && n >= 2 && ProjectKey(ar) in w.store.projects
    ensures var (w1, err) := EditProject(w, ar, edit, Some(rt), ATTEMPTS);
      var roles := w.store.projects[ProjectKey(ar)].roles;
      && err.None? && Calm(w1, n - 2, reply)
      && OnlyRoles(w.store, w1.store, ProjectKey(ar),
                   if Skips(edit, roles, ar, rt) then roles else Edited(edit, roles, ar, rt))
  {
    CalmPause(w, n, reply);
    CalmPause(Next(w), n - 1, reply);
    var key := ProjectKey(ar);
    var w1 := EditProject(w, ar, edit, Some(rt), ATTEMPTS).0;
    assert w1.store.projects - {key} == w.store.projects - {key};
  }

  /** The status an update leaves: the one there was when it is up to date already. */
  function Updated(status: Status, duration: int, state: State, message: string, hash: Hash, now: int): Status {
    if UpToDate(status, state, message, hash) then status
    else Recorded(status, duration, state, message, now).(hash := hash)
  }

  /** A status is recorded; when it already is, nothing is written. */
  lemma CalmRecord(w: World, n: nat, reply: PluginReply, ar: Request, state: State, message: string, hash: Hash)
    requires Calm(w, n, reply) && n > 0
    requires ar.id in w.store.requests && w.store.requests[ar.id] == ar
    ensures var step := UpdateStatus(w, ar, state, message, hash);
      && step.err.None? && ar.id in step.w.store.requests && step.w.store.requests[ar.id] == step.ar
      && step.ar == ar.(status := Updated(ar.status, ar.spec.duration, state, message, hash, w.store.now),
                        version := step.ar.version)
      && step.w.store.projects == w.store.projects && step.w.store.now == w.store.now && step.w.cfg == w.cfg
      && step.w.store.requests.Keys == w.store.requests.Keys
  {
    if !UpToDate(ar.status, state, message, hash) {
      CalmPutStatus(w, n, reply, ar, Recorded(ar.status, ar.spec.duration, state, message, w.store.now).(hash := hash));
    }
  }

  /** The request is stored in that state and with that hash, otherwise as it was but for its version and
      history, and unless it was in that state before its last entry says so, now and with that message. */
  predicate EndsAs(s: Store, ar: Request, state: State, message: string, hash: Hash, now: int) {
    && ar.id in s.requests
    && var r := s.requests[ar.id];
       && r == ar.(version := r.version,
                   status := ar.status.(state := state, hash := hash, history := r.status.history))
       && (ar.status.state != state ==>
             && r.status.history != []
             && Last(r.status.history) == Entry(now, state, if message == "" then None else Some(message)))
  }

  lemma CalmEnds(w: World, n: nat, reply: PluginReply, ar: Request, state: State, message: string, hash: Hash)
    requires Calm(w, n, reply) && n > 0 && state != Granted
    requires ar.id in w.store.requests && w.store.requests[ar.id] == ar
    ensures var step := UpdateStatus(w, ar, state, message, hash);
      && step.err.None? && step.ar.status.state == state
      && EndsAs(step.w.store, ar, state, message, hash, w.store.now)
      && step.w.store.projects == w.store.projects && step.w.store.now == w.store.now
  {
    CalmRecord(w, n, reply, ar, state, message, hash);
  }

  // ---------------------------------------------------------------- the plugin's answer

  /** The state an initialised request ends in. An undeclared status counts as leave. */
  function AnswerState(status: PluginStatus): State {
    match status
    case PluginDenied => Denied
    case PluginPending => Requested
    case _ => Granted
  }

  /** The state has been recorded with the message, and the user added to the role exactly when the
      state is granted; no other project and no other role has changed. */
  predicate CarriedOut(s: Store, t: Store, ar: Request, rt: Rendered, state: State, message: string) {
    && ar.id in t.requests && t.requests.Keys == s.requests.Keys
    && t.requests[ar.id] == ar.(status := Updated(ar.status, ar.spec.duration, state, message, HashOf(rt), s.now),
                                version := t.requests[ar.id].version)
    && ProjectKey(ar) in s.projects && ProjectKey(ar) in t.projects
    && t.projects - {ProjectKey(ar)} == s.projects - {ProjectKey(ar)}
    && t.projects[ProjectKey(ar)].roles ==
       if state == Granted then GrantEdit(s.projects[ProjectKey(ar)].roles, RoleOf(ar, rt), ar.spec.user, rt)
       else s.projects[ProjectKey(ar)].roles
  }

  predicate Decided(w: World, flow: Flow<State>, ar: Request, rt: Rendered, state: State, message: string) {
    && flow.result == Ok(state) && CarriedOut(w.store, flow.w.store, ar, rt, state, message)
    && flow.w.store.now == w.store.now && flow.w.cfg == w.cfg
    && flow.w.store.requests[ar.id] == flow.ar
  }

  /** An initialised request that is not granted, be it one its conflict check has just marked. */
  predicate Undecided(ar: Request) {
    ar.status.state in {Initiated, Requested, Invalid}
  }

  lemma CalmGrant(w: World, n: nat, reply: PluginReply, ar: Request, rt: Rendered, message: string)
    requires Calm(w, n, reply) && n >= 3 && Ready(w.store, ar, rt) && Undecided(ar)
    ensures Decided(w, Grant(w, ar, rt, message), ar, rt, Granted, message)
  {
    CalmEdit(w, n, reply, ar, GrantAccess, rt);
    var w1 := EditProject(w, ar, GrantAccess, Some(rt), ATTEMPTS).0;
    CalmRecord(w1, n - 2, reply, ar, Granted, message, HashOf(rt));
    assert Grant(w, ar, rt, message).w == UpdateStatus(w1, ar, Granted, message, HashOf(rt)).w;
  }

  lemma CalmFollow(w: World, n: nat, reply: PluginReply, ar: Request, rt: Rendered,
                   status: PluginStatus, message: string)
    requires Calm(w, n, reply) && n >= 3 && Ready(w.store, ar, rt) && Undecided(ar)
    ensures Decided(w, Follow(w, ar, rt, Decision(status == PluginGranted, status, message)), ar, rt,
                    AnswerState(status), message)
  {
    match status
    case PluginDenied => CalmRecord(w, n, reply, ar, Denied, message, HashOf(rt));
    case PluginPending => CalmRecord(w, n, reply, ar, Requested, message, HashOf(rt));
    case _ => CalmGrant(w, n, reply, ar, rt, message);
  }

  /** A grant that fails, however disturbed, is recorded: as invalid when the project is gone, else as denied,
      with the error as its message. */
  lemma FailedGrantIsRecorded(w: World, n: nat, reply: PluginReply, ar: Request, rt: Rendered, message: string)
    requires var (x, err) := EditProject(w, ar, GrantAccess, Some(rt), ATTEMPTS);
      err.Some? && Calm(x, n, reply) && n >= 1 && ar.id in x.store.requests && x.store.requests[ar.id] == ar
    ensures var (x, err) := EditProject(w, ar, GrantAccess, Some(rt), ATTEMPTS);
      var flow := Grant(w, ar, rt, message);
      var state := if err == Some(NotFound) then Invalid else Denied;
      var reason := if err == Some(NotFound) then "project not found" else if err == Some(Conflict) then "conflict"
                    else "failed";
      && flow.result == Ok(state) && flow.w.store.projects == x.store.projects
      && if ar.status.state == state then flow.w == x
         else EndsAs(flow.w.store, ar, state, "Error granting Argo CD Access: " + reason, HashOf(rt), x.store.now)
  {
    var (x, err) := EditProject(w, ar, GrantAccess, Some(rt), ATTEMPTS);
    var state := if err == Some(NotFound) then Invalid else Denied;
    CalmEnds(x, n, reply, ar, state, "Error granting Argo CD Access: " + ErrorText(err.value), HashOf(rt));
  }

  /** The state the plugin's reply leads to, or, without a plugin, granted. */
  function Verdict(cfg: Config, reply: PluginReply): State {
    if cfg.plugin && reply.Answer? then AnswerState(reply.status) else Granted
  }

  function VerdictMessage(cfg: Config, reply: PluginReply): string {
    if cfg.plugin && reply.Answer? then reply.message else ""
  }

  /** The answer decides: an undecided request is recorded as denied or requested exactly on those
      two answers and as granted, its user being added to the role, on every other one, declared
      or not, and when there is no plugin. */
  lemma AnswerDecides(w: World, n: nat, reply: PluginReply, ar: Request, rt: Rendered)
    requires Calm(w, n, reply) && n >= 4 && (w.cfg.plugin ==> reply.Answer?)
    requires Ready(w.store, ar, rt) && Undecided(ar)
    ensures Decided(w, Decide(w, ar, rt), ar, rt, Verdict(w.cfg, reply), VerdictMessage(w.cfg, reply))
  {
    if w.cfg.plugin {
      CalmPause(w, n, reply);
      var w1 := NoteAnswer(Next(w), ar.id, reply.status);
      assert Allowed(w, ar) == (w1, Ok(Decision(reply.status == PluginGranted, reply.status, reply.message)));
      CalmFollow(w1, n - 1, reply, ar, rt, reply.status, reply.message);
    } else {
      CalmGrant(w, n, reply, ar, rt, "");
    }
  }

  /** Only an initiated or requested request can still time out. */
  lemma FinishKeeps(w: World, ar: Request, state: State)
    requires ar.status.state !in {Initiated, Requested}
    ensures Finish(w, ar, state).w == w
  {
  }

  // ---------------------------------------------------------------- a first visit

  /** Its own entry in the list does not matter to a request's conflict check. */
  lemma {:induction false} OwnEntryIgnored(s: Store, t: Store, from: nat, ar: Request, copy: Request)
    requires StoreOk(s) && ar.id in s.requests && s.requests[ar.id] == ar && SameIdentity(ar, copy)
    requires t.next == s.next && t.requests == s.requests[ar.id := copy]
    ensures ValidateConflict(Listed(t, from, ar.ns, ar.spec.user, ar.spec.app), copy)
         == ValidateConflict(Listed(s, from, ar.ns, ar.spec.user, ar.spec.app), ar)
    decreases s.next - from
  {
    if from < s.next {
      OwnEntryIgnored(s, t, from + 1, ar, copy);
      var before := Listed(s, from + 1, ar.ns, ar.spec.user, ar.spec.app);
      var after := Listed(t, from + 1, ar.ns, ar.spec.user, ar.spec.app);
      if from in s.requests {
        assert ([s.requests[from]] + before)[1..] == before;
        assert ([t.requests[from]] + after)[1..] == after;
      }
    }
  }

  /** A request nobody stands in the way of. */
  predicate Unopposed(s: Store, ar: Request) {
    ValidateConflict(Siblings(s, ar.ns, ar.spec.user, ar.spec.app), ar).None?
  }

  /** Another stored request for the same role, application and user is requested or granted, or is not
      initialised yet and was created later. */
  predicate StandsInTheWay(s: Store, ar: Request, id: nat) {
    && id in s.requests && id != ar.id
    && var r := s.requests[id];
       && r.ns == ar.ns && r.spec.user == ar.spec.user && r.spec.app == ar.spec.app
       && r.spec.template == ar.spec.template
       && (r.status.state == Requested || r.status.state == Granted
           || (r.status.state == Empty && r.created > ar.created))
  }

  /** Nobody stands in the way exactly when part of the key is empty, so that nobody can be found by it, or
      no stored request does. */
  lemma UnopposedIff(s: Store, ar: Request)
    requires StoreOk(s)
    ensures Unopposed(s, ar) <==>
              || ar.spec.user == "" || ar.spec.app.name == "" || ar.spec.app.ns == ""
              || forall id :: !StandsInTheWay(s, ar, id)
  {
    var list := Siblings(s, ar.ns, ar.spec.user, ar.spec.app);
    ConflictFound(list, ar);
    forall r ensures r in list <==> Indexed(s, ar.ns, ar.spec.user, ar.spec.app, r) {
      SiblingsHold(s, ar.ns, ar.spec.user, ar.spec.app, r);
    }
    if i :| 0 <= i < |list| && Conflicts(list[i], ar) {
      assert list[i] in list;
      assert StandsInTheWay(s, ar, list[i].id);
    }
    if ar.spec.user != "" && ar.spec.app.name != "" && ar.spec.app.ns != "" {
      if id :| StandsInTheWay(s, ar, id) {
        assert s.requests[id] in list;
      }
    }
  }

  lemma {:induction false} FirstConflict(list: seq<Request>, ar: Request)
    requires ValidateConflict(list, ar).Some?
    ensures exists i :: 0 <= i < |list| && Conflicts(list[i], ar)
              && ValidateConflict(list, ar) == Some(ConflictMessage(list[i]))
  {
    if !Conflicts(list[0], ar) {
      FirstConflict(list[1..], ar);
      var i :| 0 <= i < |list[1..]| && Conflicts(list[1..][i], ar)
        && ValidateConflict(list[1..], ar) == Some(ConflictMessage(list[1..][i]));
      assert list[i + 1] == list[1..][i];
    }
  }

  /** The message is about a request that stands in the way. */
  ghost predicate Explains(s: Store, ar: Request, message: string) {
    exists id ::
      && StandsInTheWay(s, ar, id)
      && message == (match s.requests[id].status.state
                     case Granted => "found existing AccessRequest in granted state"
                     case Requested => "found existing AccessRequest in requested state"
                     case _ => "found older AccessRequest in progress")
  }

  lemma MessageExplains(s: Store, ar: Request, other: Request)
    requires StoreOk(s) && Conflicts(other, ar) && Indexed(s, ar.ns, ar.spec.user, ar.spec.app, other)
    ensures Explains(s, ar, ConflictMessage(other)) && ConflictMessage(other) != ""
  {
    assert StandsInTheWay(s, ar, other.id);
  }

  lemma ConflictExplained(s: Store, ar: Request) returns (message: string)
    requires StoreOk(s) && !Unopposed(s, ar)
    ensures ValidateConflict(Siblings(s, ar.ns, ar.spec.user, ar.spec.app), ar) == Some(message)
    ensures Explains(s, ar, message) && message != ""
  {
    var list := Siblings(s, ar.ns, ar.spec.user, ar.spec.app);
    FirstConflict(list, ar);
    var i :| 0 <= i < |list| && Conflicts(list[i], ar) && ValidateConflict(list, ar) == Some(ConflictMessage(list[i]));
    SiblingsHold(s, ar.ns, ar.spec.user, ar.spec.app, list[i]);
    MessageExplains(s, ar, list[i]);
    message := ConflictMessage(list[i]);
  }

  lemma ConflictMarked(w: World, n: nat, reply: PluginReply, ar: Request, message: string)
    requires Calm(w, n, reply) && n >= 2 && ar.id in w.store.requests && w.store.requests[ar.id] == ar
    requires ValidateConflict(Siblings(w.store, ar.ns, ar.spec.user, ar.spec.app), ar) == Some(message)
    ensures var step := HandleConflict(w, ar);
      && step.err.None? && step.w.store.projects == w.store.projects
      && EndsAs(step.w.store, ar, Invalid, message, ar.status.hash, w.store.now)
  {
    CalmPause(w, n, reply);
    var status := Recorded(ar.status, ar.spec.duration, Invalid, message, w.store.now);
    CalmPutStatus(NoteConflict(Next(w), ar), n - 1, reply, ar, status);
  }

  /** A request that somebody stands in the way of is marked invalid, with a message about one of those. */
  lemma ConflictIsRecorded(w: World, n: nat, reply: PluginReply, ar: Request) returns (message: string)
    requires Calm(w, n, reply) && n >= 2 && StoreOk(w.store) && !Unopposed(w.store, ar)
    requires ar.id in w.store.requests && w.store.requests[ar.id] == ar
    ensures var step := HandleConflict(w, ar);
      && Explains(w.store, ar, message)
      && step.err.None? && step.w.store.projects == w.store.projects
      && EndsAs(step.w.store, ar, Invalid, message, ar.status.hash, w.store.now)
  {
    message := ConflictExplained(w.store, ar);
    ConflictMarked(w, n, reply, ar, message);
  }

  /** The copy and the world after the finalizer was added undisturbed. */
  function Protected(w: World, ar: Request): (World, Request)
    requires |w.script| >= 2 && ar.id in w.store.requests
  {
    (Commit(Next(Next(w)), WithFinalizer(w.store, ar.id, true)), ar.(finalizer := true, version := w.store.rev + 1))
  }

  lemma AddsFinalizer(w: World, n: nat, reply: PluginReply, ar: Request)
    requires Calm(w, n, reply) && n >= 2 && ar.id in w.store.requests && w.store.requests[ar.id] == ar
    ensures var (x, copy) := Protected(w, ar);
      AddFinalizer(w, ar, ATTEMPTS) == Step(x, copy, None) && Calm(x, n - 2, reply)
  {
    CalmPause(w, n, reply);
    CalmPause(Next(w), n - 1, reply);
  }

  lemma CalmProtect(w: World, n: nat, reply: PluginReply, ar: Request, project: string, rt: Rendered)
    requires StoreOk(w.store) && Calm(w, n, reply) && n >= 2 && ReadyFor(w.store, ar, project, rt)
    requires Unopposed(w.store, ar)
    ensures var step := AddFinalizer(w, ar, ATTEMPTS);
      && step.err.None? && step.ar == ar.(finalizer := true, version := step.ar.version)
      && Calm(step.w, n - 2, reply) && ReadyFor(step.w.store, step.ar, project, rt) && Unopposed(step.w.store, step.ar)
      && step.w.store.projects == w.store.projects && step.w.store.now == w.store.now && step.w.cfg == w.cfg
  {
    AddsFinalizer(w, n, reply, ar);
    var (x, copy) := Protected(w, ar);
    OwnEntryIgnored(w.store, x.store, 0, ar, copy);
  }

  function Initialised(ar: Request, project: string, rt: Rendered, now: int): Status {
    Status(Initiated, project, None, HashOf(rt), RoleOf(ar, rt), [Entry(now, Initiated, None)])
  }

  lemma CalmInitialised(w: World, n: nat, reply: PluginReply, ar: Request, project: string, rt: Rendered)
    requires Calm(w, n, reply) && n >= 1 && ReadyFor(w.store, ar, project, rt) && ar.status == FRESH
    ensures var step := Initialise(w, ar, project, rt);
      && step.err.None? && Calm(step.w, n - 1, reply) && Ready(step.w.store, step.ar, rt)
      && step.ar == ar.(status := Initialised(ar, project, rt, w.store.now), version := step.ar.version)
      && step.w.store.requests.Keys == w.store.requests.Keys
      && step.w.store.projects == w.store.projects && step.w.store.now == w.store.now && step.w.cfg == w.cfg
  {
    var filled := ar.(status := FRESH.(target := project, roleName := RoleOf(ar, rt)));
    assert !UpToDate(filled.status, Initiated, "", HashOf(rt));
    var status := Recorded(filled.status, ar.spec.duration, Initiated, "", w.store.now).(hash := HashOf(rt));
    assert status == Initialised(ar, project, rt, w.store.now);
    CalmPutStatus(w, n, reply, ar, status);
    assert filled.(status := status) == ar.(status := status);
  }

  /** The status a first visit leaves. */
  function FirstStatus(ar: Request, project: string, rt: Rendered, state: State, message: string, now: int): Status {
    Status(state, project, if state == Granted then Some(now + ar.spec.duration) else None, HashOf(rt), RoleOf(ar, rt),
           [Entry(now, Initiated, None), Entry(now, state, DetailsOf(message))])
  }

  lemma FirstStatusRecorded(ar: Request, project: string, rt: Rendered, state: State, message: string, now: int)
    requires state != Initiated
    ensures Updated(Initialised(ar, project, rt, now), ar.spec.duration, state, message, HashOf(rt), now)
         == FirstStatus(ar, project, rt, state, message, now)
  {
    assert Last([Entry(now, Initiated, None)]).state == Initiated;
  }

  /** The request as it is after its first visit, nothing else about it changed, and the roles of its
      project. */
  predicate Welcomed(s: Store, t: Store, ar: Request, project: string, rt: Rendered, state: State, message: string) {
    var key := Ref(ar.ns, project);
    && ar.id in t.requests
    && t.requests[ar.id] == ar.(status := FirstStatus(ar, project, rt, state, message, s.now),
                                finalizer := t.requests[ar.id].finalizer, version := t.requests[ar.id].version)
    && RolesAt(t, key) ==
       if state == Granted then GrantEdit(RolesAt(s, key), RoleOf(ar, rt), ar.spec.user, rt) else RolesAt(s, key)
  }

  lemma FirstDecision(w: World, n: nat, reply: PluginReply, ar: Request, project: string, rt: Rendered)
    requires Calm(w, n, reply) && n >= 5 && (w.cfg.plugin ==> reply.Answer?)
    requires ReadyFor(w.store, ar, project, rt) && ar.status == FRESH
    ensures var flow := HandleWithRole(w, ar, project, rt);
      && flow.result == Ok(Verdict(w.cfg, reply)) && flow.w.store.now == w.store.now && flow.w.cfg == w.cfg
      && Welcomed(w.store, flow.w.store, ar, project, rt, Verdict(w.cfg, reply), VerdictMessage(w.cfg, reply))
      && flow.ar.status == FirstStatus(ar, project, rt, Verdict(w.cfg, reply), VerdictMessage(w.cfg, reply),
                                       w.store.now)
  {
    CalmInitialised(w, n, reply, ar, project, rt);
    var init := Initialise(w, ar, project, rt);
    AnswerDecides(init.w, n - 1, reply, init.ar, rt);
    FirstStatusRecorded(ar, project, rt, Verdict(w.cfg, reply), VerdictMessage(w.cfg, reply), w.store.now);
    assert HandleWithRole(w, ar, project, rt) == Decide(init.w, init.ar, rt);
  }

  /** What has just been recorded does not time out yet. */
  lemma FirstFinishes(w: World, ar: Request, state: State)
    requires w.cfg.timeout >= 0 && ar.status.history != [] && Last(ar.status.history).time == w.store.now
    ensures Finish(w, ar, state).w == w
  {
  }

  lemma FirstResolve(w: World, n: nat, reply: PluginReply, ar: Request, project: string, rt: Rendered)
    requires Calm(w, n, reply) && n >= 8 && w.cfg.timeout >= 0
    requires w.cfg.plugin ==> reply.Answer?
    requires ReadyFor(w.store, ar, project, rt) && ar.status == FRESH
    ensures Welcomed(w.store, Resolve(w, ar).w.store, ar, project, rt,
                     Verdict(w.cfg, reply), VerdictMessage(w.cfg, reply))
  {
    CalmStart(w, n, reply, ar, project, rt);
    FirstDecision(Next(Next(Next(w))), n - 3, reply, ar, project, rt);
    var flow := HandlePermission(w, ar);
    FirstFinishes(flow.w, flow.ar, Verdict(w.cfg, reply));
    assert Resolve(w, ar).w == flow.w;
  }

  lemma UnopposedProceeds(w: World, n: nat, reply: PluginReply, ar: Request)
    requires Calm(w, n, reply) && n >= 1 && Unopposed(w.store, ar)
    ensures Proceed(w, ar) == Resolve(Next(w), ar) && Calm(Next(w), n - 1, reply)
  {
    CalmPause(w, n, reply);
    assert HandleConflict(w, ar) == Step(Next(w), ar, None);
  }

  lemma FirstContinue(w: World, ar: Request)
    requires !ar.deleting && !ar.finalizer && AddFinalizer(w, ar, ATTEMPTS).err.None?
    requires !Concluded(AddFinalizer(w, ar, ATTEMPTS).ar.status.state)
    ensures var step := AddFinalizer(w, ar, ATTEMPTS); FromCopy(w, ar) == Proceed(step.w, step.ar)
  {
  }

  lemma SameWelcome(s: Store, s': Store, t: Store, ar: Request, copy: Request, project: string, rt: Rendered,
                    state: State, message: string)
    requires s'.projects == s.projects && s'.now == s.now
    requires copy == ar.(finalizer := copy.finalizer, version := copy.version)
    requires Welcomed(s', t, copy, project, rt, state, message)
    ensures Welcomed(s, t, ar, project, rt, state, message)
  {
  }

  lemma FirstCopy(w: World, reply: PluginReply, ar: Request, project: string, rt: Rendered)
    requires StoreOk(w.store) && Calm(w, 11, reply) && w.cfg.timeout >= 0
    requires w.cfg.plugin ==> reply.Answer?
    requires ReadyFor(w.store, ar, project, rt) && Unopposed(w.store, ar)
    requires ar.status == FRESH && !ar.deleting && !ar.finalizer
    ensures Welcomed(w.store, FromCopy(w, ar).w.store, ar, project, rt,
                     Verdict(w.cfg, reply), VerdictMessage(w.cfg, reply))
  {
    CalmProtect(w, 11, reply, ar, project, rt);
    FirstContinue(w, ar);
    var step := AddFinalizer(w, ar, ATTEMPTS);
    UnopposedProceeds(step.w, 9, reply, step.ar);
    FirstResolve(Next(step.w), 8, reply, step.ar, project, rt);
    SameWelcome(w.store, step.w.store, FromCopy(w, ar).w.store, ar, step.ar, project, rt,
                Verdict(w.cfg, reply), VerdictMessage(w.cfg, reply));
  }

  /** One undisturbed reconciliation of a new, unopposed request protects it, initialises it, asks
      the plugin and does what it answers: the history holds exactly these two steps, ExpiresAt is
      set exactly on a grant, and so is the membership. */
  lemma FirstVisit(w: World, reply: PluginReply, ar: Request, project: string, rt: Rendered)
    requires StoreOk(w.store) && Calm(w, 12, reply) && w.cfg.timeout >= 0
    requires w.cfg.plugin ==> reply.Answer?
    requires ReadyFor(w.store, ar, project, rt) && Unopposed(w.store, ar)
    requires ar.status == FRESH && !ar.deleting && !ar.finalizer
    ensures Welcomed(w.store, Reconcile.Reconcile(w, ar.id).w.store, ar, project, rt,
                     Verdict(w.cfg, reply), VerdictMessage(w.cfg, reply))
  {
    CalmPause(w, 12, reply);
    FirstCopy(Next(w), reply, ar, project, rt);
    assert Reconcile.Reconcile(w, ar.id) == FromCopy(Next(w), ar);
  }

  lemma InterruptedResolve(w: World, n: nat, reply: PluginReply, ar: Request, project: string, rt: Rendered)
    requires Calm(w, n, reply) && n >= 5 && w.cfg.plugin && !reply.Answer?
    requires ReadyFor(w.store, ar, project, rt) && ar.status == FRESH
    ensures var t := Resolve(w, ar).w.store;
      && ar.id in t.requests && t.projects == w.store.projects
      && t.requests[ar.id] == ar.(status := Initialised(ar, project, rt, w.store.now),
                                  version := t.requests[ar.id].version)
  {
    CalmStart(w, n, reply, ar, project, rt);
    var w3 := Next(Next(Next(w)));
    CalmInitialised(w3, n - 3, reply, ar, project, rt);
    var init := Initialise(w3, ar, project, rt);
    CalmPause(init.w, n - 4, reply);
    assert Decide(init.w, init.ar, rt) == Flow(Next(init.w), init.ar, Err(Failed));
    assert HandleWithRole(w3, ar, project, rt) == Decide(init.w, init.ar, rt);
  }

  /** A first visit whose plugin call fails leaves the request initialised, and nothing granted. */
  lemma InterruptedVisit(w: World, reply: PluginReply, ar: Request, project: string, rt: Rendered)
    requires StoreOk(w.store) && Calm(w, 12, reply) && w.cfg.plugin && !reply.Answer?
    requires ReadyFor(w.store, ar, project, rt) && Unopposed(w.store, ar)
    requires ar.status == FRESH && !ar.deleting && !ar.finalizer
    ensures var t := Reconcile.Reconcile(w, ar.id).w.store;
      && ar.id in t.requests && t.projects == w.store.projects
      && t.requests[ar.id] == ar.(status := Initialised(ar, project, rt, w.store.now), finalizer := true,
                                  version := t.requests[ar.id].version)
  {
    CalmPause(w, 12, reply);
    CalmProtect(Next(w), 11, reply, ar, project, rt);
    FirstContinue(Next(w), ar);
    var step := AddFinalizer(Next(w), ar, ATTEMPTS);
    UnopposedProceeds(step.w, 9, reply, step.ar);
    InterruptedResolve(Next(step.w), 8, reply, step.ar, project, rt);
    assert Reconcile.Reconcile(w, ar.id) == FromCopy(Next(w), ar);
  }

  // ---------------------------------------------------------------- expiry and repair

  lemma CalmExpired(w: World, n: nat, reply: PluginReply, ar: Request, rt: Rendered)
    requires Calm(w, n, reply) && n >= 4 && Ready(w.store, ar, rt) && (w.cfg.plugin ==> reply != CallFailed)
    ensures var step := HandleAccessExpired(w, ar, rt);
      && step.err.None? && step.ar.status.state == Expired
      && EndsAs(step.w.store, ar, Expired, VerdictMessage(w.cfg, reply), HashOf(rt), w.store.now)
      && ProjectKey(ar) in step.w.store.projects && step.w.store.now == w.store.now
      && step.w.store.projects[ProjectKey(ar)].roles
         == RevokeEdit(w.store.projects[ProjectKey(ar)].roles, RoleOf(ar, rt), ar.spec.user, rt)
  {
    CalmPause(w, n, reply);
    var (w1, said) := if w.cfg.plugin then CallPlugin(w) else (w, NoAnswer);
    var m := if w.cfg.plugin then n - 1 else n;
    CalmEdit(w1, m, reply, ar, RevokeAccess, rt);
    var w2 := EditProject(w1, ar, RevokeAccess, Some(rt), ATTEMPTS).0;
    var message := VerdictMessage(w.cfg, reply);
    CalmEnds(w2, m - 2, reply, ar, Expired, message, HashOf(rt));
    assert HandleAccessExpired(w, ar, rt) == UpdateStatus(w2, ar, Expired, message, HashOf(rt));
  }

  /** Access whose ExpiresAt has passed is taken away: the request is recorded as expired, with the
      plugin's message if it has one, its user is out of the role, and of the roles only those of its
      name have been written. */
  lemma ExpiryIsCarriedOut(w: World, n: nat, reply: PluginReply, ar: Request, rt: Rendered)
    requires Calm(w, n, reply) && n >= 7 && Ready(w.store, ar, rt) && (w.cfg.plugin ==> reply != CallFailed)
    requires ar.status.state != Empty && ar.status.expiresAt.Some? && ar.status.expiresAt.value < w.store.now
    ensures var flow := HandlePermission(w, ar);
      && flow.result == Ok(Expired) && flow.ar.status.state == Expired && flow.w.store.now == w.store.now
      && EndsAs(flow.w.store, ar, Expired, VerdictMessage(w.cfg, reply), HashOf(rt), w.store.now)
      && Gone(flow.w.store, ProjectKey(ar), RoleOf(ar, rt), ar.spec.user)
      && RevokeWrites(RolesAt(w.store, ProjectKey(ar)), RolesAt(flow.w.store, ProjectKey(ar)), RoleOf(ar, rt),
                      ar.spec.user, rt)
  {
    CalmStart(w, n, reply, ar, ar.status.target, rt);
    var w3 := Next(Next(Next(w)));
    CalmExpired(w3, n - 3, reply, ar, rt);
    RevokeMembership(RolesAt(w.store, ProjectKey(ar)), RoleOf(ar, rt), ar.spec.user, rt);
    WhatEditsWrite(RolesAt(w.store, ProjectKey(ar)), RoleOf(ar, rt), ar.spec.user, rt);
    assert HandleWithRole(w3, ar, ar.status.target, rt) == Settle(HandleAccessExpired(w3, ar, rt), Expired);
  }

  /** The role of a granted request is in sync after a visit that the plugin allows, whatever has
      been done to the role before. */
  lemma DriftIsRepaired(w: World, n: nat, message: string, ar: Request, rt: Rendered)
    requires Calm(w, n, Answer(PluginGranted, message)) && n >= 6 && Ready(w.store, ar, rt)
    requires ar.status.state == Granted && !Expiring(ar.status, w.store.now)
    ensures var flow := HandlePermission(w, ar);
      && flow.result == Ok(Granted)
      && InSync(RolesAt(flow.w.store, ProjectKey(ar)), RoleOf(ar, rt), rt, ar.spec.user, true)
  {
    var reply := Answer(PluginGranted, message);
    CalmPermission(w, n, reply, ar, rt);
    var w3 := Next(Next(Next(w)));
    CalmPause(w3, n - 3, reply);
    var (w4, got) := Allowed(w3, ar);
    CalmEdit(w4, if w.cfg.plugin then n - 4 else n - 3, reply, ar, SyncAccess, rt);
    var roles := RolesAt(w.store, ProjectKey(ar));
    GrantEditIsSyncEdit(roles, RoleOf(ar, rt), ar.spec.user, rt);
    GrantEditSyncs(roles, RoleOf(ar, rt), ar.spec.user, rt, true);
    assert Follow(w4, ar, rt, got.value).w == EditProject(w4, ar, SyncAccess, Some(rt), ATTEMPTS).0;
  }

  /** A granted request that the plugin does not allow now is left alone, and so is its role. */
  lemma UnallowedIsLeftAlone(w: World, n: nat, status: PluginStatus, message: string, ar: Request, rt: Rendered)
    requires Calm(w, n, Answer(status, message)) && n >= 4 && Ready(w.store, ar, rt)
    requires w.cfg.plugin && status != PluginGranted
    requires ar.status.state == Granted && ar.status.expiresAt.Some? && w.store.now <= ar.status.expiresAt.value
    ensures var flow := HandlePermission(w, ar);
      flow.result == Ok(Granted) && flow.ar == ar && flow.w.store == w.store
  {
    var reply := Answer(status, message);
    CalmPermission(w, n, reply, ar, rt);
    CalmPause(Next(Next(Next(w))), n - 3, reply);
  }

  // ---------------------------------------------------------------- application gone or moved

  /** The role name the stored template gives the request. */
  function RoleNow(s: Store, ar: Request): string {
    if ar.spec.template in s.templates then RoleName(s.templates[ar.spec.template].name, ar.spec.app) else ""
  }

  /** The hash of what the stored template renders to for the request's target. */
  function HashNow(s: Store, ar: Request): Hash
    requires Renders(s, ar)
  {
    HashOf(Render(s.templates[ar.spec.template], ar.status.target, ar.spec.app).value)
  }

  /** A revocation makes the user leave the role; an absent project is no obstacle. */
  lemma CalmRevoke(w: World, n: nat, reply: PluginReply, ar: Request, rt: Rendered)
    requires Calm(w, n, reply) && n >= 2
    ensures var (x, err) := EditProject(w, ar, RevokeAccess, Some(rt), ATTEMPTS);
      && err.None? && n - 2 <= |x.script| && Calm(x, n - 2, reply)
      && x.store.requests == w.store.requests && x.store.now == w.store.now
      && Gone(x.store, ProjectKey(ar), RoleOf(ar, rt), ar.spec.user)
  {
    if ProjectKey(ar) in w.store.projects {
      CalmEdit(w, n, reply, ar, RevokeAccess, rt);
      RevokeMembership(RolesAt(w.store, ProjectKey(ar)), RoleOf(ar, rt), ar.spec.user, rt);
    } else {
      CalmPause(w, n, reply);
    }
  }

  lemma CalmRevokeAndRecord(w: World, n: nat, reply: PluginReply, ar: Request, rt: Rendered, message: string)
    requires Calm(w, n, reply) && n >= 3 && ar.id in w.store.requests && w.store.requests[ar.id] == ar
    ensures var (x, err) := EditProject(w, ar, RevokeAccess, Some(rt), ATTEMPTS);
      var step := UpdateStatus(x, ar, Invalid, message, HashOf(rt));
      && err.None? && step.err.None? && step.ar.status.state == Invalid
      && EndsAs(step.w.store, ar, Invalid, message, HashOf(rt), w.store.now)
      && Gone(step.w.store, ProjectKey(ar), RoleOf(ar, rt), ar.spec.user)
  {
    CalmRevoke(w, n, reply, ar, rt);
    var x := EditProject(w, ar, RevokeAccess, Some(rt), ATTEMPTS).0;
    CalmEnds(x, n - 2, reply, ar, Invalid, message, HashOf(rt));
  }

  /** A request whose application is gone is recorded as invalid with its user out of the role, unless
      its template cannot be rendered any more: then nothing is written. */
  lemma MissingAppIsCarriedOut(w: World, n: nat, reply: PluginReply, ar: Request)
    requires Calm(w, n, reply) && n >= 5 && ar.id in w.store.requests && w.store.requests[ar.id] == ar
    requires ar.spec.app !in w.store.apps
    ensures var flow := HandlePermission(w, ar);
      if ar.status.target == "" || Renders(w.store, ar) then
        && flow.result == Ok(Invalid)
        && EndsAs(flow.w.store, ar, Invalid, "application not found",
                  if ar.status.target == "" then NoHash else HashNow(w.store, ar), w.store.now)
        && (ar.status.target != "" ==> Gone(flow.w.store, ProjectKey(ar), RoleNow(w.store, ar), ar.spec.user))
      else flow.result.Err? && flow.w.store == w.store
  {
    CalmPause(w, n, reply);
    var x := Next(w);
    if ar.status.target == "" {
      CalmEnds(x, n - 1, reply, ar, Invalid, "application not found", NoHash);
    } else {
      CalmRender(x, n - 1, reply, ar);
      var (y, got) := RenderedRole(x, ar, ar.status.target);
      if got.Ok? { CalmRevokeAndRecord(y, n - 2, reply, ar, got.value, "application not found"); }
    }
  }

  /** So is a granted request whose application has moved to another project. */
  lemma ProjectMoveIsCarriedOut(w: World, n: nat, reply: PluginReply, ar: Request, project: string)
    requires Calm(w, n, reply) && n >= 5 && ar.id in w.store.requests && w.store.requests[ar.id] == ar
    requires ar.spec.app in w.store.apps && w.store.apps[ar.spec.app] == project && project != ""
    requires ar.status.state == Granted && ar.status.target != project
    ensures var flow := HandlePermission(w, ar);
      if Renders(w.store, ar) then
        && flow.result == Ok(Invalid)
        && EndsAs(flow.w.store, ar, Invalid,
                  "The application project changed from " + ar.status.target + " to " + project + ".",
                  HashNow(w.store, ar), w.store.now)
        && Gone(flow.w.store, ProjectKey(ar), RoleNow(w.store, ar), ar.spec.user)
      else flow.result.Err? && flow.w.store == w.store
  {
    CalmPause(w, n, reply);
    var x := Next(w);
    CalmRender(x, n - 1, reply, ar);
    var (y, got) := RenderedRole(x, ar, ar.status.target);
    var message := "The application project changed from " + ar.status.target + " to " + project + ".";
    if got.Ok? { CalmRevokeAndRecord(y, n - 2, reply, ar, got.value, message); }
    assert HandlePermission(w, ar) == HandleWithApp(x, ar, project);
  }

  /** An application without a project, or whose project is not stored, makes the request invalid and
      changes no project. */
  lemma MissingProjectIsCarriedOut(w: World, n: nat, reply: PluginReply, ar: Request, project: string)
    requires Calm(w, n, reply) && n >= 3 && ar.id in w.store.requests && w.store.requests[ar.id] == ar
    requires ar.spec.app in w.store.apps && w.store.apps[ar.spec.app] == project
    requires project == "" || ar.status.state == Empty || ar.status.target == project
    requires project == "" || Ref(ar.ns, project) !in w.store.projects
    ensures var flow := HandlePermission(w, ar);
      && flow.result == Ok(Invalid) && flow.w.store.projects == w.store.projects
      && EndsAs(flow.w.store, ar, Invalid,
                if project == "" then "Application does not have a project defined"
                else "Argo CD Project " + ar.ns + "/" + project + " not found", NoHash, w.store.now)
  {
    CalmPause(w, n, reply);
    var x := Next(w);
    if project == "" {
      var message := "Application does not have a project defined";
      CalmEnds(NoteProjectless(x, ar), n - 1, reply, ar, Invalid, message, NoHash);
    } else {
      CalmPause(x, n - 1, reply);
      CalmEnds(Next(x), n - 2, reply, ar, Invalid, "Argo CD Project " + ar.ns + "/" + project + " not found", NoHash);
    }
    assert HandlePermission(w, ar) == HandleWithApp(x, ar, project);
  }

  // ---------------------------------------------------------------- nothing to do

  /** The reconciliation of a request that is not stored any more ends without error and without a wake-up;
      when the request cannot be read it ends with the error. Either way it makes no other call. */
  lemma AbsentIsDone(w: World, id: nat)
    requires !Pause(w).1.outcome.Succeed? || id !in Pause(w).0.store.requests
    ensures Reconcile.Reconcile(w, id)
         == Reconciled(Pause(w).0, if Pause(w).1.outcome.Succeed? then Ok(NoWake) else Err(Failed))
  {
  }

  // ---------------------------------------------------------------- deletion

  lemma CalmDrop(w: World, n: nat, reply: PluginReply, ar: Request)
    requires Calm(w, n, reply) && n >= 2 && ar.id in w.store.requests && w.store.requests[ar.id] == ar && ar.deleting
    ensures var step := DropFinalizer(w, ar, ATTEMPTS);
      step.err.None? && ar.id !in step.w.store.requests && step.w.store.projects == w.store.projects
  {
    CalmPause(w, n, reply);
    CalmPause(Next(w), n - 1, reply);
    assert DropFinalizer(w, ar, ATTEMPTS).w == Commit(Next(Next(w)), WithFinalizer(w.store, ar.id, false));
  }

  /** The clean-up of the request has a project to edit and no template to edit it with. */
  predicate Stuck(s: Store, ar: Request) {
    ar.status.state != Expired && ProjectKey(ar) in s.projects && !Renders(s, ar)
  }

  lemma CalmCleanup(w: World, n: nat, reply: PluginReply, ar: Request)
    requires Calm(w, n, reply) && n >= 3
    ensures var (x, err) := Cleanup(w, ar);
      && (err == Some(Panic) <==> Stuck(w.store, ar)) && (err.Some? ==> err == Some(Panic) && x.store == w.store)
      && (err.None? ==>
            && n - 3 <= |x.script| && Calm(x, n - 3, reply) && x.store.requests == w.store.requests
            && (ar.status.state != Expired ==> Gone(x.store, ProjectKey(ar), RoleNow(w.store, ar), ar.spec.user)))
  {
    if ar.status.state != Expired {
      CalmRender(w, n, reply, ar);
      var (x, got) := RenderedRole(w, ar, ar.status.target);
      if got.Ok? { CalmRevoke(x, n - 1, reply, ar, got.value); } else { CalmPause(x, n - 1, reply); }
    }
  }

  /** The reconciliation of a request marked for deletion: when it is stuck it panics and leaves
      everything as it is; otherwise the request goes, with its user out of the role unless it had
      expired before. */
  lemma DeletionIsCarriedOut(w: World, n: nat, reply: PluginReply, ar: Request)
    requires Calm(w, n, reply) && n >= 6 && ar.id in w.store.requests && w.store.requests[ar.id] == ar
    requires ar.deleting && ar.finalizer
    ensures var done := Reconcile.Reconcile(w, ar.id);
      if Stuck(w.store, ar) then done.result == Err(Panic) && done.w.store == w.store
      else
        && done.result == Ok(NoWake) && ar.id !in done.w.store.requests
        && (ar.status.state != Expired ==> Gone(done.w.store, ProjectKey(ar), RoleNow(w.store, ar), ar.spec.user))
  {
    CalmPause(w, n, reply);
    var x := Next(w);
    CalmCleanup(x, n - 1, reply, ar);
    var (y, err) := Cleanup(x, ar);
    if err.None? { CalmDrop(y, n - 4, reply, ar); }
    assert Reconcile.Reconcile(w, ar.id) == FromCopy(x, ar);
  }

  /** Left alone, the reconciliation of a request marked for deletion dereferences nil exactly when
      the request is not expired, its target project is stored, and its template is missing or
      cannot be rendered; it then stays stored and its user stays where it was. */
  lemma DeletionPanicsIff(w: World, n: nat, reply: PluginReply, ar: Request)
    requires Calm(w, n, reply) && n >= 6 && ar.id in w.store.requests && w.store.requests[ar.id] == ar
    requires ar.deleting && ar.finalizer
    ensures var done := Reconcile.Reconcile(w, ar.id);
      && (done.result == Err(Panic) <==>
            && ar.status.state != Expired && ProjectKey(ar) in w.store.projects
            && (ar.spec.template !in w.store.templates
                || Render(w.store.templates[ar.spec.template], ar.status.target, ar.spec.app).Err?))
      && (done.result == Err(Panic) ==> done.w.store == w.store)
  {
    DeletionIsCarriedOut(w, n, reply, ar);
  }

  /** A concluded request past its TTL deadline is marked for deletion. */
  lemma TTLIsCarriedOut(w: World, n: nat, reply: PluginReply, ar: Request)
    requires Calm(w, n, reply) && n >= 2 && ar.id in w.store.requests && w.store.requests[ar.id] == ar
    requires !ar.deleting && ar.finalizer && ar.status.state in {Denied, Expired, Invalid, Timeout}
    requires ar.status.history != [] && w.cfg.ttl != 0 && w.store.now > Last(ar.status.history).time + w.cfg.ttl
    ensures var done := Reconcile.Reconcile(w, ar.id);
      && done.result == Ok(NoWake) && ar.id in done.w.store.requests && done.w.store.requests[ar.id].deleting
  {
    CalmPause(w, n, reply);
    CalmPause(Next(w), n - 1, reply);
    assert HandleTTL(Next(w), ar) == (Commit(Next(Next(w)), Delete(w.store, ar.id)), Ok(true));
    assert Reconcile.Reconcile(w, ar.id) == Continue(Next(w), ar);
  }
}
