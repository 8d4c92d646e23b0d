/** What a reconciliation leaves alone. While calls may fail, lose their answers or be answered by the
    plugin in any way, and other actors do anything that does not concern a given request, each
    function of the controller spares that request and what it stands on; and when nobody else acts
    at all, it touches no request but its own and of projects only the roles. */
module StillRuns {
  import opened Prelude
  import opened Templates
  import opened Roles
  import opened Requests
  import opened Cluster
  import opened Permission
  import opened Reconcile
  import opened Safety

  /** No other actor does anything in the turns to come. */
  predicate Still(w: World) {
    forall i :: 0 <= i < |w.script| ==> w.script[i].events == []
  }

  /** The turn the next call takes. */
  function Head(w: World): Turn {
    if w.script == [] then QUIET else w.script[0]
  }

  /** The world after that turn, before the call itself. */
  function Rest(w: World): World {
    if w.script == [] then w else w.(script := w.script[1..])
  }

  lemma StillPause(w: World)
    requires Still(w)
    ensures Pause(w) == (Rest(w), Head(w)) && Still(Rest(w))
  {
  }

  // ---------------------------------------------------------------- what stays

  predicate Keyed(s: Store) {
    forall id :: id in s.requests ==> s.requests[id].id == id
  }

  /** No id is used again. */
  predicate Below(s: Store) {
    forall id :: id in s.requests ==> id < s.next
  }

  /** From `s` to `t` at most request `id` and the roles of projects have changed. */
  predicate Framed(s: Store, t: Store, id: nat) {
    && t.now == s.now && t.next == s.next && t.apps == s.apps && t.templates == s.templates
    && t.projects.Keys == s.projects.Keys
    && t.requests - {id} == s.requests - {id}
  }

  /** The event concerns other requests, applications, templates and projects, or time, or the roles
      of projects. */
  predicate Unrelated(e: Event, r: Request) {
    match e
    case Tick(_) => true
    case CreateRequest(ns, spec) =>
      ns != r.ns || spec.user != r.spec.user || spec.app != r.spec.app || spec.template != r.spec.template
    case DeleteRequest(id) => id != r.id
    case EditRequest(id, _) => id != r.id
    case SetApp(app, _) => app != r.spec.app
    case DropApp(app) => app != r.spec.app
    case SetTemplate(t) => t.ref != r.spec.template
    case DropTemplate(ref) => ref != r.spec.template
    case SetProject(_, _) => true
    case DropProject(key) => key != ProjectKey(r)
  }

  predicate AllUnrelated(events: seq<Event>, r: Request) {
    forall k :: 0 <= k < |events| ==> Unrelated(events[k], r)
  }

  /** Request `r`, if stored as given, and what it stands on stay: its application, its template, its
      target project, though not the project's roles. */
  predicate SparedItself(s: Store, t: Store, r: Request) {
    && (r.id in s.requests && s.requests[r.id] == r ==> r.id in t.requests && t.requests[r.id] == r)
    && (r.spec.app in s.apps ==> r.spec.app in t.apps && t.apps[r.spec.app] == s.apps[r.spec.app])
    && (r.spec.template in s.templates ==>
          r.spec.template in t.templates && t.templates[r.spec.template] == s.templates[r.spec.template])
    && (ProjectKey(r) in s.projects ==> ProjectKey(r) in t.projects)
  }

  /** Every request that asks for the same as `r` was there before and has its status still, but for
      request `id`. */
  predicate NoNewcomer(s: Store, t: Store, r: Request, id: nat) {
    forall j :: j in t.requests && j != id && SameAsk(r, t.requests[j]) ==>
      j in s.requests && SameIdentity(s.requests[j], t.requests[j]) && s.requests[j].status == t.requests[j].status
  }

  predicate Spared(s: Store, t: Store, r: Request, id: nat) {
    SparedItself(s, t, r) && NoNewcomer(s, t, r, id)
  }

  /** What other actors do in the turns to come does not concern `r`. */
  predicate Tame(w: World, r: Request) {
    && Keyed(w.store) && (Still(w) || Below(w.store))
    && forall i :: 0 <= i < |w.script| ==> AllUnrelated(w.script[i].events, r)
  }

  /** `x` follows from the still world `w`, with only request `id` touched. */
  predicate Follows(w: World, x: World, id: nat) {
    && Still(x) && Keyed(x.store) && x.cfg == w.cfg && x.ev.clean == w.ev.clean
    && Framed(w.store, x.store, id)
  }

  /** `x` follows from the tame world `w` by what request `id` has done, with `r` spared; and when nobody
      acts, with only `id` touched. */
  predicate Goes(w: World, x: World, id: nat, r: Request) {
    && Tame(x, r) && x.cfg == w.cfg && Spared(w.store, x.store, r, id)
    && (Still(w) ==> Follows(w, x, id))
  }

  lemma SparedOn(s: Store, t: Store, u: Store, r: Request, id: nat)
    requires Spared(s, t, r, id) && Spared(t, u, r, id)
    ensures Spared(s, u, r, id)
  {
    forall j | j in u.requests && j != id && SameAsk(r, u.requests[j])
      ensures j in s.requests && SameIdentity(s.requests[j], u.requests[j])
           && s.requests[j].status == u.requests[j].status
    {
      assert SameAsk(r, t.requests[j]);
    }
  }

  lemma GoesOn(w: World, x: World, y: World, id: nat, r: Request)
    requires Goes(w, x, id, r) && Goes(x, y, id, r)
    ensures Goes(w, y, id, r)
  {
    SparedOn(w.store, x.store, y.store, r, id);
  }

  lemma FramedSpares(s: Store, t: Store, r: Request, id: nat)
    requires Framed(s, t, id) && r.id != id
    ensures Spared(s, t, r, id)
  {
    forall j | j in t.requests && j != id ensures j in s.requests && t.requests[j] == s.requests[j] {
      assert j in t.requests - {id};
    }
    if r.id in s.requests { assert r.id in s.requests - {id}; }
  }

  /** A call of request `id` has written after the other actors had acted. */
  predicate Wrote(x: World, y: World, id: nat) {
    && Keyed(y.store) && Framed(x.store, y.store, id) && y.store.requests.Keys <= x.store.requests.Keys
    && y.script == x.script && y.cfg == x.cfg && y.ev.clean == x.ev.clean
  }

  lemma OwnWrite(w: World, x: World, y: World, id: nat, r: Request)
    requires Goes(w, x, id, r) && r.id != id && Wrote(x, y, id)
    ensures Goes(w, y, id, r)
  {
    FramedSpares(x.store, y.store, r, id);
    SparedOn(w.store, x.store, y.store, r, id);
  }

  // ---------------------------------------------------------------- other actors

  lemma TouchSpares(s: Store, t: Store, j: nat, b: Request, r: Request, id: nat)
    requires Keyed(s) && Below(s) && j != r.id && j in s.requests && b.id == j
    requires SameIdentity(s.requests[j], b) && s.requests[j].status == b.status
    requires t.(rev := s.rev, requests := s.requests) == s && t.requests == s.requests[j := b]
    ensures Keyed(t) && Below(t) && Spared(s, t, r, id)
  {
  }

  lemma DropSpares(s: Store, j: nat, r: Request, id: nat)
    requires Keyed(s) && Below(s) && j != r.id
    ensures var t := s.(requests := s.requests - {j});
      Keyed(t) && Below(t) && Spared(s, t, r, id)
  {
  }

  lemma SameRequestsSpare(s: Store, t: Store, r: Request, id: nat)
    requires Keyed(s) && Below(s) && t.requests == s.requests && t.next == s.next && SparedItself(s, t, r)
    ensures Keyed(t) && Below(t) && Spared(s, t, r, id)
  {
  }

  lemma DeleteSpares(s: Store, j: nat, r: Request, id: nat)
    requires Keyed(s) && Below(s) && j != r.id
    ensures Keyed(Delete(s, j)) && Below(Delete(s, j)) && Spared(s, Delete(s, j), r, id)
  {
    if j !in s.requests || s.requests[j].deleting {
      SameRequestsSpare(s, Delete(s, j), r, id);
    } else if s.requests[j].finalizer {
      TouchSpares(s, Delete(s, j), j, s.requests[j].(deleting := true, version := s.rev + 1), r, id);
    } else {
      DropSpares(s, j, r, id);
    }
  }

  lemma CreateSpares(s: Store, ns: string, spec: Spec, r: Request, id: nat)
    requires Keyed(s) && Below(s) && Unrelated(CreateRequest(ns, spec), r)
    ensures var t := Apply(s, CreateRequest(ns, spec));
      Keyed(t) && Below(t) && Spared(s, t, r, id)
  {
  }

  lemma EditSpares(s: Store, j: nat, duration: int, r: Request, id: nat)
    requires Keyed(s) && Below(s) && j != r.id
    ensures var t := Apply(s, EditRequest(j, duration));
      Keyed(t) && Below(t) && Spared(s, t, r, id)
  {
    var t := Apply(s, EditRequest(j, duration));
    if j in s.requests {
      TouchSpares(s, t, j, t.requests[j], r, id);
    } else {
      SameRequestsSpare(s, t, r, id);
    }
  }

  lemma EventSpares(s: Store, e: Event, r: Request, id: nat)
    requires Keyed(s) && Below(s) && Unrelated(e, r)
    ensures Keyed(Apply(s, e)) && Below(Apply(s, e)) && Spared(s, Apply(s, e), r, id)
  {
    match e
    case DeleteRequest(j) => DeleteSpares(s, j, r, id);
    case CreateRequest(ns, spec) => CreateSpares(s, ns, spec, r, id);
    case EditRequest(j, duration) => EditSpares(s, j, duration, r, id);
    case _ => SameRequestsSpare(s, Apply(s, e), r, id);
  }

  lemma {:induction false} InterfereSpares(w: World, events: seq<Event>, r: Request, id: nat)
    requires Keyed(w.store) && Below(w.store) && AllUnrelated(events, r)
    ensures var x := Interfere(w, events);
      && x.script == w.script && x.cfg == w.cfg && Keyed(x.store) && Below(x.store) && Spared(w.store, x.store, r, id)
    decreases |events|
  {
    if events != [] {
      var x := After(w, events[0]);
      EventSpares(w.store, events[0], r, id);
      InterfereSpares(x, events[1..], r, id);
      SparedOn(w.store, x.store, Interfere(x, events[1..]).store, r, id);
    }
  }

  lemma GoesNowhere(w: World, id: nat, r: Request)
    requires Tame(w, r)
    ensures Goes(w, w, id, r)
  {
  }

  lemma PauseGoes(w: World, id: nat, r: Request)
    requires Tame(w, r)
    ensures Goes(w, Pause(w).0, id, r)
  {
    if Still(w) {
      StillPause(w);
    } else {
      var x := w.(script := w.script[1..]);
      assert AllUnrelated(w.script[0].events, r);
      InterfereSpares(x, w.script[0].events, r, id);
    }
  }

  predicate StepGoes(w: World, step: Step, id: nat, r: Request) {
    Goes(w, step.w, id, r) && step.ar.id == id
  }

  predicate FlowGoes<T>(w: World, flow: Flow<T>, id: nat, r: Request) {
    Goes(w, flow.w, id, r) && flow.ar.id == id
  }

  // ---------------------------------------------------------------- single calls

  lemma UpdateTouches(m: map<nat, Request>, id: nat, r: Request)
    ensures m[id := r] - {id} == m - {id} && (m - {id}) - {id} == m - {id}
  {
  }

  /** One request is written, or dropped. */
  lemma TouchWrote(x: World, t: Store, id: nat, r: Request)
    requires Keyed(x.store) && id in x.store.requests && r.id == id
    requires t.(rev := x.store.rev, requests := x.store.requests) == x.store
    requires t.requests == x.store.requests[id := r] || t.requests == x.store.requests - {id}
    ensures Wrote(x, Commit(x, t), id)
  {
    UpdateTouches(x.store.requests, id, r);
  }

  lemma PutStatusWrote(w: World, ar: Request)
    requires Keyed(Pause(w).0.store)
    ensures Wrote(Pause(w).0, PutStatus(w, ar).0, ar.id) && PutStatus(w, ar).1.id == ar.id
  {
    var x, y := Pause(w).0, PutStatus(w, ar).0;
    if y != x { TouchWrote(x, y.store, ar.id, y.store.requests[ar.id]); }
  }

  lemma PutFinalizerWrote(w: World, ar: Request)
    requires Keyed(Pause(w).0.store)
    ensures Wrote(Pause(w).0, PutFinalizer(w, ar).0, ar.id) && PutFinalizer(w, ar).1.id == ar.id
  {
    var x, y := Pause(w).0, PutFinalizer(w, ar).0;
    if y != x {
      var r := x.store.requests[ar.id].(finalizer := ar.finalizer, version := x.store.rev + 1);
      TouchWrote(x, y.store, ar.id, r);
    }
  }

  lemma DeleteWrote(w: World, id: nat)
    requires Keyed(Pause(w).0.store)
    ensures Wrote(Pause(w).0, DeleteCall(w, id).0, id)
  {
    var x, y := Pause(w).0, DeleteCall(w, id).0;
    if y != x && y.store != x.store {
      var r := x.store.requests[id].(deleting := true, version := x.store.rev + 1);
      TouchWrote(x, y.store, id, r);
    }
  }

  lemma PutStatusGoes(w: World, ar: Request, r: Request)
    requires Tame(w, r) && r.id != ar.id
    ensures Goes(w, PutStatus(w, ar).0, ar.id, r) && PutStatus(w, ar).1.id == ar.id
  {
    PauseGoes(w, ar.id, r);
    PutStatusWrote(w, ar);
    OwnWrite(w, Pause(w).0, PutStatus(w, ar).0, ar.id, r);
  }

  lemma PutFinalizerGoes(w: World, ar: Request, r: Request)
    requires Tame(w, r) && r.id != ar.id
    ensures Goes(w, PutFinalizer(w, ar).0, ar.id, r) && PutFinalizer(w, ar).1.id == ar.id
  {
    PauseGoes(w, ar.id, r);
    PutFinalizerWrote(w, ar);
    OwnWrite(w, Pause(w).0, PutFinalizer(w, ar).0, ar.id, r);
  }

  lemma DeleteGoes(w: World, id: nat, r: Request)
    requires Tame(w, r) && r.id != id
    ensures Goes(w, DeleteCall(w, id).0, id, r)
  {
    PauseGoes(w, id, r);
    DeleteWrote(w, id);
    OwnWrite(w, Pause(w).0, DeleteCall(w, id).0, id, r);
  }

  lemma PatchGoes(w: World, key: Ref, version: nat, roles: seq<ProjectRole>, id: nat, r: Request)
    requires Tame(w, r) && r.id != id
    ensures Goes(w, PatchProject(w, key, version, roles).0, id, r)
  {
    PauseGoes(w, id, r);
    OwnWrite(w, Pause(w).0, PatchProject(w, key, version, roles).0, id, r);
  }

  lemma UpdateStatusGoes(w: World, ar: Request, state: State, message: string, hash: Hash, r: Request)
    requires Tame(w, r) && r.id != ar.id
    ensures StepGoes(w, UpdateStatus(w, ar, state, message, hash), ar.id, r)
  {
    var status := Recorded(ar.status, ar.spec.duration, state, message, w.store.now);
    PutStatusGoes(w, ar.(status := status.(hash := hash)), r);
  }

  lemma RenderedRoleGoes(w: World, ar: Request, project: string, r: Request)
    requires Tame(w, r) && r.id != ar.id
    ensures Goes(w, RenderedRole(w, ar, project).0, ar.id, r)
  {
    PauseGoes(w, ar.id, r);
  }

  lemma AttemptGoes(w: World, ar: Request, edit: Edit, rt: Option<Rendered>, r: Request)
    requires Tame(w, r) && r.id != ar.id
    ensures Goes(w, Attempt(w, ar, edit, rt).0, ar.id, r)
  {
    PauseGoes(w, ar.id, r);
    var (x, got) := GetProject(w, ProjectKey(ar));
    if got.Ok? && rt.Some? {
      var roles := Edited(edit, got.value.roles, ar, rt.value);
      PatchGoes(x, ProjectKey(ar), got.value.version, roles, ar.id, r);
      GoesOn(w, x, PatchProject(x, ProjectKey(ar), got.value.version, roles).0, ar.id, r);
    }
  }

  lemma {:induction false} EditGoes(w: World, ar: Request, edit: Edit, rt: Option<Rendered>, attempts: nat, r: Request)
    requires Tame(w, r) && r.id != ar.id
    ensures Goes(w, EditProject(w, ar, edit, rt, attempts).0, ar.id, r)
    decreases attempts
  {
    AttemptGoes(w, ar, edit, rt, r);
    var (x, err) := Attempt(w, ar, edit, rt);
    if err == Some(Conflict) && attempts > 1 {
      EditGoes(x, ar, edit, rt, attempts - 1, r);
      GoesOn(w, x, EditProject(x, ar, edit, rt, attempts - 1).0, ar.id, r);
    }
  }

  // ---------------------------------------------------------------- permission handling

  lemma RevokeAndUpdateGoes(w: World, ar: Request, rt: Rendered, state: State, message: string, r: Request)
    requires Tame(w, r) && r.id != ar.id
    ensures var x := EditProject(w, ar, RevokeAccess, Some(rt), ATTEMPTS).0;
      && Goes(w, x, ar.id, r)
      && StepGoes(w, UpdateStatus(x, ar, state, message, HashOf(rt)), ar.id, r)
  {
    EditGoes(w, ar, RevokeAccess, Some(rt), ATTEMPTS, r);
    var x := EditProject(w, ar, RevokeAccess, Some(rt), ATTEMPTS).0;
    UpdateStatusGoes(x, ar, state, message, HashOf(rt), r);
    GoesOn(w, x, UpdateStatus(x, ar, state, message, HashOf(rt)).w, ar.id, r);
  }

  lemma AppNotFoundGoes(w: World, ar: Request, r: Request)
    requires Tame(w, r) && r.id != ar.id
    ensures StepGoes(w, HandleAppNotFound(w, ar), ar.id, r)
  {
    if ar.status.target == "" {
      UpdateStatusGoes(w, ar, Invalid, "application not found", NoHash, r);
    } else {
      RenderedRoleGoes(w, ar, ar.status.target, r);
      var (x, got) := RenderedRole(w, ar, ar.status.target);
      if got.Ok? {
        RevokeAndUpdateGoes(x, ar, got.value, Invalid, "application not found", r);
        GoesOn(w, x, HandleAppNotFound(w, ar).w, ar.id, r);
      }
    }
  }

  lemma ProjectChangedGoes(w: World, ar: Request, project: string, r: Request)
    requires Tame(w, r) && r.id != ar.id
    ensures StepGoes(w, HandleProjectChanged(w, ar, project), ar.id, r)
  {
    RenderedRoleGoes(w, ar, ar.status.target, r);
    var (x, got) := RenderedRole(w, ar, ar.status.target);
    if got.Ok? {
      var message := "The application project changed from " + ar.status.target + " to " + project + ".";
      RevokeAndUpdateGoes(x, ar, got.value, Invalid, message, r);
      UpdateStatusGoes(x, ar, Invalid, message, HashOf(got.value), r);
      GoesOn(w, x, HandleProjectChanged(w, ar, project).w, ar.id, r);
    }
  }

  lemma MissingProjectGoes(w: World, ar: Request, project: string, message: string, r: Request)
    requires Tame(w, r) && r.id != ar.id
    ensures var x := GetProject(w, Ref(ar.ns, project)).0;
      && Goes(w, x, ar.id, r)
      && StepGoes(w, UpdateStatus(x, ar, Invalid, message, NoHash), ar.id, r)
  {
    PauseGoes(w, ar.id, r);
    var x := Pause(w).0;
    UpdateStatusGoes(x, ar, Invalid, message, NoHash, r);
    GoesOn(w, x, UpdateStatus(x, ar, Invalid, message, NoHash).w, ar.id, r);
  }

  lemma ValidateGoes(w: World, ar: Request, project: string, r: Request)
    requires Tame(w, r) && r.id != ar.id
    ensures FlowGoes(w, ValidateProject(w, ar, project), ar.id, r)
  {
    if project == "" {
      UpdateStatusGoes(NoteProjectless(w, ar), ar, Invalid, "Application does not have a project defined",
                          NoHash, r);
    } else if ar.status.state != Empty && ar.status.target != project {
      ProjectChangedGoes(w, ar, project, r);
    } else {
      MissingProjectGoes(w, ar, project, "Argo CD Project " + ar.ns + "/" + project + " not found", r);
    }
  }

  lemma ExpiredGoes(w: World, ar: Request, rt: Rendered, r: Request)
    requires Tame(w, r) && r.id != ar.id
    ensures StepGoes(w, HandleAccessExpired(w, ar, rt), ar.id, r)
  {
    PauseGoes(w, ar.id, r);
    var (x, reply) := if w.cfg.plugin then CallPlugin(w) else (w, NoAnswer);
    if !reply.CallFailed? {
      RevokeAndUpdateGoes(x, ar, rt, Expired, if reply.Answer? then reply.message else "", r);
      GoesOn(w, x, HandleAccessExpired(w, ar, rt).w, ar.id, r);
    }
  }

  lemma GrantGoes(w: World, ar: Request, rt: Rendered, message: string, r: Request)
    requires Tame(w, r) && r.id != ar.id
    ensures FlowGoes(w, Grant(w, ar, rt, message), ar.id, r)
  {
    EditGoes(w, ar, GrantAccess, Some(rt), ATTEMPTS, r);
    var (x, err) := EditProject(w, ar, GrantAccess, Some(rt), ATTEMPTS);
    var state := if err.None? then Granted else if err.value == NotFound then Invalid else Denied;
    var details := if err.None? then message else "Error granting Argo CD Access: " + ErrorText(err.value);
    UpdateStatusGoes(x, ar, state, details, HashOf(rt), r);
    GoesOn(w, x, UpdateStatus(x, ar, state, details, HashOf(rt)).w, ar.id, r);
  }

  lemma DecisionGoes(w: World, ar: Request, rt: Rendered, decision: Decision, r: Request)
    requires Tame(w, r) && r.id != ar.id
    ensures FlowGoes(w, Follow(w, ar, rt, decision), ar.id, r)
  {
    if ar.status.state == Granted {
      GoesNowhere(w, ar.id, r);
      EditGoes(w, ar, SyncAccess, Some(rt), ATTEMPTS, r);
    } else if !decision.allowed && decision.status == PluginDenied {
      UpdateStatusGoes(w, ar, Denied, decision.message, HashOf(rt), r);
    } else if !decision.allowed && decision.status == PluginPending {
      UpdateStatusGoes(w, ar, Requested, decision.message, HashOf(rt), r);
    } else {
      GrantGoes(w, ar, rt, decision.message, r);
    }
  }

  lemma DecideGoes(w: World, ar: Request, rt: Rendered, r: Request)
    requires Tame(w, r) && r.id != ar.id
    ensures FlowGoes(w, Decide(w, ar, rt), ar.id, r)
  {
    GoesNowhere(w, ar.id, r);
    PauseGoes(w, ar.id, r);
    var (x, got) := Allowed(w, ar);
    if got.Ok? {
      DecisionGoes(x, ar, rt, got.value, r);
      GoesOn(w, x, Follow(x, ar, rt, got.value).w, ar.id, r);
    }
  }

  lemma InitialiseGoes(w: World, ar: Request, project: string, rt: Rendered, r: Request)
    requires Tame(w, r) && r.id != ar.id
    ensures StepGoes(w, Initialise(w, ar, project, rt), ar.id, r)
  {
    GoesNowhere(w, ar.id, r);
    var status := ar.status.(target := project, roleName := RoleName(rt.name, ar.spec.app));
    UpdateStatusGoes(w, ar.(status := status), Initiated, "", HashOf(rt), r);
  }

  lemma WithRoleGoes(w: World, ar: Request, project: string, rt: Rendered, r: Request)
    requires Tame(w, r) && r.id != ar.id
    ensures FlowGoes(w, HandleWithRole(w, ar, project, rt), ar.id, r)
  {
    if Expiring(ar.status, w.store.now) {
      ExpiredGoes(w, ar, rt, r);
    } else {
      InitialiseGoes(w, ar, project, rt, r);
      var init := Initialise(w, ar, project, rt);
      DecideGoes(init.w, init.ar, rt, r);
      GoesOn(w, init.w, Decide(init.w, init.ar, rt).w, ar.id, r);
    }
  }

  lemma WithAppGoes(w: World, ar: Request, project: string, r: Request)
    requires Tame(w, r) && r.id != ar.id
    ensures FlowGoes(w, HandleWithApp(w, ar, project), ar.id, r)
  {
    ValidateGoes(w, ar, project, r);
    var valid := ValidateProject(w, ar, project);
    if valid.result == Ok(true) {
      RenderedRoleGoes(valid.w, valid.ar, project, r);
      var (x, got) := RenderedRole(valid.w, valid.ar, project);
      GoesOn(w, valid.w, x, ar.id, r);
      if got.Ok? {
        WithRoleGoes(x, valid.ar, project, got.value, r);
        GoesOn(w, x, HandleWithApp(w, ar, project).w, ar.id, r);
      }
    }
  }

  lemma PermissionGoes(w: World, ar: Request, r: Request)
    requires Tame(w, r) && r.id != ar.id
    ensures FlowGoes(w, HandlePermission(w, ar), ar.id, r)
  {
    PauseGoes(w, ar.id, r);
    var (x, got) := GetApp(w, ar.spec.app);
    match got
    case Ok(project) =>
      WithAppGoes(x, ar, project, r);
      GoesOn(w, x, HandleWithApp(x, ar, project).w, ar.id, r);
    case Err(e) =>
      AppNotFoundGoes(x, ar, r);
      GoesOn(w, x, HandleAppNotFound(x, ar).w, ar.id, r);
  }

  // ---------------------------------------------------------------- the whole reconciliation

  lemma {:induction false} AddFinalizerGoes(w: World, ar: Request, attempts: nat, r: Request)
    requires Tame(w, r) && r.id != ar.id
    ensures StepGoes(w, AddFinalizer(w, ar, attempts), ar.id, r)
    decreases attempts
  {
    PauseGoes(w, ar.id, r);
    var (x, got) := GetRequest(w, ar.id);
    if got.Ok? {
      PutFinalizerGoes(x, got.value.(finalizer := true), r);
      var (y, copy, err) := PutFinalizer(x, got.value.(finalizer := true));
      GoesOn(w, x, y, ar.id, r);
      if err == Some(Conflict) && attempts > 1 {
        AddFinalizerGoes(y, copy, attempts - 1, r);
        GoesOn(w, y, AddFinalizer(y, copy, attempts - 1).w, ar.id, r);
      }
    }
  }

  lemma {:induction false} DropFinalizerGoes(w: World, ar: Request, attempts: nat, r: Request)
    requires Tame(w, r) && r.id != ar.id
    ensures StepGoes(w, DropFinalizer(w, ar, attempts), ar.id, r)
    decreases attempts
  {
    PauseGoes(w, ar.id, r);
    var (x, got) := GetRequest(w, ar.id);
    if got.Ok? {
      PutFinalizerGoes(x, got.value.(finalizer := false), r);
      var (y, copy, err) := PutFinalizer(x, got.value.(finalizer := false));
      GoesOn(w, x, y, ar.id, r);
      if err == Some(Conflict) && attempts > 1 {
        DropFinalizerGoes(y, copy, attempts - 1, r);
        GoesOn(w, y, DropFinalizer(y, copy, attempts - 1).w, ar.id, r);
      }
    }
  }

  lemma CleanupGoes(w: World, ar: Request, r: Request)
    requires Tame(w, r) && r.id != ar.id
    ensures Goes(w, Cleanup(w, ar).0, ar.id, r)
  {
    GoesNowhere(w, ar.id, r);
    RenderedRoleGoes(w, ar, ar.status.target, r);
    var (x, got) := RenderedRole(w, ar, ar.status.target);
    var rt := if got.Ok? then Some(got.value) else None;
    EditGoes(x, ar, RevokeAccess, rt, ATTEMPTS, r);
    GoesOn(w, x, EditProject(x, ar, RevokeAccess, rt, ATTEMPTS).0, ar.id, r);
  }

  lemma FinalizerGoes(w: World, ar: Request, r: Request)
    requires Tame(w, r) && r.id != ar.id
    ensures FlowGoes(w, HandleFinalizer(w, ar), ar.id, r)
  {
    GoesNowhere(w, ar.id, r);
    AddFinalizerGoes(w, ar, ATTEMPTS, r);
    CleanupGoes(w, ar, r);
    var x := Cleanup(w, ar).0;
    DropFinalizerGoes(x, ar, ATTEMPTS, r);
    GoesOn(w, x, DropFinalizer(x, ar, ATTEMPTS).w, ar.id, r);
  }

  lemma {:induction false} WriteTimeoutGoes(w: World, ar: Request, attempts: nat, r: Request)
    requires Tame(w, r) && r.id != ar.id
    ensures StepGoes(w, WriteTimeout(w, ar, attempts), ar.id, r)
    decreases attempts
  {
    var status := Recorded(ar.status, ar.spec.duration, Timeout, "AccessRequest timed out", w.store.now);
    PutStatusGoes(w, ar.(status := status), r);
    var (x, copy, err) := PutStatus(w, ar.(status := status));
    if err == Some(Conflict) && attempts > 1 {
      PauseGoes(x, ar.id, r);
      var (y, got) := GetRequest(x, copy.id);
      GoesOn(w, x, y, ar.id, r);
      if got.Ok? {
        WriteTimeoutGoes(y, got.value, attempts - 1, r);
        GoesOn(w, y, WriteTimeout(y, got.value, attempts - 1).w, ar.id, r);
      }
    }
  }

  lemma ConflictGoes(w: World, ar: Request, r: Request)
    requires Tame(w, r) && r.id != ar.id
    ensures StepGoes(w, HandleConflict(w, ar), ar.id, r)
  {
    PauseGoes(w, ar.id, r);
    var (x, got) := ListRequests(w, ar.ns, ar.spec.user, ar.spec.app);
    if got.Ok? && ValidateConflict(got.value, ar).Some? {
      var y := NoteConflict(x, ar);
      var message := ValidateConflict(got.value, ar).value;
      PutStatusGoes(y, ar.(status := Recorded(ar.status, ar.spec.duration, Invalid, message, y.store.now)), r);
      GoesOn(w, y, HandleConflict(w, ar).w, ar.id, r);
    }
  }

  lemma FinishGoes(w: World, ar: Request, state: State, r: Request)
    requires Tame(w, r) && r.id != ar.id
    ensures Goes(w, Finish(w, ar, state).w, ar.id, r)
  {
    GoesNowhere(w, ar.id, r);
    WriteTimeoutGoes(w, ar, ATTEMPTS, r);
  }

  lemma ResolveGoes(w: World, ar: Request, r: Request)
    requires Tame(w, r) && r.id != ar.id
    ensures Goes(w, Resolve(w, ar).w, ar.id, r)
  {
    PermissionGoes(w, ar, r);
    var flow := HandlePermission(w, ar);
    if flow.result.Ok? {
      FinishGoes(flow.w, flow.ar, flow.result.value, r);
      GoesOn(w, flow.w, Finish(flow.w, flow.ar, flow.result.value).w, ar.id, r);
    }
  }

  lemma ProceedGoes(w: World, ar: Request, r: Request)
    requires Tame(w, r) && r.id != ar.id
    ensures Goes(w, Proceed(w, ar).w, ar.id, r)
  {
    ConflictGoes(w, ar, r);
    var checked := HandleConflict(w, ar);
    if checked.err.None? {
      ResolveGoes(checked.w, checked.ar, r);
      GoesOn(w, checked.w, Resolve(checked.w, checked.ar).w, ar.id, r);
    }
  }

  lemma ContinueGoes(w: World, ar: Request, r: Request)
    requires Tame(w, r) && r.id != ar.id
    ensures Goes(w, Continue(w, ar).w, ar.id, r)
  {
    GoesNowhere(w, ar.id, r);
    DeleteGoes(w, ar.id, r);
    if HandleTTL(w, ar) == (w, Ok(false)) && !Concluded(ar.status.state) { ProceedGoes(w, ar, r); }
  }

  lemma CopyGoes(w: World, ar: Request, r: Request)
    requires Tame(w, r) && r.id != ar.id
    ensures Goes(w, FromCopy(w, ar).w, ar.id, r)
  {
    FinalizerGoes(w, ar, r);
    var final := HandleFinalizer(w, ar);
    if final.result == Ok(false) {
      ContinueGoes(final.w, final.ar, r);
      GoesOn(w, final.w, Continue(final.w, final.ar).w, ar.id, r);
    }
  }

  /** However its calls fare, a reconciliation in which other actors do nothing that concerns request `r`
      spares that request, its application, its template and its target project. */
  lemma ReconcileGoes(w: World, id: nat, r: Request)
    requires Tame(w, r) && r.id != id
    ensures Goes(w, Reconcile.Reconcile(w, id).w, id, r)
  {
    PauseGoes(w, id, r);
    var (x, got) := GetRequest(w, id);
    if got.Ok? {
      CopyGoes(x, got.value, r);
      GoesOn(w, x, FromCopy(x, got.value).w, id, r);
    }
  }

  // ---------------------------------------------------------------- when nobody acts

  /** Some request other than `id`; nothing is asked of it. */
  function Bystander(id: nat): Request {
    Request(id + 1, 0, "", 0, false, false, Spec(0, Ref("", ""), 0, Ref("", ""), ""), FRESH)
  }

  lemma FollowsOn(w: World, x: World, y: World, id: nat)
    requires Follows(w, x, id) && Follows(x, y, id)
    ensures Follows(w, y, id)
  {
  }

  lemma StillIsTame(w: World, r: Request)
    requires Still(w) && Keyed(w.store)
    ensures Tame(w, r)
  {
  }

  lemma PutStatusFollows(w: World, ar: Request)
    requires Still(w) && Keyed(w.store)
    ensures Follows(w, PutStatus(w, ar).0, ar.id) && PutStatus(w, ar).1.id == ar.id
  {
    StillIsTame(w, Bystander(ar.id));
    PutStatusGoes(w, ar, Bystander(ar.id));
  }

  lemma GrantFollows(w: World, ar: Request, rt: Rendered, message: string)
    requires Still(w) && Keyed(w.store)
    ensures Follows(w, Grant(w, ar, rt, message).w, ar.id)
  {
    StillIsTame(w, Bystander(ar.id));
    GrantGoes(w, ar, rt, message, Bystander(ar.id));
  }

  lemma PermissionFollows(w: World, ar: Request)
    requires Still(w) && Keyed(w.store)
    ensures Follows(w, HandlePermission(w, ar).w, ar.id) && HandlePermission(w, ar).ar.id == ar.id
  {
    StillIsTame(w, Bystander(ar.id));
    PermissionGoes(w, ar, Bystander(ar.id));
  }

  lemma CopyFollows(w: World, ar: Request)
    requires Still(w) && Keyed(w.store)
    ensures Follows(w, FromCopy(w, ar).w, ar.id)
  {
    StillIsTame(w, Bystander(ar.id));
    CopyGoes(w, ar, Bystander(ar.id));
  }

  /** However its calls fare, a reconciliation that nobody else interferes with touches no request but
      its own, no application, no template, and of projects only the roles. */
  lemma ReconcileFollows(w: World, id: nat)
    requires Still(w) && Keyed(w.store)
    ensures Follows(w, Reconcile.Reconcile(w, id).w, id)
  {
    StillIsTame(w, Bystander(id));
    ReconcileGoes(w, id, Bystander(id));
  }
}
