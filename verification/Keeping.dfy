/** Who takes a member out of a role? When nobody interferes and no call fails, exactly the reconciliations
    that revoke, and only from the role of the request they reconcile. Whoever shares that role of that
    project with it for the same user loses the membership too, granted or not. */
module Keeping {
  import opened Prelude
  import opened Templates
  import opened Roles
  import opened Requests
  import opened Cluster
  import opened Permission
  import opened Reconcile
  import opened Safety
  import opened Writes
  import opened CalmRuns
  import opened CalmVisits
  import opened StillRuns

  /** A user in a role of a project. */
  datatype Place = Place(key: Ref, name: string, user: string)

  predicate At(s: Store, m: Place) {
    Member(RolesAt(s, m.key), m.name, m.user)
  }

  /** The place the request's user has, or would have, under the template as it is stored. */
  predicate Own(s: Store, ar: Request, m: Place) {
    m.key == ProjectKey(ar) && m.name == RoleNow(s, ar) && m.user == ar.spec.user
  }

  // ---------------------------------------------------------------- the condition

  /** Permission handling of the request revokes, `state` being the one it is in by then. */
  predicate PermissionRevokes(cfg: Config, s: Store, ar: Request, state: State, reply: PluginReply) {
    if ar.spec.app !in s.apps then ar.status.target != "" && Renders(s, ar)
    else
      var project := s.apps[ar.spec.app];
      if project == "" then false
      else if state != Empty && ar.status.target != project then state == Granted && Renders(s, ar)
      else
        && Ref(ar.ns, project) in s.projects && Renders(s, ar) && Expiring(ar.status, s.now)
        && (cfg.plugin ==> reply != CallFailed)
  }

  /** The state after the conflict check. */
  function CheckedState(s: Store, ar: Request): State {
    if Unopposed(s, ar) then ar.status.state else Invalid
  }

  /** The reconciliation of the request revokes. */
  predicate Revokes(cfg: Config, s: Store, ar: Request, reply: PluginReply) {
    if ar.deleting then ar.finalizer && ar.status.state != Expired && Renders(s, ar)
    else !Concluded(ar.status.state) && PermissionRevokes(cfg, s, ar, CheckedState(s, ar), reply)
  }

  // ---------------------------------------------------------------- edits

  /** Of all memberships there were, exactly the request's own is gone if it was taken. */
  predicate TakenIff(s: Store, t: Store, ar: Request, m: Place, taken: bool) {
    At(s, m) ==> (!At(t, m) <==> taken && Own(s, ar, m))
  }

  lemma SameProjectsKeep(s: Store, t: Store, ar: Request, m: Place)
    requires t.projects == s.projects
    ensures TakenIff(s, t, ar, m, false)
  {
  }

  lemma OtherRolesSame(s: Store, t: Store, key: Ref, other: Ref)
    requires t.projects - {key} == s.projects - {key} && other != key
    ensures RolesAt(t, other) == RolesAt(s, other)
  {
    assert other in s.projects <==> other in s.projects - {key};
    assert other in t.projects <==> other in t.projects - {key};
  }

  lemma CalmTakes(w: World, n: nat, reply: PluginReply, ar: Request, rt: Rendered, m: Place)
    requires Calm(w, n, reply) && n >= 2 && RoleOf(ar, rt) == RoleNow(w.store, ar)
    ensures var (x, err) := EditProject(w, ar, RevokeAccess, Some(rt), ATTEMPTS);
      && err.None? && Calm(x, n - 2, reply) && TakenIff(w.store, x.store, ar, m, true)
  {
    if ProjectKey(ar) in w.store.projects {
      CalmEdit(w, n, reply, ar, RevokeAccess, rt);
      RevokeMembership(RolesAt(w.store, ProjectKey(ar)), RoleOf(ar, rt), ar.spec.user, rt);
      var x := EditProject(w, ar, RevokeAccess, Some(rt), ATTEMPTS).0;
      if m.key != ProjectKey(ar) { OtherRolesSame(w.store, x.store, ProjectKey(ar), m.key); }
    } else {
      CalmPause(w, n, reply);
    }
  }

  lemma EditAdds(edit: Edit, roles: seq<ProjectRole>, ar: Request, rt: Rendered, name: string, user: string)
    requires edit != RevokeAccess && Member(roles, name, user)
    ensures Member(Edited(edit, roles, ar, rt), name, user)
  {
    GrantMembership(roles, RoleOf(ar, rt), ar.spec.user, rt);
    GrantEditIsSyncEdit(roles, RoleOf(ar, rt), ar.spec.user, rt);
    SyncKeepsMembers(roles, RoleOf(ar, rt), rt);
  }

  /** A grant or a sync takes nobody away. */
  lemma CalmKeeps(w: World, n: nat, reply: PluginReply, ar: Request, edit: Edit, rt: Rendered, m: Place)
    requires Calm(w, n, reply) && n >= 2 && edit != RevokeAccess
    ensures var x := EditProject(w, ar, edit, Some(rt), ATTEMPTS).0;
      TakenIff(w.store, x.store, ar, m, false) && n - 2 <= |x.script| && Calm(x, n - 2, reply)
  {
    var x := EditProject(w, ar, edit, Some(rt), ATTEMPTS).0;
    if ProjectKey(ar) in w.store.projects {
      CalmEdit(w, n, reply, ar, edit, rt);
      if m.key != ProjectKey(ar) {
        OtherRolesSame(w.store, x.store, ProjectKey(ar), m.key);
      } else if At(w.store, m) {
        EditAdds(edit, RolesAt(w.store, ProjectKey(ar)), ar, rt, m.name, m.user);
      }
    } else {
      CalmPause(w, n, reply);
    }
  }

  /** A status update takes at most one call and touches no project. */
  lemma StatusKeeps(w: World, n: nat, reply: PluginReply, ar: Request, state: State, message: string, hash: Hash)
    requires Calm(w, n, reply) && n >= 1
    ensures UpdateStatus(w, ar, state, message, hash).w.store.projects == w.store.projects
  {
    CalmPause(w, n, reply);
  }

  // ---------------------------------------------------------------- permission handling

  /** The same request under two stores with the same template has the same place of its own. */
  lemma OwnStays(s: Store, t: Store, u: Store, ar: Request, m: Place, taken: bool)
    requires TakenIff(s, t, ar, m, taken) && u.projects == t.projects
    ensures TakenIff(s, u, ar, m, taken)
  {
  }

  lemma AppNotFoundTakes(w: World, n: nat, reply: PluginReply, ar: Request, m: Place)
    requires Calm(w, n, reply) && n >= 4
    ensures TakenIff(w.store, HandleAppNotFound(w, ar).w.store, ar, m, ar.status.target != "" && Renders(w.store, ar))
  {
    if ar.status.target == "" {
      StatusKeeps(w, n, reply, ar, Invalid, "application not found", NoHash);
    } else {
      CalmRender(w, n, reply, ar);
      var (x, got) := RenderedRole(w, ar, ar.status.target);
      if got.Ok? {
        CalmTakes(x, n - 1, reply, ar, got.value, m);
        var y := EditProject(x, ar, RevokeAccess, Some(got.value), ATTEMPTS).0;
        StatusKeeps(y, n - 3, reply, ar, Invalid, "application not found", HashOf(got.value));
      }
    }
  }

  lemma MovedTakes(w: World, n: nat, reply: PluginReply, ar: Request, project: string, m: Place)
    requires Calm(w, n, reply) && n >= 4
    ensures TakenIff(w.store, HandleProjectChanged(w, ar, project).w.store, ar, m,
                     ar.status.state == Granted && Renders(w.store, ar))
  {
    CalmRender(w, n, reply, ar);
    var (x, got) := RenderedRole(w, ar, ar.status.target);
    if got.Ok? {
      var message := "The application project changed from " + ar.status.target + " to " + project + ".";
      if ar.status.state == Granted {
        CalmTakes(x, n - 1, reply, ar, got.value, m);
        var y := EditProject(x, ar, RevokeAccess, Some(got.value), ATTEMPTS).0;
        StatusKeeps(y, n - 3, reply, ar, Invalid, message, HashOf(got.value));
      } else {
        StatusKeeps(x, n - 1, reply, ar, Invalid, message, HashOf(got.value));
      }
    }
  }

  lemma ExpiryTakes(w: World, n: nat, reply: PluginReply, ar: Request, rt: Rendered, m: Place)
    requires Calm(w, n, reply) && n >= 4 && RoleOf(ar, rt) == RoleNow(w.store, ar)
    ensures TakenIff(w.store, HandleAccessExpired(w, ar, rt).w.store, ar, m, w.cfg.plugin ==> reply != CallFailed)
  {
    CalmPause(w, n, reply);
    var (x, said) := if w.cfg.plugin then CallPlugin(w) else (w, NoAnswer);
    if !said.CallFailed? {
      CalmTakes(x, n - 1, reply, ar, rt, m);
      var y := EditProject(x, ar, RevokeAccess, Some(rt), ATTEMPTS).0;
      StatusKeeps(y, n - 3, reply, ar, Expired, if said.Answer? then said.message else "", HashOf(rt));
    }
  }

  lemma GrantKeeps(w: World, n: nat, reply: PluginReply, ar: Request, rt: Rendered, message: string, m: Place)
    requires Calm(w, n, reply) && n >= 3
    ensures TakenIff(w.store, Grant(w, ar, rt, message).w.store, ar, m, false)
  {
    CalmKeeps(w, n, reply, ar, GrantAccess, rt, m);
    var (x, err) := EditProject(w, ar, GrantAccess, Some(rt), ATTEMPTS);
    var state := if err.None? then Granted else if err.value == NotFound then Invalid else Denied;
    var details := if err.None? then message else "Error granting Argo CD Access: " + ErrorText(err.value);
    StatusKeeps(x, n - 2, reply, ar, state, details, HashOf(rt));
  }

  lemma DecisionKeeps(w: World, n: nat, reply: PluginReply, ar: Request, rt: Rendered, m: Place)
    requires Calm(w, n, reply) && n >= 4
    ensures TakenIff(w.store, Decide(w, ar, rt).w.store, ar, m, false)
  {
    CalmPause(w, n, reply);
    var (x, got) := Allowed(w, ar);
    if got.Ok? {
      var decision := got.value;
      assert Calm(x, n - 1, reply);
      CalmKeeps(x, n - 1, reply, ar, SyncAccess, rt, m);
      StatusKeeps(x, n - 1, reply, ar, Denied, decision.message, HashOf(rt));
      StatusKeeps(x, n - 1, reply, ar, Requested, decision.message, HashOf(rt));
      GrantKeeps(x, n - 1, reply, ar, rt, decision.message, m);
    }
  }

  lemma InitialiseKeeps(w: World, n: nat, reply: PluginReply, ar: Request, project: string, rt: Rendered)
    requires Calm(w, n, reply) && n >= 1
    ensures var init := Initialise(w, ar, project, rt);
      init.w.store.projects == w.store.projects && Calm(init.w, n - 1, reply)
  {
    CalmPause(w, n, reply);
  }

  lemma WithRoleTakes(w: World, n: nat, reply: PluginReply, ar: Request, project: string, rt: Rendered, m: Place)
    requires Calm(w, n, reply) && n >= 5 && RoleOf(ar, rt) == RoleNow(w.store, ar)
    ensures TakenIff(w.store, HandleWithRole(w, ar, project, rt).w.store, ar, m,
                     Expiring(ar.status, w.store.now) && (w.cfg.plugin ==> reply != CallFailed))
  {
    if Expiring(ar.status, w.store.now) {
      ExpiryTakes(w, n, reply, ar, rt, m);
    } else {
      InitialiseKeeps(w, n, reply, ar, project, rt);
      var init := Initialise(w, ar, project, rt);
      DecisionKeeps(init.w, n - 1, reply, init.ar, rt, m);
    }
  }

  /** The application's project, and what the request's target has to do with it. */
  predicate Placed(ar: Request) {
    && (ar.status.expiresAt.Some? ==> ar.status.state != Empty)
    && (ar.status.state == Empty ==> ar.status.target == "")
  }

  lemma SameProjectTakes(w: World, n: nat, reply: PluginReply, ar: Request, project: string, m: Place)
    requires Calm(w, n, reply) && n >= 7 && Placed(ar) && project != ""
    requires ar.status.state == Empty || ar.status.target == project
    ensures TakenIff(w.store, HandleWithApp(w, ar, project).w.store, ar, m,
                     && Ref(ar.ns, project) in w.store.projects && Renders(w.store, ar)
                     && Expiring(ar.status, w.store.now) && (w.cfg.plugin ==> reply != CallFailed))
  {
    CalmPause(w, n, reply);
    var x := Next(w);
    if Ref(ar.ns, project) in w.store.projects {
      CalmPause(x, n - 1, reply);
      var (y, got) := RenderedRole(x, ar, project);
      if got.Ok? { WithRoleTakes(y, n - 2, reply, ar, project, got.value, m); }
    } else {
      StatusKeeps(x, n - 1, reply, ar, Invalid, "Argo CD Project " + ar.ns + "/" + project + " not found", NoHash);
    }
  }

  lemma WithAppTakes(w: World, n: nat, reply: PluginReply, ar: Request, project: string, m: Place)
    requires Calm(w, n, reply) && n >= 7 && Placed(ar)
    requires ar.spec.app in w.store.apps && w.store.apps[ar.spec.app] == project
    ensures TakenIff(w.store, HandleWithApp(w, ar, project).w.store, ar, m,
                     PermissionRevokes(w.cfg, w.store, ar, ar.status.state, reply))
  {
    if project == "" {
      StatusKeeps(NoteProjectless(w, ar), n, reply, ar, Invalid, "Application does not have a project defined", NoHash);
    } else if ar.status.state != Empty && ar.status.target != project {
      MovedTakes(w, n, reply, ar, project, m);
    } else {
      SameProjectTakes(w, n, reply, ar, project, m);
    }
  }

  lemma PermissionTakes(w: World, n: nat, reply: PluginReply, ar: Request, m: Place)
    requires Calm(w, n, reply) && n >= 8 && Placed(ar)
    ensures TakenIff(w.store, HandlePermission(w, ar).w.store, ar, m,
                     PermissionRevokes(w.cfg, w.store, ar, ar.status.state, reply))
  {
    CalmPause(w, n, reply);
    if ar.spec.app in w.store.apps {
      WithAppTakes(Next(w), n - 1, reply, ar, w.store.apps[ar.spec.app], m);
    } else {
      AppNotFoundTakes(Next(w), n - 1, reply, ar, m);
    }
  }

  // ---------------------------------------------------------------- the whole reconciliation

  lemma {:induction false} TimeoutKeeps(w: World, ar: Request, attempts: nat)
    requires Still(w)
    ensures WriteTimeout(w, ar, attempts).w.store.projects == w.store.projects
    decreases attempts
  {
    StillPause(w);
    var status := Recorded(ar.status, ar.spec.duration, Timeout, "AccessRequest timed out", w.store.now);
    var (x, copy, err) := PutStatus(w, ar.(status := status));
    if err == Some(Conflict) && attempts > 1 {
      StillPause(x);
      var (y, got) := GetRequest(x, copy.id);
      if got.Ok? { TimeoutKeeps(y, got.value, attempts - 1); }
    }
  }

  lemma FinishTakesNothing(w: World, ar: Request, state: State)
    requires Still(w)
    ensures Finish(w, ar, state).w.store.projects == w.store.projects
  {
    TimeoutKeeps(w, ar, ATTEMPTS);
  }

  lemma ResolveTakes(w: World, n: nat, reply: PluginReply, ar: Request, m: Place)
    requires Calm(w, n, reply) && n >= 8 && Placed(ar) && Still(w) && Keyed(w.store)
    ensures TakenIff(w.store, Resolve(w, ar).w.store, ar, m,
                     PermissionRevokes(w.cfg, w.store, ar, ar.status.state, reply))
  {
    PermissionTakes(w, n, reply, ar, m);
    PermissionFollows(w, ar);
    var flow := HandlePermission(w, ar);
    if flow.result.Ok? { FinishTakesNothing(flow.w, flow.ar, flow.result.value); }
  }

  /** The copy after the conflict check has marked the request invalid. */
  lemma MarkedCopy(w: World, n: nat, reply: PluginReply, ar: Request) returns (x: World, copy: Request)
    requires Calm(w, n, reply) && n >= 2 && Still(w) && !Unopposed(w.store, ar)
    requires ar.id in w.store.requests && w.store.requests[ar.id] == ar
    ensures HandleConflict(w, ar) == Step(x, copy, None) && Calm(x, n - 2, reply) && Still(x) && x.cfg == w.cfg
    ensures copy == ar.(status := copy.status, version := copy.version)
    ensures copy.status == ar.status.(state := Invalid, history := copy.status.history)
    ensures x.store.(rev := w.store.rev, requests := w.store.requests) == w.store
    ensures x.store.requests == w.store.requests[ar.id := copy]
  {
    CalmPause(w, n, reply);
    StillPause(w);
    var message := ValidateConflict(Siblings(w.store, ar.ns, ar.spec.user, ar.spec.app), ar).value;
    var status := Recorded(ar.status, ar.spec.duration, Invalid, message, w.store.now);
    var y := NoteConflict(Next(w), ar);
    CalmPutStatus(y, n - 1, reply, ar, status);
    StillPause(y);
    var (x', copy', err) := PutStatus(y, ar.(status := status));
    x, copy := x', copy';
  }

  lemma ProceedTakes(w: World, n: nat, reply: PluginReply, ar: Request, m: Place)
    requires Calm(w, n, reply) && n >= 10 && Placed(ar) && Still(w) && Keyed(w.store)
    requires ar.id in w.store.requests && w.store.requests[ar.id] == ar
    ensures TakenIff(w.store, Proceed(w, ar).w.store, ar, m,
                     PermissionRevokes(w.cfg, w.store, ar, CheckedState(w.store, ar), reply))
  {
    if Unopposed(w.store, ar) {
      UnopposedProceeds(w, n, reply, ar);
      StillPause(w);
      CalmPause(w, n, reply);
      ResolveTakes(Next(w), n - 1, reply, ar, m);
    } else {
      var x, copy := MarkedCopy(w, n, reply, ar);
      ResolveTakes(x, n - 2, reply, copy, m);
      assert Proceed(w, ar) == Resolve(x, copy);
    }
  }

  lemma ConcludedTakesNothing(w: World, n: nat, reply: PluginReply, ar: Request)
    requires Calm(w, n, reply) && n >= 1 && Concluded(ar.status.state)
    ensures Continue(w, ar).w.store.projects == w.store.projects
  {
    CalmPause(w, n, reply);
  }

  lemma ContinueTakes(w: World, n: nat, reply: PluginReply, ar: Request, m: Place)
    requires Calm(w, n, reply) && n >= 10 && Placed(ar) && Still(w) && Keyed(w.store)
    requires ar.id in w.store.requests && w.store.requests[ar.id] == ar
    ensures TakenIff(w.store, Continue(w, ar).w.store, ar, m,
                     !Concluded(ar.status.state)
                     && PermissionRevokes(w.cfg, w.store, ar, CheckedState(w.store, ar), reply))
  {
    if Concluded(ar.status.state) {
      ConcludedTakesNothing(w, n, reply, ar);
    } else {
      ProceedTakes(w, n, reply, ar, m);
      assert Continue(w, ar) == Proceed(w, ar);
    }
  }

  /** A request never initialised holds nothing that could be revoked. */
  lemma NewRevokesNothing(cfg: Config, s: Store, ar: Request, state: State, reply: PluginReply)
    requires Placed(ar) && ar.status.state == Empty && state in {Empty, Invalid}
    ensures !PermissionRevokes(cfg, s, ar, state, reply)
  {
  }

  lemma ProtectedTakes(w: World, n: nat, reply: PluginReply, ar: Request, m: Place)
    requires Calm(w, n, reply) && n >= 12 && Placed(ar) && Still(w) && Keyed(w.store)
    requires ar.id in w.store.requests && w.store.requests[ar.id] == ar
    requires !ar.deleting && !ar.finalizer && ar.status.state == Empty
    ensures TakenIff(w.store, FromCopy(w, ar).w.store, ar, m, false)
  {
    AddsFinalizer(w, n, reply, ar);
    var (x, copy) := Protected(w, ar);
    ContinueTakes(x, n - 2, reply, copy, m);
    NewRevokesNothing(x.cfg, x.store, copy, CheckedState(x.store, copy), reply);
    assert FromCopy(w, ar) == Continue(x, copy);
  }

  lemma {:induction false} DropTakesNothing(w: World, ar: Request, attempts: nat)
    requires Still(w)
    ensures DropFinalizer(w, ar, attempts).w.store.projects == w.store.projects
    decreases attempts
  {
    StillPause(w);
    var (x, got) := GetRequest(w, ar.id);
    if got.Ok? {
      StillPause(x);
      var (y, copy, err) := PutFinalizer(x, got.value.(finalizer := false));
      if err == Some(Conflict) && attempts > 1 { DropTakesNothing(y, copy, attempts - 1); }
    }
  }

  lemma CleanupTakes(w: World, n: nat, reply: PluginReply, ar: Request, m: Place)
    requires Calm(w, n, reply) && n >= 3
    ensures TakenIff(w.store, Cleanup(w, ar).0.store, ar, m, ar.status.state != Expired && Renders(w.store, ar))
  {
    if ar.status.state != Expired {
      CalmRender(w, n, reply, ar);
      var (x, got) := RenderedRole(w, ar, ar.status.target);
      if got.Ok? { CalmTakes(x, n - 1, reply, ar, got.value, m); } else { CalmPause(x, n - 1, reply); }
    }
  }

  lemma DeletedTakes(w: World, n: nat, reply: PluginReply, ar: Request, m: Place)
    requires Calm(w, n, reply) && n >= 3 && Still(w) && Keyed(w.store) && ar.deleting && ar.finalizer
    ensures TakenIff(w.store, FromCopy(w, ar).w.store, ar, m, ar.status.state != Expired && Renders(w.store, ar))
  {
    CleanupTakes(w, n, reply, ar, m);
    var (x, err) := Cleanup(w, ar);
    StillIsTame(w, Bystander(ar.id));
    CleanupGoes(w, ar, Bystander(ar.id));
    DropTakesNothing(x, ar, ATTEMPTS);
  }

  lemma CopyTakes(w: World, n: nat, reply: PluginReply, ar: Request, m: Place)
    requires Calm(w, n, reply) && n >= 12 && Still(w) && StoreOk(w.store)
    requires ar.id in w.store.requests && w.store.requests[ar.id] == ar
    ensures TakenIff(w.store, FromCopy(w, ar).w.store, ar, m, Revokes(w.cfg, w.store, ar, reply))
  {
    assert RequestOk(w.store, ar);
    if ar.deleting {
      DeletedTakes(w, n, reply, ar, m);
    } else if ar.finalizer {
      ContinueTakes(w, n, reply, ar, m);
      assert FromCopy(w, ar) == Continue(w, ar);
    } else {
      ProtectedTakes(w, n, reply, ar, m);
      NewRevokesNothing(w.cfg, w.store, ar, CheckedState(w.store, ar), reply);
    }
  }

  /** When nobody interferes and no call fails, a member loses its role in a reconciliation exactly when
      that reconciliation revokes and the place is that of the request it is about. */
  lemma LostIff(w: World, reply: PluginReply, ar: Request, m: Place)
    requires Calm(w, 13, reply) && Still(w) && StoreOk(w.store)
    requires ar.id in w.store.requests && w.store.requests[ar.id] == ar && At(w.store, m)
    ensures !At(Reconcile.Reconcile(w, ar.id).w.store, m) <==>
              Own(w.store, ar, m) && Revokes(w.cfg, w.store, ar, reply)
  {
    CalmPause(w, 13, reply);
    StillPause(w);
    CopyTakes(Next(w), 12, reply, ar, m);
    assert Reconcile.Reconcile(w, ar.id) == FromCopy(Next(w), ar);
  }

  // ---------------------------------------------------------------- a granted request dispossessed

  /** The two requests have the same role of the same project for the same user. */
  predicate SharedPlace(s: Store, a: Request, b: Request) {
    Own(s, b, Place(ProjectKey(a), a.status.roleName, a.spec.user))
  }

  /** A granted request with its user in the role stays granted through the reconciliation of another,
      and loses its user exactly when the other has the same place and is revoked. */
  lemma DispossessedIff(w: World, reply: PluginReply, a: Request, b: Request)
    requires Calm(w, 13, reply) && Still(w) && StoreOk(w.store) && a.id != b.id
    requires a.id in w.store.requests && w.store.requests[a.id] == a && a.status.state == Granted
    requires b.id in w.store.requests && w.store.requests[b.id] == b && !Removed(w.store, a)
    ensures var t := Reconcile.Reconcile(w, b.id).w.store;
      && a.id in t.requests && t.requests[a.id] == a
      && (Removed(t, a) <==> SharedPlace(w.store, a, b) && Revokes(w.cfg, w.store, b, reply))
  {
    LostIff(w, reply, b, Place(ProjectKey(a), a.status.roleName, a.spec.user));
    ReconcileFollows(w, b.id);
    var t := Reconcile.Reconcile(w, b.id).w.store;
    assert a.id in w.store.requests - {b.id};
    assert a.id in t.requests - {b.id};
  }

  // ---------------------------------------------------------------- kept until it ends

  /** The requests are as they were, and whoever was in that place still is. */
  predicate Untouched(s: Store, t: Store, m: Place) {
    t.requests == s.requests && (At(s, m) ==> At(t, m))
  }

  lemma StillSync(w: World, ar: Request, rt: Rendered, m: Place)
    requires Still(w)
    ensures Untouched(w.store, EditProject(w, ar, SyncAccess, Some(rt), ATTEMPTS).0.store, m)
  {
    StillPause(w);
    var key := ProjectKey(ar);
    var (x, got) := GetProject(w, key);
    if got.Ok? && !Skips(SyncAccess, got.value.roles, ar, rt) {
      StillPause(x);
      var roles := Edited(SyncAccess, got.value.roles, ar, rt);
      var y := PatchProject(x, key, got.value.version, roles).0;
      assert EditProject(w, ar, SyncAccess, Some(rt), ATTEMPTS) == PatchProject(x, key, got.value.version, roles);
      if m.key == key && At(w.store, m) { EditAdds(SyncAccess, got.value.roles, ar, rt, m.name, m.user); }
    }
  }

  /** The request is granted and its ExpiresAt has not passed. */
  predicate InTime(ar: Request, now: int) {
    ar.status.state == Granted && ar.status.expiresAt.Some? && now <= ar.status.expiresAt.value
  }

  lemma RoleUntouched(w: World, ar: Request, project: string, rt: Rendered, m: Place)
    requires Still(w) && InTime(ar, w.store.now)
    ensures var flow := HandleWithRole(w, ar, project, rt);
      Untouched(w.store, flow.w.store, m) && flow.ar == ar
  {
    StillPause(w);
    var (x, got) := Allowed(w, ar);
    StillSync(x, ar, rt, m);
  }

  lemma AppUntouched(w: World, ar: Request, m: Place)
    requires Still(w) && InTime(ar, w.store.now)
    requires ar.status.target != "" && ProjectKey(ar) in w.store.projects
    ensures var flow := HandleWithApp(w, ar, ar.status.target);
      Untouched(w.store, flow.w.store, m) && flow.ar == ar
  {
    StillPause(w);
    var x := Rest(w);
    StillPause(x);
    var (y, got) := RenderedRole(x, ar, ar.status.target);
    if got.Ok? { RoleUntouched(y, ar, ar.status.target, got.value, m); }
  }

  lemma GrantedUntouched(w: World, ar: Request, m: Place)
    requires Still(w) && InTime(ar, w.store.now)
    requires ar.status.target != "" && ProjectKey(ar) in w.store.projects
    requires ar.spec.app in w.store.apps && w.store.apps[ar.spec.app] == ar.status.target
    ensures var flow := HandlePermission(w, ar);
      Untouched(w.store, flow.w.store, m) && flow.ar == ar
  {
    StillPause(w);
    AppUntouched(Rest(w), ar, m);
  }

  lemma ResolveUntouched(w: World, ar: Request, m: Place)
    requires Still(w) && InTime(ar, w.store.now)
    requires ar.status.target != "" && ProjectKey(ar) in w.store.projects
    requires ar.spec.app in w.store.apps && w.store.apps[ar.spec.app] == ar.status.target
    ensures Untouched(w.store, Resolve(w, ar).w.store, m)
  {
    GrantedUntouched(w, ar, m);
    var flow := HandlePermission(w, ar);
    if flow.result.Ok? { FinishKeeps(flow.w, flow.ar, flow.result.value); }
  }

  /** As long as its ExpiresAt has not passed, a granted request in its own project without a conflict
      is left as it is by its reconciliations, and its user in the role, whatever calls fail and
      whatever the plugin replies. */
  lemma KeptUntilExpiry(w: World, ar: Request)
    requires Still(w) && ar.id in w.store.requests && w.store.requests[ar.id] == ar && Unopposed(w.store, ar)
    requires ar.status.state == Granted && ar.finalizer && !ar.deleting
    requires ar.status.expiresAt.Some? && w.store.now <= ar.status.expiresAt.value
    requires ar.status.target != "" && ProjectKey(ar) in w.store.projects && !Removed(w.store, ar)
    requires ar.spec.app in w.store.apps && w.store.apps[ar.spec.app] == ar.status.target
    ensures var t := Reconcile.Reconcile(w, ar.id).w.store;
      t.requests == w.store.requests && !Removed(t, ar)
  {
    var m := Place(ProjectKey(ar), ar.status.roleName, ar.spec.user);
    StillPause(w);
    var (x, got) := GetRequest(w, ar.id);
    if got.Ok? {
      StillPause(x);
      if Head(x).outcome.Succeed? {
        ResolveUntouched(Rest(x), ar, m);
        assert HandleConflict(x, ar) == Step(Rest(x), ar, None);
      }
      assert FromCopy(x, ar) == Proceed(x, ar);
    }
  }
}
