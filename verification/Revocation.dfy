/** Is a granted user's membership taken away before the request is recorded as ended? */
module Revocation {
  import opened Prelude
  import opened Templates
  import opened Requests
  import opened Cluster
  import opened Permission
  import opened Reconcile
  import opened Safety
  import opened Outside
  import opened Writes
  import opened Edits
  import opened PermissionSafety
  import opened OneInFlight
  import opened CalmRuns
  import opened CalmVisits
  import opened HazardRuns

  // ---------------------------------------------------------------- a project move, a missing application

  lemma UpdateKeepsProjects(w: World, ar: Request, state: State, message: string, hash: Hash)
    ensures var x, y := Pause(w).0, UpdateStatus(w, ar, state, message, hash).w;
      y == w || (y.ev == x.ev && y.store.projects == x.store.projects)
  {
  }

  /** Writing a status touches no project, so a removed user stays away. */
  lemma UpdateKeepsGone(w: World, ar: Request, state: State, message: string, hash: Hash, key: Ref, name: string)
    requires Sound(w) && Gone(w.store, key, name, ar.spec.user) && Ephemeral(name)
    requires UpdateStatus(w, ar, state, message, hash).w.ev.clean
    ensures Gone(UpdateStatus(w, ar, state, message, hash).w.store, key, name, ar.spec.user)
  {
    var x, y := Pause(w).0, UpdateStatus(w, ar, state, message, hash).w;
    UpdateKeepsProjects(w, ar, state, message, hash);
    if y != w {
      PauseSound(w);
      assert RolesAt(y.store, key) == RolesAt(x.store, key);
    }
  }

  lemma RevokedIsAway(w: World, ar: Request, rt: Rendered, message: string, hash: Hash)
    requires Sound(w) && Loaded(w.store, ar) && ar.status.target != ""
    requires w.ev.clean ==> NamedTemplate(w.cfg.names, ar, rt)
    ensures var (w1, err) := EditProject(w, ar, RevokeAccess, Some(rt), ATTEMPTS);
      var step := UpdateStatus(w1, ar, Invalid, message, hash);
      err.None? && step.w.ev.clean && w1.ev.clean ==> Removed(step.w.store, ar)
  {
    EditableHere(w, ar, RevokeAccess, rt);
    EditProjectSound(w, ar, RevokeAccess, rt, ATTEMPTS);
    var (w1, err) := EditProject(w, ar, RevokeAccess, Some(rt), ATTEMPTS);
    LoadedFacts(w1, ar);
    if err.None? && UpdateStatus(w1, ar, Invalid, message, hash).w.ev.clean && w1.ev.clean {
      UpdateKeepsGone(w1, ar, Invalid, message, hash, ProjectKey(ar), RoleName(rt.name, ar.spec.app));
    }
  }

  lemma CleanBefore(w: World, ar: Request, state: State, message: string, hash: Hash)
    requires Sound(w) && UpdateStatus(w, ar, state, message, hash).w.ev.clean
    ensures w.ev.clean
  {
    PauseSound(w);
  }

  lemma MissingAppRemoves(w: World, ar: Request)
    requires Sound(w) && Loaded(w.store, ar) && ar.status.target != ""
    requires HandleAppNotFound(w, ar).err.None? && HandleAppNotFound(w, ar).w.ev.clean
    ensures Removed(HandleAppNotFound(w, ar).w.store, ar)
  {
    RenderedRoleSound(w, ar, ar.status.target);
    var (w1, got) := RenderedRole(w, ar, ar.status.target);
    var rt := got.value;
    EditableHere(w1, ar, RevokeAccess, rt);
    EditProjectSound(w1, ar, RevokeAccess, rt, ATTEMPTS);
    CleanBefore(EditProject(w1, ar, RevokeAccess, Some(rt), ATTEMPTS).0, ar, Invalid,
                "application not found", HashOf(rt));
    RevokedIsAway(w1, ar, rt, "application not found", HashOf(rt));
  }

  lemma MovedProjectRemoves(w: World, ar: Request, project: string)
    requires Sound(w) && Loaded(w.store, ar) && ar.status.target != "" && ar.status.state == Granted
    requires HandleProjectChanged(w, ar, project).err.None? && HandleProjectChanged(w, ar, project).w.ev.clean
    ensures Removed(HandleProjectChanged(w, ar, project).w.store, ar)
  {
    RenderedRoleSound(w, ar, ar.status.target);
    var (w1, got) := RenderedRole(w, ar, ar.status.target);
    var rt := got.value;
    var message := "The application project changed from " + ar.status.target + " to " + project + ".";
    EditableHere(w1, ar, RevokeAccess, rt);
    EditProjectSound(w1, ar, RevokeAccess, rt, ATTEMPTS);
    CleanBefore(EditProject(w1, ar, RevokeAccess, Some(rt), ATTEMPTS).0, ar, Invalid, message, HashOf(rt));
    RevokedIsAway(w1, ar, rt, message, HashOf(rt));
  }

  lemma AbsentProjectRemoves(w: World, ar: Request)
    requires Sound(w) && Loaded(w.store, ar) && ar.status.target != ""
    requires GetProject(w, ProjectKey(ar)).1 == Err(NotFound)
    ensures var w1 := GetProject(w, ProjectKey(ar)).0;
      forall message ::
        var step := UpdateStatus(w1, ar, Invalid, message, NoHash);
        step.w.ev.clean ==> Removed(step.w.store, ar)
  {
    PauseSound(w);
    var w1 := GetProject(w, ProjectKey(ar)).0;
    LoadedFacts(w1, ar);
    forall message | UpdateStatus(w1, ar, Invalid, message, NoHash).w.ev.clean
      ensures Removed(UpdateStatus(w1, ar, Invalid, message, NoHash).w.store, ar)
    {
      CleanBefore(w1, ar, Invalid, message, NoHash);
      RoleNameIsEphemeral(w1.cfg.names[ar.spec.template], ar.spec.app);
      UpdateKeepsGone(w1, ar, Invalid, message, NoHash, ProjectKey(ar), ar.status.roleName);
    }
  }

  lemma InvalidProjectRemoves(w: World, ar: Request, project: string)
    requires Sound(w) && Loaded(w.store, ar) && ar.status.target != "" && ar.status.state == Granted
    requires project != ""
    requires ValidateProject(w, ar, project).result == Ok(false) && ValidateProject(w, ar, project).w.ev.clean
    ensures Removed(ValidateProject(w, ar, project).w.store, ar)
  {
    if ar.status.target != project {
      MovedProjectRemoves(w, ar, project);
    } else {
      AbsentProjectRemoves(w, ar);
    }
  }

  lemma GrantedStaysOrExpires(w: World, ar: Request, project: string)
    requires ar.status.state == Granted && HandleWithApp(w, ar, project).result == Ok(Invalid)
    ensures ValidateProject(w, ar, project).result == Ok(false)
    ensures HandleWithApp(w, ar, project).w == ValidateProject(w, ar, project).w
  {
    var valid := ValidateProject(w, ar, project);
    if valid.result == Ok(true) {
      assert valid.ar == ar;
      var (w1, got) := RenderedRole(w, ar, project);
      assert forall x, rt, d :: Follow(x, ar, rt, d).result != Ok(Invalid);
    }
  }

  /** However permission handling is disturbed, when it answers that a granted request is invalid,
      the user is out of the role in the old target project or the application names no project.
      A request marked invalid by the conflict check before, and an invalid state stored by a write
      whose answer is lost, are the business of `Runs.EveryConclusionRevokes`. */
  lemma GrantedMadeInvalid(w: World, ar: Request)
    requires Sound(w) && Loaded(w.store, ar) && ar.status.state == Granted
    requires HandlePermission(w, ar).result == Ok(Invalid) && HandlePermission(w, ar).w.ev.clean
    ensures Removed(HandlePermission(w, ar).w.store, ar) || GetApp(w, ar.spec.app).1 == Ok("")
  {
    LoadedFacts(w, ar);
    PauseSound(w);
    var (w1, got) := GetApp(w, ar.spec.app);
    match got
    case Ok(project) =>
      GrantedStaysOrExpires(w1, ar, project);
      if project != "" { InvalidProjectRemoves(w1, ar, project); }
    case Err(_) => MissingAppRemoves(w1, ar);
  }

  lemma NamelessKeepsMembers(w: World, reply: PluginReply, ar: Request)
    requires Calm(w, 2, reply) && Loaded(w.store, ar) && ar.status.state == Granted
    requires ar.spec.app in w.store.apps && w.store.apps[ar.spec.app] == ""
    ensures HandlePermission(w, ar).w.store.projects == w.store.projects
  {
    CalmPause(w, 2, reply);
    CalmPause(Next(w), 1, reply);
  }

  /** A granted request that permission handling finds invalid loses its membership exactly when its
      application does not exist or names a project: with an empty project name it is concluded and
      the user stays. `Membership.StrandedIff` decides it for whole reconciliations. */
  lemma RemovedUnlessProjectEmpty(w: World, reply: PluginReply, ar: Request)
    requires Sound(w) && Loaded(w.store, ar) && ar.status.state == Granted && !Removed(w.store, ar)
    requires Calm(w, 2, reply)
    requires HandlePermission(w, ar).result == Ok(Invalid) && HandlePermission(w, ar).w.ev.clean
    ensures Removed(HandlePermission(w, ar).w.store, ar)
        <==> ar.spec.app !in w.store.apps || w.store.apps[ar.spec.app] != ""
  {
    CalmPause(w, 2, reply);
    if ar.spec.app in w.store.apps && w.store.apps[ar.spec.app] == "" {
      NamelessKeepsMembers(w, reply, ar);
    } else {
      GrantedMadeInvalid(w, ar);
    }
  }

  // ---------------------------------------------------------------- a granted request in conflict

  lemma DeniedAfterConflict(w: World, n: nat, message: string, ar: Request, rt: Rendered)
    requires Calm(w, n, Answer(PluginDenied, message)) && n >= 7 && Ready(w.store, ar, rt) && w.cfg.plugin
    requires ar.status.state == Invalid && !Expiring(ar.status, w.store.now)
    ensures Decided(w, HandlePermission(w, ar), ar, rt, Denied, message)
  {
    CalmPermission(w, n, Answer(PluginDenied, message), ar, rt);
    AnswerDecides(Next(Next(Next(w))), n - 3, Answer(PluginDenied, message), ar, rt);
  }

  lemma DeniedResolve(w: World, n: nat, message: string, ar: Request, rt: Rendered)
    requires Calm(w, n, Answer(PluginDenied, message)) && n >= 7 && Ready(w.store, ar, rt) && w.cfg.plugin
    requires ar.status.state == Invalid && !Expiring(ar.status, w.store.now)
    ensures StateIn(Resolve(w, ar).w.store, ar.id, {Denied})
    ensures RolesAt(Resolve(w, ar).w.store, ProjectKey(ar)) == RolesAt(w.store, ProjectKey(ar))
  {
    DeniedAfterConflict(w, n, message, ar, rt);
    var flow := HandlePermission(w, ar);
    FinishKeeps(flow.w, flow.ar, Denied);
    assert Resolve(w, ar).w == flow.w;
  }

  /** The conflict check takes no membership away. One way for a granted request with a rival to be
      concluded with its membership is that the plugin now denies it: it ends denied, its project's
      roles as they were. `Membership.RivalledStrandedIff` lists them all. */
  lemma ConflictKeepsMembers(w: World, message: string, ar: Request, rt: Rendered, j: nat)
    requires StoreOk(w.store) && Calm(w, 9, Answer(PluginDenied, message)) && w.cfg.plugin
    requires Ready(w.store, ar, rt) && Rival(w.store, ar.id, j) && ar.spec.user != ""
    requires ar.status.state == Granted && !Expiring(ar.status, w.store.now)
    ensures var done := Proceed(w, ar).w.store;
      StateIn(done, ar.id, {Denied}) && RolesAt(done, ProjectKey(ar)) == RolesAt(w.store, ProjectKey(ar))
  {
    CalmConflict(w, 9, Answer(PluginDenied, message), ar, rt, j);
    var step := HandleConflict(w, ar);
    DeniedResolve(step.w, 7, message, step.ar, rt);
    assert Proceed(w, ar) == Resolve(step.w, step.ar);
  }
}
