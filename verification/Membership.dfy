/** When does a granted request end a reconciliation concluded while its user keeps the membership?
    The exact answer when nobody else acts: it depends on the store, on which calls fail or lose
    their answers, and on what the plugin replies. */
module Membership {
  import opened Prelude
  import opened Templates
  import opened Roles
  import opened Requests
  import opened Cluster
  import opened Permission
  import opened Reconcile
  import opened Safety
  import opened OneInFlight
  import opened CalmRuns
  import opened StillRuns

  /** The request is concluded, and its user still in the role it was granted. */
  predicate Stranded(s: Store, ar: Request) {
    ar.id in s.requests && Concluded(s.requests[ar.id].status.state) && !Removed(s, ar)
  }

  /** Nobody else acts, and the copy is the stored request. */
  predicate Copied(w: World, ar: Request) {
    Still(w) && ar.id in w.store.requests && w.store.requests[ar.id] == ar
  }

  /** The copy is the stored request, its user is in the role it was granted, and the template, if
      it is there, still has that role name. */
  predicate Holds(w: World, ar: Request) {
    && Copied(w, ar)
    && ar.status.target != "" && !Removed(w.store, ar) && ProjectKey(ar) in w.store.projects
    && (ar.spec.template in w.store.templates ==>
          RoleName(w.store.templates[ar.spec.template].name, ar.spec.app) == ar.status.roleName)
  }

  // ---------------------------------------------------------------- the condition

  predicate Fails(w: World) {
    !Head(w).outcome.Succeed?
  }

  predicate Refused(w: World) {
    Head(w).outcome.Refuse?
  }

  /** The revocation does not take effect: the project is not read, or the patch is refused. */
  predicate RevocationFails(w: World) {
    Fails(w) || Refused(Rest(w))
  }

  /** The role cannot be rendered for the target project: the template is not read, missing or broken. */
  predicate RenderingFails(w: World, ar: Request) {
    || Fails(w) || ar.spec.template !in w.store.templates
    || Render(w.store.templates[ar.spec.template], ar.status.target, ar.spec.app).Err?
  }

  /** The grant is not recorded: the project is not read, the patch or its answer is lost, or the
      status is refused. */
  predicate GrantFails(w: World) {
    Fails(w) || Fails(Rest(w)) || Refused(Rest(Rest(w)))
  }

  /** The plugin denies or fails, or what it allows or leaves pending is not recorded. */
  predicate DecisionFails(w: World) {
    if !w.cfg.plugin then GrantFails(w)
    else
      match Head(w).reply
      case Answer(PluginDenied, _) => true
      case Answer(PluginPending, _) => Refused(Rest(w))
      case Answer(_, _) => GrantFails(Rest(w))
      case _ => true
  }

  predicate ExpiryFails(w: World) {
    if w.cfg.plugin then Head(w).reply == CallFailed || RevocationFails(Rest(w)) else RevocationFails(w)
  }

  predicate RoleFails(w: World, ar: Request) {
    if Expiring(ar.status, w.store.now) then ExpiryFails(w) else DecisionFails(w)
  }

  /** From permission handling on, for a request its conflict check has just made invalid. */
  predicate PermissionFails(w: World, ar: Request) {
    Fails(w) ||
    var x := Rest(w);
    if ar.spec.app !in w.store.apps then RenderingFails(x, ar) || RevocationFails(Rest(x))
    else if w.store.apps[ar.spec.app] != ar.status.target then true
    else Fails(x) || RenderingFails(Rest(x), ar) || RoleFails(Rest(Rest(x)), ar)
  }

  /** From the conflict check on. Without a conflict only an empty application project strands the
      user, and only when that is recorded; with one, everything that keeps the reconciliation from
      revoking, granting again or recording a pending request once the conflict is recorded. */
  predicate Strands(w: World, ar: Request) {
    && !Fails(w)
    && var x := Rest(w);
       if ValidateConflict(Siblings(w.store, ar.ns, ar.spec.user, ar.spec.app), ar).None? then
         && !Fails(x) && ar.spec.app in w.store.apps && w.store.apps[ar.spec.app] == "" && !Refused(Rest(x))
       else
         match Head(x).outcome
         case Refuse => false
         case Lose => true
         case Succeed => PermissionFails(Rest(x), ar)
  }

  /** The copy does not time out in this reconciliation. */
  predicate NotDue(w: World, ar: Request) {
    ar.status.state !in {Initiated, Requested}
    || (ar.status.history != [] && Last(ar.status.history).time == w.store.now)
  }

  predicate FlowNotDue(flow: Flow<State>) {
    flow.result.Ok? ==> NotDue(flow.w, flow.ar)
  }

  // ---------------------------------------------------------------- what the condition depends on

  /** The two worlds have the same turns to come and agree in all the condition looks at. */
  predicate SameAhead(w: World, x: World) {
    && x.script == w.script && x.cfg == w.cfg && x.store.apps == w.store.apps
    && x.store.templates == w.store.templates && x.store.now == w.store.now
  }

  predicate SameTarget(ar: Request, copy: Request) {
    copy.spec == ar.spec && copy.status.target == ar.status.target && copy.status.expiresAt == ar.status.expiresAt
  }

  lemma SameRest(w: World, x: World)
    requires SameAhead(w, x)
    ensures Head(x) == Head(w) && SameAhead(Rest(w), Rest(x))
  {
  }

  lemma SameWrites(w: World, x: World)
    requires SameAhead(w, x)
    ensures GrantFails(x) <==> GrantFails(w)
    ensures RevocationFails(x) <==> RevocationFails(w)
  {
    SameRest(w, x);
    SameRest(Rest(w), Rest(x));
    SameRest(Rest(Rest(w)), Rest(Rest(x)));
  }

  lemma SameRole(w: World, x: World, ar: Request, copy: Request)
    requires SameAhead(w, x) && SameTarget(ar, copy)
    ensures RoleFails(x, copy) <==> RoleFails(w, ar)
  {
    SameRest(w, x);
    SameWrites(w, x);
    SameWrites(Rest(w), Rest(x));
    SameRest(Rest(w), Rest(x));
  }

  lemma SameRendering(w: World, x: World, ar: Request, copy: Request)
    requires SameAhead(w, x) && SameTarget(ar, copy)
    ensures RenderingFails(x, copy) <==> RenderingFails(w, ar)
  {
    SameRest(w, x);
  }

  /** The condition looks at nothing that recording the conflict has changed. */
  lemma SamePermission(w: World, x: World, ar: Request, copy: Request)
    requires SameAhead(w, x) && SameTarget(ar, copy)
    ensures PermissionFails(x, copy) <==> PermissionFails(w, ar)
  {
    var v, y := Rest(w), Rest(x);
    SameRest(w, x);
    SameRest(v, y);
    SameRest(Rest(v), Rest(y));
    SameRendering(v, y, ar, copy);
    SameRendering(Rest(v), Rest(y), ar, copy);
    SameWrites(Rest(v), Rest(y));
    SameRole(Rest(Rest(v)), Rest(Rest(y)), ar, copy);
  }

  // ---------------------------------------------------------------- single steps

  /** A status written over the copy: the store has it unless the write was refused. */
  lemma StillRecord(w: World, ar: Request, status: Status)
    requires Copied(w, ar)
    ensures var (x, copy, err) := PutStatus(w, ar.(status := status));
      && Still(x) && x.cfg == w.cfg && x.store.projects == w.store.projects && x.store.now == w.store.now
      && x.store.apps == w.store.apps && x.store.templates == w.store.templates
      && ar.id in x.store.requests && x.script == Rest(w).script
      && x.store.requests[ar.id].status == (if Refused(w) then ar.status else status)
      && (err.None? <==> !Fails(w))
      && (err.None? ==> copy == x.store.requests[ar.id] && copy == ar.(status := status, version := copy.version))
  {
    StillPause(w);
  }

  lemma StillUpdate(w: World, ar: Request, state: State, message: string, hash: Hash)
    requires Copied(w, ar) && ar.status.state != state
    ensures var step := UpdateStatus(w, ar, state, message, hash);
      && step.w.store.projects == w.store.projects && ar.id in step.w.store.requests
      && step.w.store.requests[ar.id].status.state == (if Refused(w) then ar.status.state else state)
      && (step.err.None? <==> !Fails(w))
      && (step.err.None? ==> step.ar.status.state == state && NotDue(step.w, step.ar))
  {
    StillRecord(w, ar, Recorded(ar.status, ar.spec.duration, state, message, w.store.now).(hash := hash));
  }

  /** Recording the state there is already, or another concluded one. */
  lemma StillConclude(w: World, ar: Request, state: State, message: string, hash: Hash)
    requires Holds(w, ar) && Concluded(ar.status.state) && Concluded(state)
    ensures var step := UpdateStatus(w, ar, state, message, hash);
      Stranded(step.w.store, ar) && (step.err.None? ==> step.ar.status.state == state)
  {
    if !UpToDate(ar.status, state, message, hash) {
      StillRecord(w, ar, Recorded(ar.status, ar.spec.duration, state, message, w.store.now).(hash := hash));
    }
  }

  lemma HoldsRest(w: World, ar: Request)
    requires Holds(w, ar)
    ensures Pause(w) == (Rest(w), Head(w)) && Holds(Rest(w), ar)
  {
    StillPause(w);
  }

  /** The two worlds agree but for the roles of projects, turns and evidence. */
  predicate SameStores(w: World, x: World) {
    && x.cfg == w.cfg && x.store.requests == w.store.requests && x.store.now == w.store.now
    && x.store.apps == w.store.apps && x.store.templates == w.store.templates
  }

  lemma {:induction false} StillPatch(w: World, key: Ref, roles: seq<ProjectRole>)
    requires Still(w) && key in w.store.projects
    ensures var (x, err) := PatchProject(w, key, w.store.projects[key].version, roles);
      && Still(x) && SameStores(w, x) && key in x.store.projects && x.script == Rest(w).script
      && RolesAt(x.store, key) == (if Refused(w) then RolesAt(w.store, key) else roles)
      && (err == if Fails(w) then Some(Failed) else None)
  {
    StillPause(w);
  }

  /** A grant or revocation without anybody in the way: one attempt, made exactly when the project is
      read and the patch not refused. */
  lemma {:induction false} StillEdit(w: World, ar: Request, edit: Edit, rt: Rendered)
    requires Still(w) && ProjectKey(ar) in w.store.projects && edit != SyncAccess
    ensures var (x, err) := EditProject(w, ar, edit, Some(rt), ATTEMPTS);
      var key := ProjectKey(ar);
      && Still(x) && SameStores(w, x) && key in x.store.projects
      && RolesAt(x.store, key) ==
         (if RevocationFails(w) then RolesAt(w.store, key) else Edited(edit, RolesAt(w.store, key), ar, rt))
      && (err == if Fails(w) || Fails(Rest(w)) then Some(Failed) else None)
      && (!Fails(w) ==> x.script == Rest(Rest(w)).script)
  {
    StillPause(w);
    if !Fails(w) {
      var project := w.store.projects[ProjectKey(ar)];
      StillPatch(Rest(w), ProjectKey(ar), Edited(edit, project.roles, ar, rt));
      assert EditProject(w, ar, edit, Some(rt), ATTEMPTS)
          == PatchProject(Rest(w), ProjectKey(ar), project.version, Edited(edit, project.roles, ar, rt));
    }
  }

  /** The revocation: exactly when it takes effect, and when it reports so. */
  lemma {:induction false} StillRevoke(w: World, ar: Request, rt: Rendered)
    requires Holds(w, ar) && RoleName(rt.name, ar.spec.app) == ar.status.roleName
    ensures var (x, err) := EditProject(w, ar, RevokeAccess, Some(rt), ATTEMPTS);
      && Still(x) && SameStores(w, x)
      && (Removed(x.store, ar) <==> !RevocationFails(w))
      && (err.None? ==> !RevocationFails(w))
  {
    StillEdit(w, ar, RevokeAccess, rt);
    RevokeMembership(RolesAt(w.store, ProjectKey(ar)), ar.status.roleName, ar.spec.user, rt);
  }

  /** What follows a revocation never strands the user unless the revocation failed. */
  lemma {:induction false} StillRevokeAndRecord(w: World, ar: Request, rt: Rendered,
                                                state: State, message: string, hash: Hash)
    requires Holds(w, ar) && RoleName(rt.name, ar.spec.app) == ar.status.roleName
    requires state in {Invalid, Expired}
    ensures var (x, err) := EditProject(w, ar, RevokeAccess, Some(rt), ATTEMPTS);
      && (err.Some? ==> (Stranded(x.store, ar) <==> Concluded(ar.status.state) && RevocationFails(w)))
      && (err.None? ==>
            var step := UpdateStatus(x, ar, state, message, hash);
            && !RevocationFails(w) && !Stranded(step.w.store, ar)
            && (step.err.None? ==> step.ar.status.state == state))
  {
    StillRevoke(w, ar, rt);
    var (x, err) := EditProject(w, ar, RevokeAccess, Some(rt), ATTEMPTS);
    if err.None? {
      StillPause(x);
      assert UpdateStatus(x, ar, state, message, hash).w.store.projects == x.store.projects;
    }
  }

  lemma StillRender(w: World, ar: Request)
    requires Holds(w, ar)
    ensures var (x, got) := RenderedRole(w, ar, ar.status.target);
      && x == Rest(w) && Holds(x, ar) && (got.Err? <==> RenderingFails(w, ar))
      && (got.Ok? ==> RoleName(got.value.name, ar.spec.app) == ar.status.roleName)
  {
    HoldsRest(w, ar);
  }

  lemma GrantAdds(roles: seq<ProjectRole>, name: string, user: string, rt: Rendered)
    ensures Member(GrantEdit(roles, name, user, rt), name, user)
  {
    GrantMembership(roles, name, user, rt);
  }

  /** A grant of the user's own membership keeps it, whatever becomes of it. */
  lemma {:induction false} StillGrantEdit(w: World, ar: Request, rt: Rendered)
    requires Holds(w, ar) && RoleName(rt.name, ar.spec.app) == ar.status.roleName
    ensures var (x, err) := EditProject(w, ar, GrantAccess, Some(rt), ATTEMPTS);
      && Holds(x, ar) && SameStores(w, x)
      && (err == if Fails(w) || Fails(Rest(w)) then Some(Failed) else None)
      && (err.None? ==> x.script == Rest(Rest(w)).script)
  {
    StillEdit(w, ar, GrantAccess, rt);
    GrantAdds(RolesAt(w.store, ProjectKey(ar)), ar.status.roleName, ar.spec.user, rt);
  }

  // ---------------------------------------------------------------- after the conflict

  lemma GrantStrands(w: World, ar: Request, rt: Rendered, message: string)
    requires Holds(w, ar) && RoleName(rt.name, ar.spec.app) == ar.status.roleName && ar.status.state == Invalid
    ensures var flow := Grant(w, ar, rt, message);
      && (Stranded(flow.w.store, ar) <==> GrantFails(w))
      && FlowNotDue(flow)
  {
    StillGrantEdit(w, ar, rt);
    var (x, err) := EditProject(w, ar, GrantAccess, Some(rt), ATTEMPTS);
    var state := if err.None? then Granted else Denied;
    var details := if err.None? then message else "Error granting Argo CD Access: " + ErrorText(err.value);
    StillUpdate(x, ar, state, details, HashOf(rt));
    assert Grant(w, ar, rt, message).w == UpdateStatus(x, ar, state, details, HashOf(rt)).w;
    assert err.None? ==> Head(x) == Head(Rest(Rest(w)));
  }

  lemma FollowStrands(w: World, ar: Request, rt: Rendered, reply: PluginReply)
    requires Holds(w, ar) && RoleName(rt.name, ar.spec.app) == ar.status.roleName && ar.status.state == Invalid
    requires reply.Answer?
    ensures var flow := Follow(w, ar, rt, Decision(reply.status == PluginGranted, reply.status, reply.message));
      && (Stranded(flow.w.store, ar) <==>
            match reply.status
            case PluginDenied => true
            case PluginPending => Refused(w)
            case _ => GrantFails(w))
      && FlowNotDue(flow)
  {
    match reply.status
    case PluginDenied => StillConclude(w, ar, Denied, reply.message, HashOf(rt));
    case PluginPending => StillUpdate(w, ar, Requested, reply.message, HashOf(rt));
    case _ => GrantStrands(w, ar, rt, reply.message);
  }

  lemma DecideStrands(w: World, ar: Request, rt: Rendered)
    requires Holds(w, ar) && RoleName(rt.name, ar.spec.app) == ar.status.roleName && ar.status.state == Invalid
    ensures var flow := Decide(w, ar, rt);
      && (Stranded(flow.w.store, ar) <==> DecisionFails(w))
      && FlowNotDue(flow)
  {
    HoldsRest(w, ar);
    if !w.cfg.plugin {
      GrantStrands(w, ar, rt, "");
      assert Decide(w, ar, rt) == Grant(w, ar, rt, "");
    } else {
      var reply := Head(w).reply;
      if reply.Answer? {
        var x := NoteAnswer(Rest(w), ar.id, reply.status);
        FollowStrands(x, ar, rt, reply);
        SameRest(Rest(w), x);
        SameWrites(Rest(w), x);
      }
    }
  }

  lemma ExpiryStrands(w: World, ar: Request, rt: Rendered)
    requires Holds(w, ar) && RoleName(rt.name, ar.spec.app) == ar.status.roleName
    ensures var step := HandleAccessExpired(w, ar, rt);
      && (Stranded(step.w.store, ar) <==> Concluded(ar.status.state) && ExpiryFails(w))
      && (step.err.None? ==> step.ar.status.state == Expired)
  {
    HoldsRest(w, ar);
    var (x, reply) := if w.cfg.plugin then CallPlugin(w) else (w, NoAnswer);
    if !reply.CallFailed? {
      StillRevokeAndRecord(x, ar, rt, Expired, if reply.Answer? then reply.message else "", HashOf(rt));
    }
  }

  lemma RoleStrands(w: World, ar: Request, rt: Rendered)
    requires Holds(w, ar) && RoleName(rt.name, ar.spec.app) == ar.status.roleName && ar.status.state == Invalid
    ensures var flow := HandleWithRole(w, ar, ar.status.target, rt);
      && (Stranded(flow.w.store, ar) <==> RoleFails(w, ar))
      && FlowNotDue(flow)
  {
    if Expiring(ar.status, w.store.now) {
      ExpiryStrands(w, ar, rt);
    } else {
      DecideStrands(w, ar, rt);
      assert HandleWithRole(w, ar, ar.status.target, rt) == Decide(w, ar, rt);
    }
  }

  lemma SameProjectStrands(w: World, ar: Request)
    requires Holds(w, ar) && ar.status.state == Invalid
    requires ar.spec.app in w.store.apps && w.store.apps[ar.spec.app] == ar.status.target
    ensures var flow := HandleWithApp(w, ar, ar.status.target);
      && (Stranded(flow.w.store, ar) <==> Fails(w) || RenderingFails(Rest(w), ar) || RoleFails(Rest(Rest(w)), ar))
      && FlowNotDue(flow)
  {
    HoldsRest(w, ar);
    var x := Rest(w);
    assert ValidateProject(w, ar, ar.status.target) == Flow(x, ar, if Fails(w) then Err(Failed) else Ok(true));
    if !Fails(w) {
      StillRender(x, ar);
      var (y, got) := RenderedRole(x, ar, ar.status.target);
      if got.Ok? {
        RoleStrands(y, ar, got.value);
        assert HandleWithApp(w, ar, ar.status.target) == HandleWithRole(y, ar, ar.status.target, got.value);
      }
    }
  }

  /** An invalid request of another project, or whose application names none, is only recorded. */
  lemma OtherProjectStrands(w: World, ar: Request, project: string)
    requires Holds(w, ar) && ar.status.state == Invalid && project != ar.status.target
    ensures var flow := HandleWithApp(w, ar, project);
      Stranded(flow.w.store, ar) && FlowNotDue(flow)
  {
    if project == "" {
      StillConclude(NoteProjectless(w, ar), ar, Invalid, "Application does not have a project defined", NoHash);
    } else {
      StillRender(w, ar);
      var (x, got) := RenderedRole(w, ar, ar.status.target);
      var message := "The application project changed from " + ar.status.target + " to " + project + ".";
      if got.Ok? { StillConclude(x, ar, Invalid, message, HashOf(got.value)); }
    }
  }

  lemma NotFoundStrands(w: World, ar: Request)
    requires Holds(w, ar) && ar.status.state in {Granted, Invalid}
    ensures var step := HandleAppNotFound(w, ar);
      && (Stranded(step.w.store, ar) <==>
            ar.status.state == Invalid && (RenderingFails(w, ar) || RevocationFails(Rest(w))))
      && (step.err.None? ==> step.ar.status.state == Invalid)
  {
    StillRender(w, ar);
    var (x, got) := RenderedRole(w, ar, ar.status.target);
    if got.Ok? { StillRevokeAndRecord(x, ar, got.value, Invalid, "application not found", HashOf(got.value)); }
  }

  /** Permission handling of a request that its conflict check has just made invalid. */
  lemma PermissionStrands(w: World, ar: Request)
    requires Holds(w, ar) && ar.status.state == Invalid
    ensures var flow := HandlePermission(w, ar);
      && (Stranded(flow.w.store, ar) <==> PermissionFails(w, ar))
      && FlowNotDue(flow)
  {
    HoldsRest(w, ar);
    var (x, got) := GetApp(w, ar.spec.app);
    match got
    case Ok(project) =>
      if project == ar.status.target { SameProjectStrands(x, ar); } else { OtherProjectStrands(x, ar, project); }
      assert HandlePermission(w, ar) == HandleWithApp(x, ar, project);
    case Err(e) =>
      if e == NotFound { NotFoundStrands(x, ar); }
  }

  // ---------------------------------------------------------------- without a conflict

  lemma EditKeepsRequests(w: World, ar: Request, edit: Edit, rt: Rendered)
    requires Still(w)
    ensures EditProject(w, ar, edit, Some(rt), ATTEMPTS).0.store.requests == w.store.requests
  {
    StillPause(w);
    StillPause(Rest(w));
  }

  lemma GrantedFollow(w: World, ar: Request, rt: Rendered, decision: Decision)
    requires Holds(w, ar) && ar.status.state == Granted
    ensures var flow := Follow(w, ar, rt, decision);
      !Stranded(flow.w.store, ar) && FlowNotDue(flow)
  {
    EditKeepsRequests(w, ar, SyncAccess, rt);
  }

  lemma GrantedRole(w: World, ar: Request, rt: Rendered)
    requires Holds(w, ar) && RoleName(rt.name, ar.spec.app) == ar.status.roleName && ar.status.state == Granted
    ensures var flow := HandleWithRole(w, ar, ar.status.target, rt);
      !Stranded(flow.w.store, ar) && FlowNotDue(flow)
  {
    if Expiring(ar.status, w.store.now) {
      ExpiryStrands(w, ar, rt);
    } else {
      HoldsRest(w, ar);
      var (x, got) := Allowed(w, ar);
      assert Holds(x, ar);
      if got.Ok? { GrantedFollow(x, ar, rt, got.value); }
    }
  }

  lemma GrantedSameProject(w: World, ar: Request)
    requires Holds(w, ar) && ar.status.state == Granted
    ensures var flow := HandleWithApp(w, ar, ar.status.target);
      !Stranded(flow.w.store, ar) && FlowNotDue(flow)
  {
    HoldsRest(w, ar);
    var x := Rest(w);
    assert ValidateProject(w, ar, ar.status.target) == Flow(x, ar, if Fails(w) then Err(Failed) else Ok(true));
    if !Fails(w) {
      StillRender(x, ar);
      var (y, got) := RenderedRole(x, ar, ar.status.target);
      if got.Ok? { GrantedRole(y, ar, got.value); }
    }
  }

  lemma GrantedMoved(w: World, ar: Request, project: string)
    requires Holds(w, ar) && ar.status.state == Granted && project != ar.status.target && project != ""
    ensures var flow := HandleWithApp(w, ar, project);
      !Stranded(flow.w.store, ar) && FlowNotDue(flow)
  {
    StillRender(w, ar);
    var (x, got) := RenderedRole(w, ar, ar.status.target);
    var message := "The application project changed from " + ar.status.target + " to " + project + ".";
    if got.Ok? { StillRevokeAndRecord(x, ar, got.value, Invalid, message, HashOf(got.value)); }
  }

  lemma GrantedProjectless(w: World, ar: Request)
    requires Holds(w, ar) && ar.status.state == Granted
    ensures var flow := HandleWithApp(w, ar, "");
      (Stranded(flow.w.store, ar) <==> !Refused(w)) && FlowNotDue(flow)
  {
    var x := NoteProjectless(w, ar);
    StillUpdate(x, ar, Invalid, "Application does not have a project defined", NoHash);
    SameRest(w, x);
  }

  /** Permission handling of a granted request. */
  lemma GrantedPermission(w: World, ar: Request)
    requires Holds(w, ar) && ar.status.state == Granted
    ensures var flow := HandlePermission(w, ar);
      && (Stranded(flow.w.store, ar) <==>
            !Fails(w) && ar.spec.app in w.store.apps && w.store.apps[ar.spec.app] == "" && !Refused(Rest(w)))
      && FlowNotDue(flow)
  {
    HoldsRest(w, ar);
    var (x, got) := GetApp(w, ar.spec.app);
    match got
    case Ok(project) =>
      if project == "" {
        GrantedProjectless(x, ar);
      } else if project == ar.status.target {
        GrantedSameProject(x, ar);
      } else {
        GrantedMoved(x, ar, project);
      }
      assert HandlePermission(w, ar) == HandleWithApp(x, ar, project);
    case Err(e) =>
      if e == NotFound { NotFoundStrands(x, ar); }
  }

  // ---------------------------------------------------------------- the whole reconciliation

  lemma NotDueFinishes(w: World, ar: Request, state: State)
    requires NotDue(w, ar) && w.cfg.timeout >= 0
    ensures Finish(w, ar, state).w == w
  {
  }

  lemma ResolveStands(w: World, ar: Request)
    requires FlowNotDue(HandlePermission(w, ar)) && HandlePermission(w, ar).w.cfg.timeout >= 0
    ensures Resolve(w, ar).w == HandlePermission(w, ar).w
  {
    var flow := HandlePermission(w, ar);
    if flow.result.Ok? { NotDueFinishes(flow.w, flow.ar, flow.result.value); }
  }

  /** The copy whose conflict has been recorded. */
  lemma ConflictStrands(w: World, ar: Request, message: string)
    requires Holds(w, ar) && Keyed(w.store) && ar.status.state == Granted && w.cfg.timeout >= 0
    ensures var status := Recorded(ar.status, ar.spec.duration, Invalid, message, w.store.now);
      var (x, copy, err) := PutStatus(w, ar.(status := status));
      && (err.None? <==> !Fails(w))
      && (err.Some? ==> (Stranded(x.store, ar) <==> !Refused(w)))
      && (err.None? ==> (Stranded(Resolve(x, copy).w.store, ar) <==> PermissionFails(Rest(w), ar)))
  {
    var status := Recorded(ar.status, ar.spec.duration, Invalid, message, w.store.now);
    StillRecord(w, ar, status);
    PutStatusFollows(w, ar.(status := status));
    var (x, copy, err) := PutStatus(w, ar.(status := status));
    if err.None? {
      assert Holds(x, copy);
      PermissionStrands(x, copy);
      SamePermission(Rest(w), x, ar, copy);
      PermissionFollows(x, copy);
      ResolveStands(x, copy);
      assert Stranded(Resolve(x, copy).w.store, ar) <==> Stranded(Resolve(x, copy).w.store, copy);
    }
  }

  lemma ProceedStrands(w: World, ar: Request)
    requires Holds(w, ar) && Keyed(w.store) && ar.status.state == Granted && w.cfg.timeout >= 0
    ensures Stranded(Proceed(w, ar).w.store, ar) <==> Strands(w, ar)
  {
    HoldsRest(w, ar);
    var x := Rest(w);
    if !Fails(w) {
      var conflict := ValidateConflict(Siblings(w.store, ar.ns, ar.spec.user, ar.spec.app), ar);
      if conflict.None? {
        GrantedPermission(x, ar);
        PermissionFollows(x, ar);
        ResolveStands(x, ar);
        assert Proceed(w, ar) == Resolve(x, ar);
      } else {
        var y := NoteConflict(x, ar);
        ConflictStrands(y, ar, conflict.value);
        SameRest(x, y);
        SamePermission(Rest(x), Rest(y), ar, ar);
      }
    }
  }

  /** Whatever calls fail and whatever the plugin replies, as long as nobody else acts, a granted
      request whose user is in the role ends its reconciliation concluded with the user still there
      in exactly these cases. */
  lemma StrandedIff(w: World, ar: Request)
    requires Holds(w, ar) && Keyed(w.store) && w.cfg.timeout >= 0
    requires ar.status.state == Granted && ar.finalizer && !ar.deleting
    ensures Stranded(Reconcile.Reconcile(w, ar.id).w.store, ar) <==> !Fails(w) && Strands(Rest(w), ar)
  {
    HoldsRest(w, ar);
    if !Fails(w) {
      ProceedStrands(Rest(w), ar);
      assert FromCopy(Rest(w), ar) == Proceed(Rest(w), ar);
      assert Reconcile.Reconcile(w, ar.id) == FromCopy(Rest(w), ar);
    }
  }

  /** From the write that records the conflict on. */
  predicate ConflictFails(w: World, ar: Request) {
    match Head(w).outcome
    case Refuse => false
    case Lose => true
    case Succeed => PermissionFails(Rest(w), ar)
  }

  /** For a granted request with a rival, whose user and application are named, the conflict is
      always found, so that exactly these answers and failures strand its user. */
  lemma RivalledStrandedIff(w: World, ar: Request, j: nat)
    requires Holds(w, ar) && StoreOk(w.store) && w.cfg.timeout >= 0 && Rival(w.store, ar.id, j)
    requires ar.spec.user != "" && !Nameless(ar)
    requires ar.status.state == Granted && ar.finalizer && !ar.deleting
    ensures Stranded(Reconcile.Reconcile(w, ar.id).w.store, ar) <==>
              !Fails(w) && !Fails(Rest(w)) && ConflictFails(Rest(Rest(w)), ar)
  {
    StrandedIff(w, ar);
    RivalFound(w.store, ar, j);
  }

  // ---------------------------------------------------------------- when every call succeeds

  /** The plugin, if there is one, denies or fails the grant, or fails the revocation of an expired
      request. */
  predicate PluginStrands(cfg: Config, s: Store, ar: Request, reply: PluginReply) {
    cfg.plugin &&
    if Expiring(ar.status, s.now) then reply == CallFailed
    else !reply.Answer? || reply.status == PluginDenied
  }

  /** The two causes: without a conflict, an application that names no project; with one, nothing
      else that would still revoke, grant again or leave the request pending. */
  predicate SmoothlyStrands(cfg: Config, s: Store, ar: Request, reply: PluginReply) {
    if ValidateConflict(Siblings(s, ar.ns, ar.spec.user, ar.spec.app), ar).None? then
      ar.spec.app in s.apps && s.apps[ar.spec.app] == ""
    else if ar.spec.app !in s.apps then !Renders(s, ar)
    else if s.apps[ar.spec.app] != ar.status.target then true
    else !Renders(s, ar) || PluginStrands(cfg, s, ar, reply)
  }

  lemma CalmHead(w: World, n: nat, reply: PluginReply)
    requires Calm(w, n, reply) && n > 0
    ensures Head(w) == Turn([], Succeed, reply) && Calm(Rest(w), n - 1, reply)
  {
  }

  lemma CalmRoleFails(w: World, n: nat, reply: PluginReply, ar: Request)
    requires Calm(w, n, reply) && n >= 4
    ensures RoleFails(w, ar) <==> PluginStrands(w.cfg, w.store, ar, reply)
  {
    CalmHead(w, n, reply);
    CalmHead(Rest(w), n - 1, reply);
    CalmHead(Rest(Rest(w)), n - 2, reply);
    CalmHead(Rest(Rest(Rest(w))), n - 3, reply);
  }

  lemma CalmPermissionFails(w: World, n: nat, reply: PluginReply, ar: Request)
    requires Calm(w, n, reply) && n >= 7
    ensures PermissionFails(w, ar) <==>
      if ar.spec.app !in w.store.apps then !Renders(w.store, ar)
      else w.store.apps[ar.spec.app] != ar.status.target || !Renders(w.store, ar)
           || PluginStrands(w.cfg, w.store, ar, reply)
  {
    CalmHead(w, n, reply);
    CalmHead(Rest(w), n - 1, reply);
    CalmHead(Rest(Rest(w)), n - 2, reply);
    CalmHead(Rest(Rest(Rest(w))), n - 3, reply);
    CalmRoleFails(Rest(Rest(Rest(w))), n - 3, reply, ar);
  }

  /** When nobody acts and no call fails, a granted request ends a reconciliation concluded with its
      user still in the role exactly when its application names no project, or it is found in
      conflict and neither its revocation nor a new decision of the plugin follows. */
  lemma SmoothStrandedIff(w: World, reply: PluginReply, ar: Request)
    requires Holds(w, ar) && Keyed(w.store) && w.cfg.timeout >= 0 && Calm(w, 10, reply)
    requires ar.status.state == Granted && ar.finalizer && !ar.deleting
    ensures Stranded(Reconcile.Reconcile(w, ar.id).w.store, ar) <==> SmoothlyStrands(w.cfg, w.store, ar, reply)
  {
    StrandedIff(w, ar);
    CalmHead(w, 10, reply);
    CalmHead(Rest(w), 9, reply);
    CalmHead(Rest(Rest(w)), 8, reply);
    CalmHead(Rest(Rest(Rest(w))), 7, reply);
    CalmPermissionFails(Rest(Rest(Rest(w))), 7, reply, ar);
  }

  /** In a clean run a stored request with its user in its role is in the position the condition is
      about, for any turns in which nobody acts. */
  lemma HoldsInRun(w: World, id: nat, turns: seq<Turn>)
    requires Sound(w) && w.ev.clean && id in w.store.requests && Still(w.(script := turns))
    requires w.store.requests[id].status.target != "" && !Removed(w.store, w.store.requests[id])
    ensures w.store.requests[id].id == id && Holds(w.(script := turns), w.store.requests[id]) && Keyed(w.store)
  {
    StoreFine(w);
    var ar := w.store.requests[id];
    assert NamedRole(w.cfg.names, ar);
    assert RolesAt(w.store, ProjectKey(ar)) != [];
  }

  // ---------------------------------------------------------------- a grant that is not recorded

  /** The roles and the state that a grant leaves stored. */
  lemma GrantLeaves(w: World, ar: Request, rt: Rendered, message: string)
    requires Copied(w, ar) && ProjectKey(ar) in w.store.projects && ar.status.state in {Initiated, Requested}
    ensures var t := Grant(w, ar, rt, message).w.store;
      && (StateIn(t, ar.id, {Granted}) <==> !GrantFails(w))
      && (!Fails(w) ==> (StateIn(t, ar.id, {Denied}) <==> Fails(Rest(w)) && !Refused(Rest(Rest(w)))))
      && RolesAt(t, ProjectKey(ar)) ==
         (if RevocationFails(w) then RolesAt(w.store, ProjectKey(ar))
          else GrantEdit(RolesAt(w.store, ProjectKey(ar)), RoleName(rt.name, ar.spec.app), ar.spec.user, rt))
  {
    StillEdit(w, ar, GrantAccess, rt);
    var (x, err) := EditProject(w, ar, GrantAccess, Some(rt), ATTEMPTS);
    var state := if err.None? then Granted else Denied;
    var details := if err.None? then message else "Error granting Argo CD Access: " + ErrorText(err.value);
    StillUpdate(x, ar, state, details, HashOf(rt));
    assert !Fails(w) ==> Head(x) == Head(Rest(Rest(w)));
    assert Grant(w, ar, rt, message).w == UpdateStatus(x, ar, state, details, HashOf(rt)).w;
  }

  /** What becomes of a first grant: it is recorded as granted exactly when the project is read, the
      patch answered and the status not refused, while the user is in the role as soon as the patch
      takes effect. When the patch takes effect and its answer is lost, the request is denied with
      its user in the role. */
  lemma GrantOutcome(w: World, ar: Request, rt: Rendered, message: string)
    requires Copied(w, ar) && ProjectKey(ar) in w.store.projects && ar.status.state in {Initiated, Requested}
    requires Gone(w.store, ProjectKey(ar), RoleName(rt.name, ar.spec.app), ar.spec.user)
    ensures var t := Grant(w, ar, rt, message).w.store;
      var member := Member(RolesAt(t, ProjectKey(ar)), RoleName(rt.name, ar.spec.app), ar.spec.user);
      && (StateIn(t, ar.id, {Granted}) <==> !GrantFails(w))
      && (member <==> !RevocationFails(w))
      && (member && StateIn(t, ar.id, {Denied}) <==>
            !Fails(w) && Head(Rest(w)).outcome.Lose? && !Refused(Rest(Rest(w))))
  {
    GrantLeaves(w, ar, rt, message);
    GrantAdds(RolesAt(w.store, ProjectKey(ar)), RoleName(rt.name, ar.spec.app), ar.spec.user, rt);
  }
}
