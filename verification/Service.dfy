/** The permission service as it runs: methods that change the AccessRequest and the project in
    place and write them back (internal/controller/service.go). Each is proved to do what the
    function of the same name in module Permission says. */
module Service {
  import opened Prelude
  import opened Templates
  import opened Roles
  import opened Requests
  import opened Cluster
  import opened Objects
  import P = Permission
  import S = Safety
  import W = Writes
  import E = Edits
  import PS = PermissionSafety

  /** Fills in the fields of a rendered template one by one. */
  method RenderTemplate(rt: RoleTemplate, project: string, app: Ref) returns (got: Result<Rendered>)
    ensures got == Render(rt, project, app)
    ensures got.Err? <==>
              || project == "" || app.name == "" || app.ns == ""
              || Broken in rt.description || exists i :: 0 <= i < |rt.policies| && Broken in rt.policies[i]
  {
    RenderFailsIff(rt, project, app);
    if project == "" {
      return Err(Failed);
    }
    if app.name == "" {
      return Err(Failed);
    }
    if app.ns == "" {
      return Err(Failed);
    }
    if !Parses(rt.description) {
      return Err(Failed);
    }
    var rendered := Rendered(rt.ref, rt.name, "", []);
    rendered := rendered.(description := Execute(rt.description, rt.name, project, app));
    var joined := JoinTexts(rt.policies);
    if !Parses(joined) {
      return Err(Failed);
    }
    rendered := rendered.(policies := Split(Execute(joined, rt.name, project, app)));
    return Ok(rendered);
  }

  // ---------------------------------------------------------------- what the callers rely on

  /** The run is sound and the copy one that permission handling may be given. */
  ghost predicate Ready(w: World, ar: Request) {
    S.Sound(w) && S.Loaded(w.store, ar) && PS.Active(w.ev, ar)
  }

  /** The run is sound and the copy one that the edit may be made for. */
  ghost predicate Editable(w: World, ar: Request, edit: P.Edit, rt: Rendered) {
    S.Sound(w) && S.Loaded(w.store, ar) && W.Editable(w, ar, edit, rt)
  }

  /** The world is as other actors left it, or with the edit made of exactly the roles stored just
      before. */
  ghost predicate LandsSomewhere(w: World, x: World, err: Option<Error>, ar: Request, edit: P.Edit, rt: Rendered) {
    exists calls: nat :: calls <= 2 * P.ATTEMPTS && E.Landed(E.Others(w, calls), x, err, ar, edit, rt)
  }

  /** A success has written, role by role, into roles that other actors left; a conflict is one of five
      raced attempts, which took ten calls and wrote nothing. */
  ghost predicate Retried(w: World, x: World, err: Option<Error>, ar: Request, edit: P.Edit, rt: Rendered) {
    && (err.None? ==> exists calls: nat :: calls <= 10 && E.WroteAfter(w, calls, x, ar, edit, rt))
    && (err == Some(Conflict) <==> E.AllRaced(w, 5, ar, edit, rt))
    && (err == Some(Conflict) ==> x == E.Others(w, 10))
  }

  lemma EditIsRetried(w: World, ar: Request, edit: P.Edit, rt: Rendered)
    requires S.Sound(w)
    ensures var (x, err) := P.EditProject(w, ar, edit, Some(rt), P.ATTEMPTS); Retried(w, x, err, ar, edit, rt)
  {
    E.ConflictIff(w, ar, edit, rt);
    if P.EditProject(w, ar, edit, Some(rt), P.ATTEMPTS).1.None? { E.SuccessWrote(w, ar, edit, rt); }
  }

  lemma EditFacts(w: World, ar: Request, edit: P.Edit, rt: Rendered)
    ensures var (x, err) := P.EditProject(w, ar, edit, Some(rt), P.ATTEMPTS);
      var roles := RolesAt(x.store, P.ProjectKey(ar));
      && (S.Sound(w) ==> LandsSomewhere(w, x, err, ar, edit, rt) && Retried(w, x, err, ar, edit, rt))
      && (edit == P.RevokeAccess && Editable(w, ar, edit, rt) && err.None? ==>
            S.Gone(x.store, P.ProjectKey(ar), RoleName(rt.name, ar.spec.app), ar.spec.user))
      && (S.Sound(w) && err.None? && (edit == P.GrantAccess || (edit == P.SyncAccess && ar.status.state == Granted)) ==>
            InSync(roles, RoleName(rt.name, ar.spec.app), rt, ar.spec.user, true))
  {
    var err := P.EditProject(w, ar, edit, Some(rt), P.ATTEMPTS).1;
    if S.Sound(w) {
      E.NoLostUpdate(w, ar, edit, rt, P.ATTEMPTS);
      EditIsRetried(w, ar, edit, rt);
    }
    if Editable(w, ar, edit, rt) { E.EditProjectSound(w, ar, edit, rt, P.ATTEMPTS); }
    if S.Sound(w) && err.None? && (edit == P.GrantAccess || (edit == P.SyncAccess && ar.status.state == Granted)) {
      E.SuccessIsInSync(w, ar, edit, rt);
    }
  }

  class PermissionService {
    const client: Client

    constructor (client: Client)
      ensures this.client == client
    {
      this.client := client;
    }

    method UpdateStatus(ar: AccessRequest, state: State, message: string, hash: Hash) returns (err: Option<Error>)
      modifies client, ar
      ensures P.Step(client.w, ar.Value(), err) == P.UpdateStatus(old(client.w), old(ar.Value()), state, message, hash)
    {
      var current := ar.GetLastStatusDetails(state);
      if ar.status.state == state && ar.status.hash == hash && current == message {
        return None;
      }
      ar.UpdateStatusHistory(state, message, client.Now());
      ar.status := ar.status.(hash := hash);
      err := client.StatusUpdate(ar);
    }

    method GetRenderedRole(ar: AccessRequest, project: string) returns (got: Result<Rendered>)
      modifies client
      ensures (client.w, got) == P.RenderedRole(old(client.w), ar.Value(), project)
    {
      var template := client.GetRoleTemplate(ar.spec.template);
      if template.Err? {
        return Err(template.error);
      }
      got := RenderTemplate(template.value, project, ar.spec.app);
    }

    // ---------------------------------------------------------------- edits of the project

    method RemoveOnce(ar: AccessRequest, rt: Option<Rendered>) returns (err: Option<Error>)
      modifies client
      ensures (client.w, err) == P.Attempt(old(client.w), ar.Value(), P.RevokeAccess, rt)
    {
      var project := new AppProject();
      var key := Ref(ar.ns, ar.status.target);
      err := client.GetAppProject(key, project);
      if err == Some(NotFound) {
        return None;
      }
      if err.Some? {
        return;
      }
      if rt.None? {
        return Some(Panic);
      }
      project.RemoveSubjectFromRole(ar, rt.value);
      project.UpdateProjectPolicies(ar, rt.value);
      err := client.Patch(key, project);
    }

    method SyncOnce(ar: AccessRequest, rt: Rendered) returns (err: Option<Error>)
      modifies client
      ensures (client.w, err) == P.Attempt(old(client.w), ar.Value(), P.SyncAccess, Some(rt))
    {
      var project := new AppProject();
      var key := Ref(ar.ns, ar.status.target);
      err := client.GetAppProject(key, project);
      if err.Some? {
        return;
      }
      var inSync := project.IsRoleInSync(ar, rt);
      if inSync {
        return None;
      }
      project.UpdateProjectPolicies(ar, rt);
      if ar.status.state == Granted {
        project.AddSubjectInRole(ar, rt);
      }
      err := client.Patch(key, project);
    }

    method GrantOnce(ar: AccessRequest, rt: Rendered) returns (err: Option<Error>)
      modifies client
      ensures (client.w, err) == P.Attempt(old(client.w), ar.Value(), P.GrantAccess, Some(rt))
    {
      var project := new AppProject();
      var key := Ref(ar.ns, ar.status.target);
      err := client.GetAppProject(key, project);
      if err.Some? {
        return;
      }
      project.AddSubjectInRole(ar, rt);
      project.UpdateProjectPolicies(ar, rt);
      err := client.Patch(key, project);
    }

    method RemoveArgoCDAccess(ar: AccessRequest, rt: Option<Rendered>) returns (err: Option<Error>)
      modifies client
      ensures (client.w, err) == P.EditProject(old(client.w), ar.Value(), P.RevokeAccess, rt, P.ATTEMPTS)
      ensures rt.Some? && Editable(old(client.w), ar.Value(), P.RevokeAccess, rt.value) && err.None? ==>
                S.Gone(client.w.store, P.ProjectKey(ar.Value()), RoleName(rt.value.name, ar.spec.app), ar.spec.user)
      ensures rt.Some? && S.Sound(old(client.w)) ==>
                && LandsSomewhere(old(client.w), client.w, err, ar.Value(), P.RevokeAccess, rt.value)
                && Retried(old(client.w), client.w, err, ar.Value(), P.RevokeAccess, rt.value)
    {
      if rt.Some? { EditFacts(client.w, ar.Value(), P.RevokeAccess, rt.value); }
      var attempts := P.ATTEMPTS;
      err := RemoveOnce(ar, rt);
      while err == Some(Conflict) && attempts > 1
        invariant attempts > 0
        invariant P.EditProject(old(client.w), ar.Value(), P.RevokeAccess, rt, P.ATTEMPTS)
               == if err == Some(Conflict) && attempts > 1
                  then P.EditProject(client.w, ar.Value(), P.RevokeAccess, rt, attempts - 1) else (client.w, err)
      {
        attempts := attempts - 1;
        err := RemoveOnce(ar, rt);
      }
    }

    method EnsureRoleIsSynced(ar: AccessRequest, rt: Rendered) returns (err: Option<Error>)
      modifies client
      ensures (client.w, err) == P.EditProject(old(client.w), ar.Value(), P.SyncAccess, Some(rt), P.ATTEMPTS)
      ensures S.Sound(old(client.w)) ==>
                && LandsSomewhere(old(client.w), client.w, err, ar.Value(), P.SyncAccess, rt)
                && Retried(old(client.w), client.w, err, ar.Value(), P.SyncAccess, rt)
      ensures S.Sound(old(client.w)) && ar.status.state == Granted && err.None? ==>
                InSync(RolesAt(client.w.store, P.ProjectKey(ar.Value())), RoleName(rt.name, ar.spec.app), rt,
                       ar.spec.user, true)
    {
      EditFacts(client.w, ar.Value(), P.SyncAccess, rt);
      var attempts := P.ATTEMPTS;
      err := SyncOnce(ar, rt);
      while err == Some(Conflict) && attempts > 1
        invariant attempts > 0
        invariant P.EditProject(old(client.w), ar.Value(), P.SyncAccess, Some(rt), P.ATTEMPTS)
               == if err == Some(Conflict) && attempts > 1
                  then P.EditProject(client.w, ar.Value(), P.SyncAccess, Some(rt), attempts - 1) else (client.w, err)
      {
        attempts := attempts - 1;
        err := SyncOnce(ar, rt);
      }
    }

    /** The state to record, and the error that led to it if any. */
    method GrantArgoCDAccess(ar: AccessRequest, rt: Rendered) returns (state: State, err: Option<Error>)
      modifies client
      ensures (client.w, err) == P.EditProject(old(client.w), ar.Value(), P.GrantAccess, Some(rt), P.ATTEMPTS)
      ensures state == if err.None? then Granted else if err.value == NotFound then Invalid else Denied
      ensures S.Sound(old(client.w)) ==>
                && LandsSomewhere(old(client.w), client.w, err, ar.Value(), P.GrantAccess, rt)
                && Retried(old(client.w), client.w, err, ar.Value(), P.GrantAccess, rt)
      ensures S.Sound(old(client.w)) && state == Granted ==>
                InSync(RolesAt(client.w.store, P.ProjectKey(ar.Value())), RoleName(rt.name, ar.spec.app), rt,
                       ar.spec.user, true)
    {
      EditFacts(client.w, ar.Value(), P.GrantAccess, rt);
      var attempts := P.ATTEMPTS;
      err := GrantOnce(ar, rt);
      while err == Some(Conflict) && attempts > 1
        invariant attempts > 0
        invariant P.EditProject(old(client.w), ar.Value(), P.GrantAccess, Some(rt), P.ATTEMPTS)
               == if err == Some(Conflict) && attempts > 1
                  then P.EditProject(client.w, ar.Value(), P.GrantAccess, Some(rt), attempts - 1) else (client.w, err)
      {
        attempts := attempts - 1;
        err := GrantOnce(ar, rt);
      }
      if err.Some? {
        if err.value == NotFound {
          return Invalid, err;
        }
        return Denied, err;
      }
      return Granted, None;
    }

    // ---------------------------------------------------------------- validation

    method HandleAppNotFound(ar: AccessRequest) returns (err: Option<Error>)
      modifies client, ar
      ensures P.Step(client.w, ar.Value(), err) == P.HandleAppNotFound(old(client.w), old(ar.Value()))
    {
      if ar.status.target == "" {
        err := UpdateStatus(ar, Invalid, "application not found", NoHash);
        return;
      }
      var role := GetRenderedRole(ar, ar.status.target);
      if role.Err? {
        return Some(role.error);
      }
      err := RemoveArgoCDAccess(ar, Some(role.value));
      if err.Some? {
        return;
      }
      err := UpdateStatus(ar, Invalid, "application not found", HashOf(role.value));
    }

    method HandleProjectChanged(ar: AccessRequest, project: string) returns (err: Option<Error>)
      modifies client, ar
      ensures P.Step(client.w, ar.Value(), err) == P.HandleProjectChanged(old(client.w), old(ar.Value()), project)
    {
      var role := GetRenderedRole(ar, ar.status.target);
      if role.Err? {
        return Some(role.error);
      }
      if ar.status.state == Granted {
        err := RemoveArgoCDAccess(ar, Some(role.value));
        if err.Some? {
          return;
        }
      }
      var message := "The application project changed from " + ar.status.target + " to " + project + ".";
      err := UpdateStatus(ar, Invalid, message, HashOf(role.value));
    }

    method ValidateProject(ar: AccessRequest, project: string) returns (valid: Result<bool>)
      modifies client, ar
      ensures P.Flow(client.w, ar.Value(), valid) == P.ValidateProject(old(client.w), old(ar.Value()), project)
    {
      var err: Option<Error>;
      if project == "" {
        client.RecordProjectless(ar.Value());
        err := UpdateStatus(ar, Invalid, "Application does not have a project defined", NoHash);
        return if err.Some? then Err(err.value) else Ok(false);
      }
      if ar.IsInitialized() && ar.status.target != project {
        err := HandleProjectChanged(ar, project);
        return if err.Some? then Err(err.value) else Ok(false);
      }
      var found := new AppProject();
      err := client.GetAppProject(Ref(ar.ns, project), found);
      if err == Some(NotFound) {
        err := UpdateStatus(ar, Invalid, "Argo CD Project " + ar.ns + "/" + project + " not found", NoHash);
        return if err.Some? then Err(err.value) else Ok(false);
      }
      return if err.Some? then Err(err.value) else Ok(true);
    }

    // ---------------------------------------------------------------- expiry, plugin, grant

    method HandleAccessExpired(ar: AccessRequest, rt: Rendered) returns (err: Option<Error>)
      modifies client, ar
      ensures P.Step(client.w, ar.Value(), err) == P.HandleAccessExpired(old(client.w), old(ar.Value()), rt)
    {
      var details := "";
      if client.w.cfg.plugin {
        var reply := client.Plugin();
        if reply.CallFailed? {
          return Some(Failed);
        }
        if reply.Answer? {
          details := reply.message;
        }
      }
      err := RemoveArgoCDAccess(ar, Some(rt));
      if err.Some? {
        return;
      }
      err := UpdateStatus(ar, Expired, details, HashOf(rt));
    }

    method Allowed(ar: AccessRequest) returns (got: Result<P.Decision>)
      modifies client
      ensures (client.w, got) == P.Allowed(old(client.w), ar.Value())
    {
      if !client.w.cfg.plugin {
        return Ok(P.Decision(true, PluginGranted, ""));
      }
      var reply := client.Plugin();
      if !reply.Answer? {
        return Err(Failed);
      }
      client.RecordAnswer(ar.id, reply.status);
      return Ok(P.Decision(reply.status == PluginGranted, reply.status, reply.message));
    }

    /** What follows the plugin's decision for an initialised request. */
    method Follow(ar: AccessRequest, rt: Rendered, decision: P.Decision) returns (got: Result<State>)
      modifies client, ar
      ensures P.Flow(client.w, ar.Value(), got) == P.Follow(old(client.w), old(ar.Value()), rt, decision)
    {
      var err: Option<Error>;
      if ar.status.state == Granted {
        if decision.allowed {
          err := EnsureRoleIsSynced(ar, rt);
          if err.Some? {
            return Err(err.value);
          }
        }
        return Ok(Granted);
      }
      if !decision.allowed {
        match decision.status
        case PluginDenied =>
          err := UpdateStatus(ar, Denied, decision.message, HashOf(rt));
          return if err.Some? then Err(err.value) else Ok(Denied);
        case PluginPending =>
          err := UpdateStatus(ar, Requested, decision.message, HashOf(rt));
          return if err.Some? then Err(err.value) else Ok(Requested);
        case _ =>
      }
      got := Grant(ar, rt, decision.message);
    }

    method Grant(ar: AccessRequest, rt: Rendered, message: string) returns (got: Result<State>)
      modifies client, ar
      ensures P.Flow(client.w, ar.Value(), got) == P.Grant(old(client.w), old(ar.Value()), rt, message)
    {
      var details := message;
      var state, failed := GrantArgoCDAccess(ar, rt);
      if failed.Some? {
        details := "Error granting Argo CD Access: " + P.ErrorText(failed.value);
      }
      if ar.status.state != state {
        var err := UpdateStatus(ar, state, details, HashOf(rt));
        if err.Some? {
          return Err(err.value);
        }
      }
      return Ok(state);
    }

    method Initialise(ar: AccessRequest, project: string, rt: Rendered) returns (err: Option<Error>)
      modifies client, ar
      ensures P.Step(client.w, ar.Value(), err) == P.Initialise(old(client.w), old(ar.Value()), project, rt)
    {
      if ar.IsInitialized() {
        return None;
      }
      ar.status := ar.status.(target := project);
      ar.status := ar.status.(roleName := RoleName(rt.name, ar.spec.app));
      err := UpdateStatus(ar, Initiated, "", HashOf(rt));
    }

    /** From the expiry check on. */
    method HandleWithRole(ar: AccessRequest, project: string, rt: Rendered) returns (got: Result<State>)
      modifies client, ar
      ensures P.Flow(client.w, ar.Value(), got) == P.HandleWithRole(old(client.w), old(ar.Value()), project, rt)
    {
      var err: Option<Error>;
      if ar.IsExpiring(client.Now()) {
        err := HandleAccessExpired(ar, rt);
        return if err.Some? then Err(err.value) else Ok(Expired);
      }
      err := Initialise(ar, project, rt);
      if err.Some? {
        return Err(err.value);
      }
      var decision := Allowed(ar);
      if decision.Err? {
        return Err(decision.error);
      }
      got := Follow(ar, rt, decision.value);
    }

    /** Whatever goes wrong, it keeps a sound run sound, changes no other request, and answers the
        state it leaves stored. */
    method HandlePermission(ar: AccessRequest) returns (got: Result<State>)
      modifies client, ar
      ensures P.Flow(client.w, ar.Value(), got) == P.HandlePermission(old(client.w), old(ar.Value()))
      ensures Ready(old(client.w), old(ar.Value())) ==>
                PS.FlowSound(old(client.w), old(ar.Value()), P.Flow(client.w, ar.Value(), got))
    {
      if Ready(client.w, ar.Value()) { PS.HandlePermissionSound(client.w, ar.Value()); }
      var project := client.GetApplication(ar.spec.app);
      if project == Err(NotFound) {
        var err := HandleAppNotFound(ar);
        return if err.Some? then Err(err.value) else Ok(Invalid);
      }
      if project.Err? {
        return Err(project.error);
      }
      var valid := ValidateProject(ar, project.value);
      if valid.Err? {
        return Err(valid.error);
      }
      if !valid.value {
        return Ok(Invalid);
      }
      var role := GetRenderedRole(ar, project.value);
      if role.Err? {
        return Err(role.error);
      }
      got := HandleWithRole(ar, project.value, role.value);
    }
  }
}
