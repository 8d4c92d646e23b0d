/** The permission service keeps the run sound, whatever other actors, the API server and the
    plugin do. */
module PermissionSafety {
  import opened Prelude
  import opened Templates
  import opened Roles
  import opened Requests
  import opened Cluster
  import opened Permission
  import opened Safety
  import opened Outside
  import opened Writes
  import opened Edits

  /** The service handles requests that are not concluded, and ones its own conflict check has
      just concluded. */
  predicate Active(ev: Evidence, ar: Request) {
    ar.status.state in {Empty, Initiated, Requested, Granted} || (ar.status.state == Invalid && ar.id in ev.conflicted)
  }

  predicate NamedTemplate(names: map<Ref, string>, ar: Request, rt: Rendered) {
    ar.spec.template in names && rt.name == names[ar.spec.template]
  }

  /** The step was sound and, unless it failed, left the copy loaded in the given state. */
  ghost predicate StepSound(w: World, ar: Request, step: Step, state: State) {
    && Sound(step.w) && Continues(w, step.w, {ar.id})
    && (step.err.None? ==>
          && Loaded(step.w.store, step.ar) && SameIdentity(ar, step.ar)
          && step.ar.status.state == state)
    && step.err != Some(Panic)
  }

  ghost predicate FlowSound(w: World, ar: Request, flow: Flow<State>) {
    && Sound(flow.w) && Continues(w, flow.w, {ar.id})
    && (flow.result.Ok? ==>
          && Loaded(flow.w.store, flow.ar) && SameIdentity(ar, flow.ar)
          && flow.ar.status.state == flow.result.value)
    && flow.result != Err(Panic)
  }

  lemma StepCompose(w: World, x: World, ar: Request, ar1: Request, step: Step, state: State)
    requires Sound(w) && Sound(x) && Continues(w, x, {}) && StepSound(x, ar1, step, state)
    requires SameIdentity(ar, ar1)
    ensures StepSound(w, ar, step, state)
  {
    ContinuesWiden(w, x, {}, {ar.id});
    ContinuesCompose(w, x, step.w, {ar.id});
  }

  lemma FlowCompose(w: World, x: World, ar: Request, ar1: Request, flow: Flow<State>)
    requires Sound(w) && Sound(x) && Continues(w, x, {ar.id}) && FlowSound(x, ar1, flow)
    requires SameIdentity(ar, ar1)
    ensures FlowSound(w, ar, flow)
  {
    ContinuesCompose(w, x, flow.w, {ar.id});
  }

  // ---------------------------------------------------------------- recording a status

  /** `base` is the copy's status, or that of a new request with target and role filled in. */
  predicate Base(ar: Request, base: Status) {
    base == ar.status || (ar.status == FRESH && base == FRESH.(target := base.target, roleName := base.roleName))
  }

  ghost predicate MayRecord(w: World, ar: Request, base: Status, state: State) {
    && Base(ar, base) && Edge(ar.status.state, state)
    && (ar.id !in w.ev.conflicted ==> DagEdge(ar.status.state, state))
    && (state != Invalid ==> base.target != "")
    && (state == Granted ==> Approved(w.cfg, w.ev, ar.id))
    && (w.ev.clean ==> NamedRole(w.cfg.names, ar.(status := base)))
    && (state == Expired ==> base.expiresAt.Some? && base.expiresAt.value < w.store.now)
    && (state == Timeout ==> Late(w.cfg, ar.status, w.store.now))
    && (w.ev.clean && state == Expired ==>
          Ephemeral(ar.status.roleName) && Gone(w.store, ProjectKey(ar), ar.status.roleName, ar.spec.user))
    && (w.ev.clean && ar.status.state == Granted && state == Invalid && !Excused(w.ev, ar) ==>
          Ephemeral(ar.status.roleName) && Gone(w.store, ProjectKey(ar), ar.status.roleName, ar.spec.user))
  }

  lemma LoadedFacts(w: World, ar: Request)
    requires Sound(w) && Loaded(w.store, ar)
    ensures StatusOk(ar.status, w.store.now)
    ensures ar.id !in w.ev.conflicted && ar.status.state == Requested ==> ar.status.expiresAt.None?
    ensures w.ev.clean ==> NamedRole(w.cfg.names, ar)
  {
    StoreFine(w);
    var r := w.store.requests[ar.id];
    assert RequestOk(w.store, r);
    if w.ev.clean { assert NamedRole(w.cfg.names, r); }
  }

  lemma RecordedStep(before: Status, base: Status, duration: int, state: State, message: string, hash: Hash, now: int)
    requires StatusOk(before, now) && Edge(before.state, state)
    requires base == before || (before == FRESH && base == FRESH.(target := base.target, roleName := base.roleName))
    requires state != Invalid ==> base.target != ""
    requires state == Expired ==> base.expiresAt.Some? && base.expiresAt.value < now
    ensures var after := Recorded(base, duration, state, message, now).(hash := hash);
      StatusOk(after, now) && StatusStep(before, after, duration)
  {
    RecordedHistory(base, duration, state, message, now);
  }

  lemma RecordedWritable(w: World, ar: Request, base: Status, state: State, message: string, hash: Hash)
    requires Sound(w) && Loaded(w.store, ar) && MayRecord(w, ar, base, state)
    ensures Writable(w, ar, Recorded(base, ar.spec.duration, state, message, w.store.now).(hash := hash))
  {
    LoadedFacts(w, ar);
    RecordedStep(ar.status, base, ar.spec.duration, state, message, hash, w.store.now);
  }

  lemma UpdateStatusSound(w: World, ar: Request, base: Status, state: State, message: string, hash: Hash)
    requires Sound(w) && Loaded(w.store, ar) && MayRecord(w, ar, base, state)
    ensures var step := UpdateStatus(w, ar.(status := base), state, message, hash);
      && StepSound(w, ar, step, state)
      && (step.err.None? ==>
            step.ar.status.target == base.target && step.ar.status.roleName == base.roleName && step.ar.spec == ar.spec)
  {
    var base' := ar.(status := base);
    if UpToDate(base, state, message, hash) {
      assert ar.(status := base) == ar;
      SoundWeaken(w, w.ev);
      assert w.(ev := w.ev) == w;
      ContinuesWiden(w, w, {}, {ar.id});
    } else {
      var status := Recorded(base, ar.spec.duration, state, message, w.store.now).(hash := hash);
      RecordedWritable(w, ar, base, state, message, hash);
      PutStatusSound(w, ar, status);
      assert base'.(status := status) == ar.(status := status);
    }
  }

  lemma Stay(w: World, ids: set<nat>)
    requires Sound(w)
    ensures Continues(w, w, ids)
  {
    SoundWeaken(w, w.ev);
    assert w.(ev := w.ev) == w;
    ContinuesWiden(w, w, {}, ids);
  }

  // ---------------------------------------------------------------- the rendered role

  /** Rendering the role reads only; what it renders has the role name of the template. */
  lemma RenderedRoleSound(w: World, ar: Request, project: string)
    requires Sound(w) && Loaded(w.store, ar)
    ensures var (w1, got) := RenderedRole(w, ar, project);
      && Sound(w1) && Continues(w, w1, {}) && Loaded(w1.store, ar)
      && (got.Ok? ==> project != "" && (w1.ev.clean ==> NamedTemplate(w1.cfg.names, ar, got.value)))
      && got != Err(Panic)
  {
    PauseSound(w);
    StoreFine(Pause(w).0);
  }

  lemma EditableHere(w: World, ar: Request, edit: Edit, rt: Rendered)
    requires Sound(w) && Loaded(w.store, ar)
    requires edit != RevokeAccess ==> ar.status.state !in {Empty, Expired} && ar.status.target != ""
    requires edit == GrantAccess ==> MayJoin(w, ar)
    requires w.ev.clean ==> NamedTemplate(w.cfg.names, ar, rt)
    ensures Editable(w, ar, edit, rt)
    ensures Ephemeral(RoleName(rt.name, ar.spec.app))
  {
    LoadedFacts(w, ar);
    RoleNameIsEphemeral(rt.name, ar.spec.app);
  }

  // ---------------------------------------------------------------- validation

  lemma MayRecordRevoked(w: World, ar: Request, rt: Rendered, state: State)
    requires Sound(w) && Loaded(w.store, ar) && Active(w.ev, ar)
    requires w.ev.clean ==> NamedTemplate(w.cfg.names, ar, rt)
    requires ar.status.target != ""
    requires state in {Invalid, Expired}
    requires state == Expired ==> ar.status.expiresAt.Some? && ar.status.expiresAt.value < w.store.now
    requires Gone(w.store, ProjectKey(ar), RoleName(rt.name, ar.spec.app), ar.spec.user)
    ensures MayRecord(w, ar, ar.status, state)
  {
    LoadedFacts(w, ar);
    RoleNameIsEphemeral(rt.name, ar.spec.app);
  }

  /** Revokes and records: the shape of expiry, of a project move and of a missing application.
      When it succeeds the status was written only after the user had left the role. */
  lemma RevokeThenRecord(w: World, ar: Request, rt: Rendered, state: State, message: string, hash: Hash)
    requires Sound(w) && Loaded(w.store, ar) && Active(w.ev, ar)
    requires w.ev.clean ==> NamedTemplate(w.cfg.names, ar, rt)
    requires ar.status.target != ""
    requires state in {Invalid, Expired}
    requires state == Expired ==> ar.status.expiresAt.Some? && ar.status.expiresAt.value < w.store.now
    ensures var (w1, err) := EditProject(w, ar, RevokeAccess, Some(rt), ATTEMPTS);
      && Sound(w1) && Continues(w, w1, {}) && err != Some(Panic)
      && (err.None? ==> StepSound(w, ar, UpdateStatus(w1, ar, state, message, hash), state))
      && (err.None? ==> Gone(w1.store, ProjectKey(ar), RoleName(rt.name, ar.spec.app), ar.spec.user))
  {
    EditableHere(w, ar, RevokeAccess, rt);
    EditProjectSound(w, ar, RevokeAccess, rt, ATTEMPTS);
    var (w1, err) := EditProject(w, ar, RevokeAccess, Some(rt), ATTEMPTS);
    if err.None? {
      MayRecordRevoked(w1, ar, rt, state);
      assert ar.(status := ar.status) == ar;
      UpdateStatusSound(w1, ar, ar.status, state, message, hash);
      StepCompose(w, w1, ar, ar, UpdateStatus(w1, ar, state, message, hash), state);
    }
  }

  /** In a clean run, a granted request that nothing excuses has its user out of the role. */
  ghost predicate MayConclude(w: World, ar: Request) {
    w.ev.clean && ar.status.state == Granted && !Excused(w.ev, ar) ==>
      Ephemeral(ar.status.roleName) && Gone(w.store, ProjectKey(ar), ar.status.roleName, ar.spec.user)
  }

  lemma RecordInvalid(w: World, ar: Request, message: string, hash: Hash)
    requires Sound(w) && Loaded(w.store, ar) && Active(w.ev, ar) && MayConclude(w, ar)
    ensures StepSound(w, ar, UpdateStatus(w, ar, Invalid, message, hash), Invalid)
  {
    LoadedFacts(w, ar);
    assert ar.(status := ar.status) == ar;
    UpdateStatusSound(w, ar, ar.status, Invalid, message, hash);
  }

  lemma HandleAppNotFoundSound(w: World, ar: Request)
    requires Sound(w) && Loaded(w.store, ar) && Active(w.ev, ar)
    ensures StepSound(w, ar, HandleAppNotFound(w, ar), Invalid)
  {
    if ar.status.target == "" {
      RecordInvalid(w, ar, "application not found", NoHash);
    } else {
      RenderedRoleSound(w, ar, ar.status.target);
      var (w1, got) := RenderedRole(w, ar, ar.status.target);
      ContinuesWiden(w, w1, {}, {ar.id});
      if got.Ok? {
        RevokeThenRecord(w1, ar, got.value, Invalid, "application not found", HashOf(got.value));
        var w2 := EditProject(w1, ar, RevokeAccess, Some(got.value), ATTEMPTS).0;
        ContinuesWiden(w1, w2, {}, {ar.id});
        StepCompose(w, w1, ar, ar, HandleAppNotFound(w, ar), Invalid);
      }
    }
  }

  lemma HandleProjectChangedSound(w: World, ar: Request, project: string)
    requires Sound(w) && Loaded(w.store, ar) && Active(w.ev, ar)
    ensures StepSound(w, ar, HandleProjectChanged(w, ar, project), Invalid)
  {
    RenderedRoleSound(w, ar, ar.status.target);
    var (w1, got) := RenderedRole(w, ar, ar.status.target);
    ContinuesWiden(w, w1, {}, {ar.id});
    if got.Ok? {
      var message := "The application project changed from " + ar.status.target + " to " + project + ".";
      if ar.status.state == Granted {
        RevokeThenRecord(w1, ar, got.value, Invalid, message, HashOf(got.value));
        var w2 := EditProject(w1, ar, RevokeAccess, Some(got.value), ATTEMPTS).0;
        ContinuesWiden(w1, w2, {}, {ar.id});
      } else {
        RecordInvalid(w1, ar, message, HashOf(got.value));
      }
      StepCompose(w, w1, ar, ar, HandleProjectChanged(w, ar, project), Invalid);
    }
  }

  ghost predicate ValidSound(w: World, ar: Request, flow: Flow<bool>, project: string) {
    && Sound(flow.w) && Continues(w, flow.w, {ar.id})
    && (flow.result == Ok(true) ==>
          && flow.ar == ar && Loaded(flow.w.store, ar) && Continues(w, flow.w, {})
          && project != "" && (ar.status.state == Empty || ar.status.target == project))
    && (flow.result == Ok(false) ==>
          Loaded(flow.w.store, flow.ar) && SameIdentity(ar, flow.ar) && flow.ar.status.state == Invalid)
    && flow.result != Err(Panic)
  }

  lemma InvalidFlow(w: World, ar: Request, step: Step, project: string)
    requires StepSound(w, ar, step, Invalid)
    ensures ValidSound(w, ar, ToFlow(step, false), project)
  {
  }

  lemma ProjectReadSound(w: World, ar: Request, project: string)
    requires Sound(w) && Loaded(w.store, ar) && Active(w.ev, ar)
    ensures var (w1, got) := GetProject(w, Ref(ar.ns, project));
      && Sound(w1) && Continues(w, w1, {}) && Continues(w, w1, {ar.id}) && Loaded(w1.store, ar) && Active(w1.ev, ar)
      && got != Err(Panic)
  {
    PauseSound(w);
    ContinuesWiden(w, Pause(w).0, {}, {ar.id});
  }

  lemma MissingProjectConcludes(w: World, ar: Request)
    requires Sound(w) && Loaded(w.store, ar) && ProjectKey(ar) !in w.store.projects
    ensures MayConclude(w, ar)
  {
    LoadedFacts(w, ar);
    if w.ev.clean && ar.status.state == Granted {
      RoleNameIsEphemeral(w.cfg.names[ar.spec.template], ar.spec.app);
    }
  }

  lemma ProjectMissingSound(w: World, ar: Request, project: string, message: string)
    requires Sound(w) && Loaded(w.store, ar) && Active(w.ev, ar)
    requires ar.status.state == Granted ==> ar.status.target == project
    requires GetProject(w, Ref(ar.ns, project)).1 == Err(NotFound)
    ensures var (w1, got) := GetProject(w, Ref(ar.ns, project));
      ValidSound(w, ar, ToFlow(UpdateStatus(w1, ar, Invalid, message, NoHash), false), project)
  {
    ProjectReadSound(w, ar, project);
    var w1 := GetProject(w, Ref(ar.ns, project)).0;
    var step := UpdateStatus(w1, ar, Invalid, message, NoHash);
    if ar.status.state == Granted { MissingProjectConcludes(w1, ar); }
    RecordInvalid(w1, ar, message, NoHash);
    StepCompose(w, w1, ar, ar, step, Invalid);
    InvalidFlow(w, ar, step, project);
  }

  lemma ProjectlessSound(w: World, ar: Request, message: string)
    requires Sound(w) && Loaded(w.store, ar) && Active(w.ev, ar)
    ensures ValidSound(w, ar, ToFlow(UpdateStatus(NoteProjectless(w, ar), ar, Invalid, message, NoHash), false), "")
  {
    var x := NoteProjectless(w, ar);
    SoundWeaken(w, x.ev);
    RecordInvalid(x, ar, message, NoHash);
    StepCompose(w, x, ar, ar, UpdateStatus(x, ar, Invalid, message, NoHash), Invalid);
    InvalidFlow(w, ar, UpdateStatus(x, ar, Invalid, message, NoHash), "");
  }

  lemma SameProjectSound(w: World, ar: Request, project: string)
    requires Sound(w) && Loaded(w.store, ar) && Active(w.ev, ar)
    requires project != "" && (ar.status.state == Empty || ar.status.target == project)
    ensures ValidSound(w, ar, ValidateProject(w, ar, project), project)
  {
    ProjectReadSound(w, ar, project);
    var (w1, got) := GetProject(w, Ref(ar.ns, project));
    var message := "Argo CD Project " + ar.ns + "/" + project + " not found";
    match got
    case Ok(_) => assert ValidateProject(w, ar, project) == Flow(w1, ar, Ok(true));
    case Err(e) =>
      if e == NotFound {
        ProjectMissingSound(w, ar, project, message);
        assert ValidateProject(w, ar, project) == ToFlow(UpdateStatus(w1, ar, Invalid, message, NoHash), false);
      } else {
        assert ValidateProject(w, ar, project) == Flow(w1, ar, Err(e));
      }
  }

  lemma ValidateProjectSound(w: World, ar: Request, project: string)
    requires Sound(w) && Loaded(w.store, ar) && Active(w.ev, ar)
    ensures ValidSound(w, ar, ValidateProject(w, ar, project), project)
  {
    if project == "" {
      ProjectlessSound(w, ar, "Application does not have a project defined");
    } else if ar.status.state != Empty && ar.status.target != project {
      HandleProjectChangedSound(w, ar, project);
      InvalidFlow(w, ar, HandleProjectChanged(w, ar, project), project);
    } else {
      SameProjectSound(w, ar, project);
    }
  }

  // ---------------------------------------------------------------- expiry, plugin, grant

  lemma HandleAccessExpiredSound(w: World, ar: Request, rt: Rendered)
    requires Sound(w) && Loaded(w.store, ar) && Active(w.ev, ar)
    requires w.ev.clean ==> NamedTemplate(w.cfg.names, ar, rt)
    requires ar.status.target != "" && ar.status.expiresAt.Some? && ar.status.expiresAt.value < w.store.now
    ensures StepSound(w, ar, HandleAccessExpired(w, ar, rt), Expired)
  {
    PauseSound(w);
    Stay(w, {});
    var (w1, reply) := if w.cfg.plugin then CallPlugin(w) else (w, NoAnswer);
    ContinuesWiden(w, w1, {}, {ar.id});
    if !reply.CallFailed? {
      RevokeThenRecord(w1, ar, rt, Expired, if reply.Answer? then reply.message else "", HashOf(rt));
      var w2 := EditProject(w1, ar, RevokeAccess, Some(rt), ATTEMPTS).0;
      ContinuesWiden(w1, w2, {}, {ar.id});
      StepCompose(w, w1, ar, ar, HandleAccessExpired(w, ar, rt), Expired);
    }
  }

  lemma AllowedSound(w: World, ar: Request)
    requires Sound(w) && Loaded(w.store, ar)
    ensures var (w1, got) := Allowed(w, ar);
      && Sound(w1) && Continues(w, w1, {}) && Loaded(w1.store, ar)
      && (got.Ok? && (got.value.allowed || got.value.status == PluginUndeclared) ==> Approved(w1.cfg, w1.ev, ar.id))
      && (got.Ok? && got.value.allowed ==> got.value.status == PluginGranted)
      && got != Err(Panic)
  {
    PauseSound(w);
    Stay(w, {});
    if w.cfg.plugin {
      var (x, reply) := CallPlugin(w);
      if reply.Answer? {
        SoundWeaken(x, NoteAnswer(x, ar.id, reply.status).ev);
        ContinuesCompose(w, x, NoteAnswer(x, ar.id, reply.status), {});
      }
    }
  }

  lemma InitialiseSound(w: World, ar: Request, project: string, rt: Rendered)
    requires Sound(w) && Loaded(w.store, ar) && Active(w.ev, ar)
    requires w.ev.clean ==> NamedTemplate(w.cfg.names, ar, rt)
    requires project != "" && (ar.status.state == Empty || ar.status.target == project)
    ensures var step := Initialise(w, ar, project, rt);
      && StepSound(w, ar, step, if ar.status.state == Empty then Initiated else ar.status.state)
      && (step.err.None? ==> step.ar.status.target == project && step.ar.spec == ar.spec)
  {
    if ar.status.state == Empty {
      LoadedFacts(w, ar);
      var base := ar.status.(target := project, roleName := RoleName(rt.name, ar.spec.app));
      UpdateStatusSound(w, ar, base, Initiated, "", HashOf(rt));
    } else {
      Stay(w, {ar.id});
    }
  }

  lemma RecordHere(w: World, ar: Request, state: State, message: string, hash: Hash)
    requires Sound(w) && Loaded(w.store, ar) && Active(w.ev, ar)
    requires ar.status.state in {Initiated, Requested, Invalid} && ar.status.target != ""
    requires state in {Requested, Denied, Granted, Invalid}
    requires state == Granted ==> Approved(w.cfg, w.ev, ar.id)
    ensures StepSound(w, ar, UpdateStatus(w, ar, state, message, hash), state)
  {
    LoadedFacts(w, ar);
    assert ar.(status := ar.status) == ar;
    UpdateStatusSound(w, ar, ar.status, state, message, hash);
  }

  lemma GrantSound(w: World, ar: Request, rt: Rendered, message: string)
    requires Sound(w) && Loaded(w.store, ar) && Active(w.ev, ar)
    requires w.ev.clean ==> NamedTemplate(w.cfg.names, ar, rt)
    requires ar.status.state in {Initiated, Requested, Invalid} && ar.status.target != ""
    requires Approved(w.cfg, w.ev, ar.id)
    ensures FlowSound(w, ar, Grant(w, ar, rt, message))
  {
    EditableHere(w, ar, GrantAccess, rt);
    EditProjectSound(w, ar, GrantAccess, rt, ATTEMPTS);
    var (w1, err) := EditProject(w, ar, GrantAccess, Some(rt), ATTEMPTS);
    ContinuesWiden(w, w1, {}, {ar.id});
    var flow := Grant(w, ar, rt, message);
    var state := if err.None? then Granted else if err.value == NotFound then Invalid else Denied;
    if ar.status.state != state {
      var details := if err.None? then message else "Error granting Argo CD Access: " + ErrorText(err.value);
      RecordHere(w1, ar, state, details, HashOf(rt));
      StepCompose(w, w1, ar, ar, UpdateStatus(w1, ar, state, details, HashOf(rt)), state);
    }
  }

  lemma SyncSound(w: World, ar: Request, rt: Rendered)
    requires Sound(w) && Loaded(w.store, ar) && Active(w.ev, ar)
    requires w.ev.clean ==> NamedTemplate(w.cfg.names, ar, rt)
    requires ar.status.state == Granted
    ensures var (w1, err) := EditProject(w, ar, SyncAccess, Some(rt), ATTEMPTS);
      FlowSound(w, ar, Flow(w1, ar, if err.Some? then Err(err.value) else Ok(Granted)))
  {
    LoadedFacts(w, ar);
    EditableHere(w, ar, SyncAccess, rt);
    EditProjectSound(w, ar, SyncAccess, rt, ATTEMPTS);
    ContinuesWiden(w, EditProject(w, ar, SyncAccess, Some(rt), ATTEMPTS).0, {}, {ar.id});
  }

  lemma FollowSound(w: World, ar: Request, rt: Rendered, decision: Decision)
    requires Sound(w) && Loaded(w.store, ar) && Active(w.ev, ar)
    requires w.ev.clean ==> NamedTemplate(w.cfg.names, ar, rt)
    requires ar.status.state != Empty && ar.status.target != ""
    requires decision.allowed || decision.status == PluginUndeclared ==> Approved(w.cfg, w.ev, ar.id)
    requires decision.allowed <==> decision.status == PluginGranted
    ensures FlowSound(w, ar, Follow(w, ar, rt, decision))
  {
    if ar.status.state == Granted {
      if decision.allowed { SyncSound(w, ar, rt); } else { Stay(w, {ar.id}); }
    } else if decision.status == PluginDenied {
      RecordHere(w, ar, Denied, decision.message, HashOf(rt));
    } else if decision.status == PluginPending {
      RecordHere(w, ar, Requested, decision.message, HashOf(rt));
    } else {
      GrantSound(w, ar, rt, decision.message);
    }
  }

  /** A granted request that the plugin allows is answered for without error only with its role in sync and
      its user in it. */
  lemma AllowedIsInSync(w: World, ar: Request, rt: Rendered)
    requires Sound(w) && Loaded(w.store, ar) && ar.status.state == Granted
    ensures var (x, got) := Allowed(w, ar);
      var flow := Decide(w, ar, rt);
      got.Ok? && got.value.allowed && flow.result.Ok? ==>
        && flow.result == Ok(Granted)
        && InSync(RolesAt(flow.w.store, ProjectKey(ar)), RoleName(rt.name, ar.spec.app), rt, ar.spec.user, true)
  {
    AllowedSound(w, ar);
    var (x, got) := Allowed(w, ar);
    if got.Ok? && got.value.allowed && EditProject(x, ar, SyncAccess, Some(rt), ATTEMPTS).1.None? {
      SuccessIsInSync(x, ar, SyncAccess, rt);
    }
  }

  lemma DecideSound(w: World, ar: Request, rt: Rendered)
    requires Sound(w) && Loaded(w.store, ar) && Active(w.ev, ar)
    requires w.ev.clean ==> NamedTemplate(w.cfg.names, ar, rt)
    requires ar.status.state != Empty && ar.status.target != ""
    ensures FlowSound(w, ar, Decide(w, ar, rt))
  {
    AllowedSound(w, ar);
    var (w1, got) := Allowed(w, ar);
    ContinuesWiden(w, w1, {}, {ar.id});
    if got.Ok? {
      FollowSound(w1, ar, rt, got.value);
      FlowCompose(w, w1, ar, ar, Follow(w1, ar, rt, got.value));
    }
  }

  lemma RunInitialised(w: World, ar: Request, project: string, rt: Rendered)
    requires Sound(w) && Loaded(w.store, ar) && Active(w.ev, ar)
    requires w.ev.clean ==> NamedTemplate(w.cfg.names, ar, rt)
    requires project != "" && (ar.status.state == Empty || ar.status.target == project)
    ensures var init := Initialise(w, ar, project, rt);
      && Sound(init.w) && Continues(w, init.w, {ar.id}) && init.err != Some(Panic)
      && (init.err.None? ==> FlowSound(w, ar, Decide(init.w, init.ar, rt)))
  {
    InitialiseSound(w, ar, project, rt);
    var init := Initialise(w, ar, project, rt);
    if init.err.None? {
      DecideSound(init.w, init.ar, rt);
      FlowCompose(w, init.w, ar, init.ar, Decide(init.w, init.ar, rt));
    }
  }

  lemma WithRoleSound(w: World, ar: Request, project: string, rt: Rendered)
    requires Sound(w) && Loaded(w.store, ar) && Active(w.ev, ar)
    requires w.ev.clean ==> NamedTemplate(w.cfg.names, ar, rt)
    requires project != "" && (ar.status.state == Empty || ar.status.target == project)
    ensures FlowSound(w, ar, HandleWithRole(w, ar, project, rt))
  {
    if Expiring(ar.status, w.store.now) {
      LoadedFacts(w, ar);
      HandleAccessExpiredSound(w, ar, rt);
    } else {
      RunInitialised(w, ar, project, rt);
    }
  }

  lemma WithAppSound(w: World, ar: Request, project: string)
    requires Sound(w) && Loaded(w.store, ar) && Active(w.ev, ar)
    ensures FlowSound(w, ar, HandleWithApp(w, ar, project))
  {
    ValidateProjectSound(w, ar, project);
    var valid := ValidateProject(w, ar, project);
    if valid.result == Ok(true) {
      RenderedRoleSound(valid.w, ar, project);
      var (w1, got) := RenderedRole(valid.w, ar, project);
      ContinuesCompose(w, valid.w, w1, {});
      ContinuesWiden(w, w1, {}, {ar.id});
      if got.Ok? {
        WithRoleSound(w1, ar, project, got.value);
        FlowCompose(w, w1, ar, ar, HandleWithRole(w1, ar, project, got.value));
      }
    }
  }

  /** Whatever happens around it, HandlePermission keeps the run sound, changes the status of no
      other request, and answers the state it leaves the request in. */
  lemma HandlePermissionSound(w: World, ar: Request)
    requires Sound(w) && Loaded(w.store, ar) && Active(w.ev, ar)
    ensures FlowSound(w, ar, HandlePermission(w, ar))
  {
    PauseSound(w);
    var (w1, got) := GetApp(w, ar.spec.app);
    ContinuesWiden(w, w1, {}, {ar.id});
    match got
    case Ok(project) =>
      WithAppSound(w1, ar, project);
      FlowCompose(w, w1, ar, ar, HandleWithApp(w1, ar, project));
    case Err(e) =>
      if e == NotFound {
        HandleAppNotFoundSound(w1, ar);
        FlowCompose(w, w1, ar, ar, Settle(HandleAppNotFound(w1, ar), Invalid));
      }
  }
}
