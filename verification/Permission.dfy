/** What the permission service does with a request, as functions of the world
    (internal/controller/service.go). The methods of module Service are proved equal to these
    functions; the theorems are about them. */
module Permission {
  import opened Prelude
  import opened Templates
  import opened Roles
  import opened Requests
  import opened Cluster

  /** Attempts of one retry on conflict. */
  const ATTEMPTS: nat := 5

  /** The world and the in-memory copy after a write, with its error if any. */
  datatype Step = Step(w: World, ar: Request, err: Option<Error>)

  datatype Flow<+T> = Flow(w: World, ar: Request, result: Result<T>)

  function ErrorText(e: Error): string {
    match e
    case NotFound => "project not found"
    case Conflict => "conflict"
    case _ => "failed"
  }

  function UpdateStatus(w: World, ar: Request, state: State, message: string, hash: Hash): Step {
    if UpToDate(ar.status, state, message, hash) then Step(w, ar, None)
    else
      var status := Recorded(ar.status, ar.spec.duration, state, message, w.store.now).(hash := hash);
      var (w1, ar1, err) := PutStatus(w, ar.(status := status));
      Step(w1, ar1, err)
  }

  function RenderedRole(w: World, ar: Request, project: string): (World, Result<Rendered>) {
    var (w1, got) := GetTemplate(w, ar.spec.template);
    match got
    case Ok(template) => (w1, Render(template, project, ar.spec.app))
    case Err(e) => (w1, Err(e))
  }

  function ProjectKey(ar: Request): Ref {
    Ref(ar.ns, ar.status.target)
  }

  // ---------------------------------------------------------------- edits of the project

  datatype Edit = GrantAccess | SyncAccess | RevokeAccess

  function Edited(edit: Edit, roles: seq<ProjectRole>, ar: Request, rt: Rendered): seq<ProjectRole> {
    var name := RoleName(rt.name, ar.spec.app);
    match edit
    case GrantAccess => GrantEdit(roles, name, ar.spec.user, rt)
    case SyncAccess => SyncEdit(roles, name, ar.spec.user, rt, ar.status.state == Granted)
    case RevokeAccess => RevokeEdit(roles, name, ar.spec.user, rt)
  }

  /** Nothing to do: the sync finds the role in sync already. */
  predicate Skips(edit: Edit, roles: seq<ProjectRole>, ar: Request, rt: Rendered) {
    edit == SyncAccess &&
    InSync(roles, RoleName(rt.name, ar.spec.app), rt, ar.spec.user, ar.status.state == Granted)
  }

  /** Reads the target project and patches it. A revocation of an absent project succeeds; an
      edit without a rendered template dereferences nil. */
  function Attempt(w: World, ar: Request, edit: Edit, rt: Option<Rendered>): (World, Option<Error>) {
    var (w1, got) := GetProject(w, ProjectKey(ar));
    match got
    case Err(e) => (w1, if e == NotFound && edit == RevokeAccess then None else Some(e))
    case Ok(project) =>
      if rt.None? then (w1, Some(Panic))
      else if Skips(edit, project.roles, ar, rt.value) then (w1, None)
      else PatchProject(w1, ProjectKey(ar), project.version, Edited(edit, project.roles, ar, rt.value))
  }

  /** Attempts again on conflict while attempts are left. */
  function EditProject(w: World, ar: Request, edit: Edit, rt: Option<Rendered>, attempts: nat): (World, Option<Error>)
    decreases attempts
  {
    var (w1, err) := Attempt(w, ar, edit, rt);
    if err == Some(Conflict) && attempts > 1 then EditProject(w1, ar, edit, rt, attempts - 1) else (w1, err)
  }

  // ---------------------------------------------------------------- validation

  function HandleAppNotFound(w: World, ar: Request): Step {
    if ar.status.target == "" then UpdateStatus(w, ar, Invalid, "application not found", NoHash)
    else
      var (w1, got) := RenderedRole(w, ar, ar.status.target);
      match got
      case Err(e) => Step(w1, ar, Some(e))
      case Ok(rt) =>
        var (w2, err) := EditProject(w1, ar, RevokeAccess, Some(rt), ATTEMPTS);
        if err.Some? then Step(w2, ar, err)
        else UpdateStatus(w2, ar, Invalid, "application not found", HashOf(rt))
  }

  function ToFlow(step: Step, valid: bool): Flow<bool> {
    Flow(step.w, step.ar, if step.err.Some? then Err(step.err.value) else Ok(valid))
  }

  function HandleProjectChanged(w: World, ar: Request, project: string): Step {
    var (w1, got) := RenderedRole(w, ar, ar.status.target);
    match got
    case Err(e) => Step(w1, ar, Some(e))
    case Ok(rt) =>
      var (w2, err) :=
        if ar.status.state == Granted then EditProject(w1, ar, RevokeAccess, Some(rt), ATTEMPTS) else (w1, None);
      if err.Some? then Step(w2, ar, err)
      else
        var message := "The application project changed from " + ar.status.target + " to " + project + ".";
        UpdateStatus(w2, ar, Invalid, message, HashOf(rt))
  }

  /** Ok(true) when the request's project is the application's and exists; Ok(false) when the
      request was marked invalid. */
  function ValidateProject(w: World, ar: Request, project: string): Flow<bool> {
    if project == "" then
      ToFlow(UpdateStatus(NoteProjectless(w, ar), ar, Invalid, "Application does not have a project defined", NoHash),
             false)
    else if ar.status.state != Empty && ar.status.target != project then
      ToFlow(HandleProjectChanged(w, ar, project), false)
    else
      var (w1, got) := GetProject(w, Ref(ar.ns, project));
      match got
      case Ok(_) => Flow(w1, ar, Ok(true))
      case Err(e) =>
        if e == NotFound then
          var message := "Argo CD Project " + ar.ns + "/" + project + " not found";
          ToFlow(UpdateStatus(w1, ar, Invalid, message, NoHash), false)
        else Flow(w1, ar, Err(e))
  }

  // ---------------------------------------------------------------- expiry, plugin, grant

  function HandleAccessExpired(w: World, ar: Request, rt: Rendered): Step {
    var (w1, reply) := if w.cfg.plugin then CallPlugin(w) else (w, NoAnswer);
    if reply.CallFailed? then Step(w1, ar, Some(Failed))
    else
      var (w2, err) := EditProject(w1, ar, RevokeAccess, Some(rt), ATTEMPTS);
      if err.Some? then Step(w2, ar, err)
      else UpdateStatus(w2, ar, Expired, if reply.Answer? then reply.message else "", HashOf(rt))
  }

  datatype Decision = Decision(allowed: bool, status: PluginStatus, message: string)

  function Allowed(w: World, ar: Request): (World, Result<Decision>) {
    if !w.cfg.plugin then (w, Ok(Decision(true, PluginGranted, "")))
    else
      var (w1, reply) := CallPlugin(w);
      match reply
      case Answer(status, message) =>
        (NoteAnswer(w1, ar.id, status),
         Ok(Decision(status == PluginGranted, status, message)))
      case _ => (w1, Err(Failed))
  }

  /** Grants and records the outcome. An undeclared plugin status arrives here too. */
  function Grant(w: World, ar: Request, rt: Rendered, message: string): Flow<State> {
    var (w1, err) := EditProject(w, ar, GrantAccess, Some(rt), ATTEMPTS);
    var state := if err.None? then Granted else if err.value == NotFound then Invalid else Denied;
    var details := if err.None? then message else "Error granting Argo CD Access: " + ErrorText(err.value);
    if ar.status.state == state then Flow(w1, ar, Ok(state))
    else
      var step := UpdateStatus(w1, ar, state, details, HashOf(rt));
      Flow(step.w, step.ar, if step.err.Some? then Err(step.err.value) else Ok(state))
  }

  function Settle(step: Step, state: State): Flow<State> {
    Flow(step.w, step.ar, if step.err.Some? then Err(step.err.value) else Ok(state))
  }

  /** What the plugin's decision leads to for an initialised request. A granted request is only
      synced; an undeclared answer ends in the grant. */
  function Follow(w: World, ar: Request, rt: Rendered, decision: Decision): Flow<State> {
    if ar.status.state == Granted then
      if !decision.allowed then Flow(w, ar, Ok(Granted))
      else
        var (w1, err) := EditProject(w, ar, SyncAccess, Some(rt), ATTEMPTS);
        Flow(w1, ar, if err.Some? then Err(err.value) else Ok(Granted))
    else if !decision.allowed && decision.status == PluginDenied then
      Settle(UpdateStatus(w, ar, Denied, decision.message, HashOf(rt)), Denied)
    else if !decision.allowed && decision.status == PluginPending then
      Settle(UpdateStatus(w, ar, Requested, decision.message, HashOf(rt)), Requested)
    else Grant(w, ar, rt, decision.message)
  }

  function Decide(w: World, ar: Request, rt: Rendered): Flow<State> {
    var (w1, got) := Allowed(w, ar);
    match got
    case Err(e) => Flow(w1, ar, Err(e))
    case Ok(decision) => Follow(w1, ar, rt, decision)
  }

  /** Records the target project and role of a request seen for the first time. */
  function Initialise(w: World, ar: Request, project: string, rt: Rendered): Step {
    if ar.status.state != Empty then Step(w, ar, None)
    else
      var status := ar.status.(target := project, roleName := RoleName(rt.name, ar.spec.app));
      UpdateStatus(w, ar.(status := status), Initiated, "", HashOf(rt))
  }

  /** The request is valid and its role rendered for `project`. */
  function HandleWithRole(w: World, ar: Request, project: string, rt: Rendered): Flow<State> {
    if Expiring(ar.status, w.store.now) then Settle(HandleAccessExpired(w, ar, rt), Expired)
    else
      var init := Initialise(w, ar, project, rt);
      if init.err.Some? then Flow(init.w, init.ar, Err(init.err.value)) else Decide(init.w, init.ar, rt)
  }

  /** The request's application exists in `project`. */
  function HandleWithApp(w: World, ar: Request, project: string): Flow<State> {
    var valid := ValidateProject(w, ar, project);
    match valid.result
    case Err(e) => Flow(valid.w, valid.ar, Err(e))
    case Ok(false) => Flow(valid.w, valid.ar, Ok(Invalid))
    case Ok(true) =>
      var (w1, got) := RenderedRole(valid.w, valid.ar, project);
      match got
      case Err(e) => Flow(w1, valid.ar, Err(e))
      case Ok(rt) => HandleWithRole(w1, valid.ar, project, rt)
  }

  function HandlePermission(w: World, ar: Request): Flow<State> {
    var (w1, got) := GetApp(w, ar.spec.app);
    match got
    case Ok(project) => HandleWithApp(w1, ar, project)
    case Err(e) =>
      if e == NotFound then Settle(HandleAppNotFound(w1, ar), Invalid)
      else Flow(w1, ar, Err(e))
  }
}
