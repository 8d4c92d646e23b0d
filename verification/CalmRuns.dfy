/** Runs in which nobody interferes and every call succeeds: what each call then does exactly. The
    worlds after the calls are written out, with one turn of the script used up by each of them,
    so that the visits of module CalmVisits and the strikes of module HazardRuns can be followed
    call by call to the store they end with. */
module CalmRuns {
  import opened Prelude
  import opened Templates
  import opened Requests
  import opened Cluster
  import opened Permission
  import opened Writes

  /** The next `n` turns are quiet and the plugin would reply `reply`. */
  predicate Calm(w: World, n: nat, reply: PluginReply) {
    n <= |w.script| && forall i :: 0 <= i < n ==> w.script[i] == Turn([], Succeed, reply)
  }

  function Next(w: World): World
    requires w.script != []
  {
    w.(script := w.script[1..])
  }

  lemma CalmPause(w: World, n: nat, reply: PluginReply)
    requires Calm(w, n, reply) && n > 0
    ensures Pause(w) == (Next(w), Turn([], Succeed, reply)) && Calm(Next(w), n - 1, reply)
  {
    assert w.script[0] == Turn([], Succeed, reply);
  }

  lemma CalmPutStatus(w: World, n: nat, reply: PluginReply, ar: Request, status: Status)
    requires Calm(w, n, reply) && n > 0
    requires ar.id in w.store.requests && w.store.requests[ar.id] == ar
    ensures PutStatus(w, ar.(status := status))
         == (Commit(Next(w), WithStatus(w.store, ar.id, status)),
             WithStatus(w.store, ar.id, status).requests[ar.id], None)
    ensures Calm(Commit(Next(w), WithStatus(w.store, ar.id, status)), n - 1, reply)
  {
    CalmPause(w, n, reply);
  }

  /** The application is in the project, the project exists and the template renders for it. */
  predicate ReadyFor(s: Store, ar: Request, project: string, rt: Rendered) {
    && ar.id in s.requests && s.requests[ar.id] == ar
    && ar.spec.app in s.apps && s.apps[ar.spec.app] == project && project != ""
    && Ref(ar.ns, project) in s.projects
    && ar.spec.template in s.templates
    && Render(s.templates[ar.spec.template], project, ar.spec.app) == Ok(rt)
  }

  /** The project is the one the request targets. */
  predicate Ready(s: Store, ar: Request, rt: Rendered) {
    ReadyFor(s, ar, ar.status.target, rt)
  }

  /** The role can be rendered for the request's target project. */
  predicate Renders(s: Store, ar: Request) {
    ar.spec.template in s.templates && Render(s.templates[ar.spec.template], ar.status.target, ar.spec.app).Ok?
  }

  lemma CalmRender(w: World, n: nat, reply: PluginReply, ar: Request)
    requires Calm(w, n, reply) && n > 0
    ensures var (x, got) := RenderedRole(w, ar, ar.status.target);
      && x == Next(w) && Calm(x, n - 1, reply) && (got.Ok? <==> Renders(w.store, ar)) && got != Err(Panic)
      && (got.Ok? ==> got == Render(w.store.templates[ar.spec.template], ar.status.target, ar.spec.app)
                      && got.value.name == w.store.templates[ar.spec.template].name)
  {
    CalmPause(w, n, reply);
  }

  lemma CalmValidate(w: World, n: nat, reply: PluginReply, ar: Request, project: string, rt: Rendered)
    requires Calm(w, n, reply) && n > 0 && ReadyFor(w.store, ar, project, rt)
    requires ar.status.state == Empty || ar.status.target == project
    ensures ValidateProject(w, ar, project) == Flow(Next(w), ar, Ok(true))
    ensures Calm(Next(w), n - 1, reply)
  {
    CalmPause(w, n, reply);
  }

  lemma CalmRenderFor(w: World, n: nat, reply: PluginReply, ar: Request, project: string, rt: Rendered)
    requires Calm(w, n, reply) && n > 0 && ReadyFor(w.store, ar, project, rt)
    ensures RenderedRole(w, ar, project) == (Next(w), Ok(rt))
    ensures Calm(Next(w), n - 1, reply)
  {
    CalmPause(w, n, reply);
  }

  /** Three calls find a request valid and render its role. */
  lemma CalmStart(w: World, n: nat, reply: PluginReply, ar: Request, project: string, rt: Rendered)
    requires Calm(w, n, reply) && n >= 3 && ReadyFor(w.store, ar, project, rt)
    requires ar.status.state == Empty || ar.status.target == project
    ensures HandlePermission(w, ar) == HandleWithRole(Next(Next(Next(w))), ar, project, rt)
    ensures Calm(Next(Next(Next(w))), n - 3, reply)
  {
    CalmPause(w, n, reply);
    CalmValidate(Next(w), n - 1, reply, ar, project, rt);
    CalmRenderFor(Next(Next(w)), n - 2, reply, ar, project, rt);
    assert HandlePermission(w, ar) == HandleWithApp(Next(w), ar, project);
    assert HandleWithApp(Next(w), ar, project) == HandleWithRole(Next(Next(Next(w))), ar, project, rt);
  }

  /** They lead an initialised request to the decision about it. */
  lemma CalmPermission(w: World, n: nat, reply: PluginReply, ar: Request, rt: Rendered)
    requires Calm(w, n, reply) && n >= 3 && Ready(w.store, ar, rt)
    requires ar.status.state != Empty && !Expiring(ar.status, w.store.now)
    ensures HandlePermission(w, ar) == Decide(Next(Next(Next(w))), ar, rt)
    ensures Calm(Next(Next(Next(w))), n - 3, reply)
  {
    CalmStart(w, n, reply, ar, ar.status.target, rt);
  }
}
