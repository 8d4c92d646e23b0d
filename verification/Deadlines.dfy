/** The result of every reconciliation asks for the right wake-up: at expiry, at the TTL deadline,
    or after the polling interval. And what one undisturbed visit does to a request the plugin
    leaves pending: nothing before its deadline, and after it the timeout. Module Polling builds
    the bounds over whole runs from this. */
module Deadlines {
  import opened Prelude
  import opened Templates
  import opened Requests
  import opened Cluster
  import opened Permission
  import opened Reconcile
  import opened Safety
  import opened PermissionSafety
  import opened FinalizerSafety
  import opened ReconcileSafety
  import opened CalmRuns

  // ---------------------------------------------------------------- wake-ups

  /** The wake-up fits the status: expiry for a granted request, the polling interval for a
      requested one, the TTL deadline for a concluded one if there is a TTL. */
  predicate WakeFits(wake: Wake, status: Status, cfg: Config, now: int) {
    match status.state
    case Granted => status.expiresAt.Some? && wake == WakeAfter(status.expiresAt.value - now)
    case Requested => wake == WakeAfter(cfg.requeue)
    case Empty => false
    case Initiated => false
    case _ =>
      if cfg.ttl == 0 then wake == NoWake
      else status.history != [] && wake == WakeAfter(Last(status.history).time + cfg.ttl - now)
  }

  /** The request as stored at the end asks for the wake-up, unless it is being deleted. */
  ghost predicate Woken(done: Reconciled, id: nat) {
    done.result.Ok? && id in done.w.store.requests && !done.w.store.requests[id].deleting ==>
      WakeFits(done.result.value, done.w.store.requests[id].status, done.w.cfg, done.w.store.now)
  }

  predicate Settling(state: State) {
    state in {Invalid, Expired, Granted, Denied, Requested}
  }

  lemma ResultFits(w: World, ar: Request)
    requires Sound(w) && Loaded(w.store, ar) && (Settling(ar.status.state) || ar.status.state == Timeout)
    ensures var got := BuildResult(ar.status.state, ar.status, w.cfg, w.store.now);
      got.Ok? && WakeFits(got.value, ar.status, w.cfg, w.store.now)
  {
    LoadedFacts(w, ar);
  }

  lemma FinishWakes(w: World, ar: Request)
    requires Sound(w) && Loaded(w.store, ar) && Settling(ar.status.state)
    ensures Woken(Finish(w, ar, ar.status.state), ar.id)
  {
    HandleRequestTimeoutSound(w, ar);
    var timed := HandleRequestTimeout(w, ar);
    match timed.result
    case Err(_) =>
    case Ok(timedOut) =>
      ResultFits(timed.w, timed.ar);
      assert timed.ar.status.state == if timedOut then Timeout else ar.status.state;
  }

  lemma FollowSettles(w: World, ar: Request, rt: Rendered, decision: Decision)
    ensures Follow(w, ar, rt, decision).result.Ok? ==> Settling(Follow(w, ar, rt, decision).result.value)
  {
  }

  lemma WithRoleSettles(w: World, ar: Request, project: string, rt: Rendered)
    ensures HandleWithRole(w, ar, project, rt).result.Ok? ==> Settling(HandleWithRole(w, ar, project, rt).result.value)
  {
    if !Expiring(ar.status, w.store.now) {
      var init := Initialise(w, ar, project, rt);
      var (w1, got) := Allowed(init.w, init.ar);
      if got.Ok? { FollowSettles(w1, init.ar, rt, got.value); }
    }
  }

  lemma WithAppSettles(w: World, ar: Request, project: string)
    ensures HandleWithApp(w, ar, project).result.Ok? ==> Settling(HandleWithApp(w, ar, project).result.value)
  {
    var valid := ValidateProject(w, ar, project);
    if valid.result == Ok(true) {
      var (w1, got) := RenderedRole(valid.w, valid.ar, project);
      if got.Ok? { WithRoleSettles(w1, valid.ar, project, got.value); }
    }
  }

  lemma PermissionSettles(w: World, ar: Request)
    ensures HandlePermission(w, ar).result.Ok? ==> Settling(HandlePermission(w, ar).result.value)
  {
    var (w1, got) := GetApp(w, ar.spec.app);
    if got.Ok? { WithAppSettles(w1, ar, got.value); }
  }

  lemma ResolveWakes(w: World, ar: Request)
    requires Sound(w) && Loaded(w.store, ar) && Active(w.ev, ar)
    ensures Woken(Resolve(w, ar), ar.id)
  {
    HandlePermissionSound(w, ar);
    PermissionSettles(w, ar);
    var handled := HandlePermission(w, ar);
    if handled.result.Ok? { FinishWakes(handled.w, handled.ar); }
  }

  lemma ProceedWakes(w: World, ar: Request)
    requires Sound(w) && Loaded(w.store, ar) && ar.status.state in {Empty, Initiated, Requested, Granted}
    ensures Woken(Proceed(w, ar), ar.id)
  {
    HandleConflictSound(w, ar);
    var checked := HandleConflict(w, ar);
    if checked.err.None? { ResolveWakes(checked.w, checked.ar); }
  }

  lemma DeleteWakes(w: World, id: nat)
    ensures var (w1, err) := DeleteCall(w, id);
      err.None? && id in w1.store.requests ==> w1.store.requests[id].deleting
  {
  }

  lemma ConcludedWakes(w: World, ar: Request)
    requires Sound(w) && Loaded(w.store, ar) && Concluded(ar.status.state)
    ensures Woken(Reconciled(w, BuildResult(ar.status.state, ar.status, w.cfg, w.store.now)), ar.id)
  {
    ResultFits(w, ar);
  }

  lemma ContinueWakes(w: World, ar: Request)
    requires Sound(w) && Loaded(w.store, ar)
    ensures Woken(Continue(w, ar), ar.id)
  {
    HandleTTLSound(w, ar);
    DeleteWakes(w, ar.id);
    match HandleTTL(w, ar).1
    case Err(_) =>
    case Ok(true) =>
    case Ok(false) =>
      if Concluded(ar.status.state) { ConcludedWakes(w, ar); } else { ProceedWakes(w, ar); }
  }

  lemma CopyWakes(w: World, ar: Request)
    requires Sound(w) && ar.id in w.store.requests && w.store.requests[ar.id] == ar
    ensures Woken(FromCopy(w, ar), ar.id)
  {
    HandleFinalizerSound(w, ar);
    var final := HandleFinalizer(w, ar);
    if final.result == Ok(false) { ContinueWakes(final.w, final.ar); }
  }

  /** Every reconciliation that ends without error on a stored request that is not being deleted
      asks to be woken exactly at the request's next deadline, or after the polling interval. */
  lemma WakesInTime(w: World, id: nat)
    requires Sound(w)
    ensures Woken(Reconcile.Reconcile(w, id), id)
  {
    ReadStored(w, id);
    var (w1, got) := GetRequest(w, id);
    if got.Ok? { CopyWakes(w1, got.value); }
  }

  // ---------------------------------------------------------------- a pending request

  /** The turns of a visit in which nobody interferes and the plugin answers pending. */
  function Quiet(message: string): seq<Turn> {
    seq(9, i => Turn([], Succeed, Answer(PluginPending, message)))
  }

  /** The request is requested with that message; application, project, template and siblings
      leave it alone; plugin and request timeout are configured. */
  ghost predicate Waiting(cfg: Config, s: Store, ar: Request, rt: Rendered, message: string) {
    && StoreOk(s) && Ready(s, ar, rt)
    && ar.status.state == Requested && UpToDate(ar.status, Requested, message, HashOf(rt))
    && ar.status.expiresAt.None? && !ar.deleting && ar.status.history != []
    && ValidateConflict(Siblings(s, ar.ns, ar.spec.user, ar.spec.app), ar).None?
    && cfg.plugin && cfg.timeout != 0
  }

  function TimeoutAt(cfg: Config, ar: Request): int
    requires ar.status.history != []
  {
    Last(ar.status.history).time + cfg.timeout
  }

  lemma PendingPermission(w: World, n: nat, ar: Request, rt: Rendered, message: string)
    requires Calm(w, n, Answer(PluginPending, message)) && n >= 4 && Waiting(w.cfg, w.store, ar, rt, message)
    ensures var flow := HandlePermission(w, ar);
      flow.result == Ok(Requested) && flow.ar == ar && flow.w.store == w.store && flow.w.cfg == w.cfg
      && Calm(flow.w, n - 4, Answer(PluginPending, message))
  {
    var reply := Answer(PluginPending, message);
    CalmPermission(w, n, reply, ar, rt);
    var w3 := Next(Next(Next(w)));
    CalmPause(w3, n - 3, reply);
    var w4 := NoteAnswer(Next(w3), ar.id, PluginPending);
    assert Allowed(w3, ar) == (w4, Ok(Decision(false, PluginPending, message)));
    assert Follow(w4, ar, rt, Decision(false, PluginPending, message)) == Flow(w4, ar, Ok(Requested));
  }

  lemma PendingFinish(w: World, n: nat, ar: Request, rt: Rendered, message: string)
    requires Calm(w, n, Answer(PluginPending, message)) && n >= 1 && Waiting(w.cfg, w.store, ar, rt, message)
    ensures var done := Finish(w, ar, Requested);
      if w.store.now <= TimeoutAt(w.cfg, ar) then
        done.w.store == w.store && done.result == Ok(WakeAfter(w.cfg.requeue))
      else
        && ar.id in done.w.store.requests && done.w.store.requests[ar.id].status.state == Timeout
        && done.w.store.requests[ar.id].status.history
           == ar.status.history + [Entry(w.store.now, Timeout, Some("AccessRequest timed out"))]
  {
    if w.store.now > TimeoutAt(w.cfg, ar) {
      var status := Recorded(ar.status, ar.spec.duration, Timeout, "AccessRequest timed out", w.store.now);
      CalmPutStatus(w, n, Answer(PluginPending, message), ar, status);
      assert Last(ar.status.history).state == Requested by { assert RequestOk(w.store, ar); }
      assert HandleRequestTimeout(w, ar).result == Ok(true);
    }
  }

  /** What a quiet reconciliation makes of a pending request: before the deadline it changes nothing
      and asks to be woken after the polling interval; after it the request is concluded. */
  predicate Polled(w: World, done: Reconciled, ar: Request)
    requires ar.status.history != []
  {
    if w.store.now <= TimeoutAt(w.cfg, ar) then
      done.w.store == w.store && done.w.cfg == w.cfg && done.result == Ok(WakeAfter(w.cfg.requeue))
    else
      && ar.id in done.w.store.requests && done.w.store.requests[ar.id].status.state == Timeout
      && done.w.store.requests[ar.id].status.history
         == ar.status.history + [Entry(w.store.now, Timeout, Some("AccessRequest timed out"))]
  }

  lemma PendingResolve(w: World, n: nat, ar: Request, rt: Rendered, message: string)
    requires Calm(w, n, Answer(PluginPending, message)) && n >= 5 && Waiting(w.cfg, w.store, ar, rt, message)
    ensures Polled(w, Resolve(w, ar), ar)
  {
    PendingPermission(w, n, ar, rt, message);
    var flow := HandlePermission(w, ar);
    PendingFinish(flow.w, n - 4, ar, rt, message);
    assert Resolve(w, ar) == Finish(flow.w, ar, Requested);
  }

  lemma PendingProceed(w: World, n: nat, ar: Request, rt: Rendered, message: string)
    requires Calm(w, n, Answer(PluginPending, message)) && n >= 6 && Waiting(w.cfg, w.store, ar, rt, message)
    ensures Polled(w, Proceed(w, ar), ar)
  {
    CalmPause(w, n, Answer(PluginPending, message));
    assert HandleConflict(w, ar) == Step(Next(w), ar, None);
    PendingResolve(Next(w), n - 1, ar, rt, message);
  }

  lemma PendingCopy(w: World, ar: Request, rt: Rendered, message: string)
    requires Waiting(w.cfg, w.store, ar, rt, message)
    ensures FromCopy(w, ar) == Proceed(w, ar)
  {
    assert RequestOk(w.store, ar);
  }

  /** A quiet visit to a pending request asks to be woken after the polling interval and changes
      nothing, or, once the deadline has passed, concludes it there and then. */
  lemma PendingVisit(w: World, ar: Request, rt: Rendered, message: string)
    requires w.script == Quiet(message) && Waiting(w.cfg, w.store, ar, rt, message)
    ensures Polled(w, Reconcile.Reconcile(w, ar.id), ar)
  {
    assert Calm(w, 9, Answer(PluginPending, message));
    CalmPause(w, 9, Answer(PluginPending, message));
    PendingCopy(Next(w), ar, rt, message);
    PendingProceed(Next(w), 8, ar, rt, message);
    assert Reconcile.Reconcile(w, ar.id) == FromCopy(Next(w), ar);
  }
}
