/** One reconciliation of an AccessRequest, as functions of the world
    (internal/controller/accessrequest_controller.go). */
module Reconcile {
  import opened Prelude
  import opened Requests
  import opened Cluster
  import opened Permission

  /** When to reconcile again: not by itself, or after some time. */
  datatype Wake = NoWake | WakeAfter(delay: int)

  // ---------------------------------------------------------------- finalizer

  function AddFinalizer(w: World, ar: Request, attempts: nat): Step
    decreases attempts
  {
    var (w1, got) := GetRequest(w, ar.id);
    match got
    case Err(e) => Step(w1, ar, Some(e))
    case Ok(r) =>
      var (w2, ar2, err) := PutFinalizer(w1, r.(finalizer := true));
      if err == Some(Conflict) && attempts > 1 then AddFinalizer(w2, ar2, attempts - 1)
      else Step(w2, ar2, err)
  }

  function DropFinalizer(w: World, ar: Request, attempts: nat): Step
    decreases attempts
  {
    var (w1, got) := GetRequest(w, ar.id);
    match got
    case Err(e) => Step(w1, ar, if e == NotFound then None else Some(e))
    case Ok(r) =>
      var (w2, ar2, err) := PutFinalizer(w1, r.(finalizer := false));
      if err == Some(Conflict) && attempts > 1 then DropFinalizer(w2, ar2, attempts - 1)
      else Step(w2, ar2, err)
  }

  /** Errors of the template are ignored: the removal goes ahead without one. */
  function Cleanup(w: World, ar: Request): (World, Option<Error>) {
    if ar.status.state == Expired then (w, None)
    else
      var (w1, got) := RenderedRole(w, ar, ar.status.target);
      EditProject(w1, ar, RevokeAccess, if got.Ok? then Some(got.value) else None, ATTEMPTS)
  }

  /** Ok(true) when the request is being deleted. */
  function HandleFinalizer(w: World, ar: Request): Flow<bool> {
    if !ar.deleting then
      if ar.finalizer then Flow(w, ar, Ok(false))
      else ToFlow(AddFinalizer(w, ar, ATTEMPTS), false)
    else if !ar.finalizer then Flow(w, ar, Ok(true))
    else
      var (w1, err) := Cleanup(w, ar);
      if err.Some? then Flow(w1, ar, Err(err.value))
      else ToFlow(DropFinalizer(w1, ar, ATTEMPTS), true)
  }

  // ---------------------------------------------------------------- deadlines

  function TTLDeadline(status: Status, cfg: Config): Option<int>
    requires status.history != []
  {
    if Concluded(status.state) then Some(Last(status.history).time + cfg.ttl) else None
  }

  function TimeoutDeadline(status: Status, cfg: Config): Option<int>
    requires status.history != []
  {
    if status.state == Initiated || status.state == Requested
    then Some(Last(status.history).time + cfg.timeout) else None
  }

  function HandleTTL(w: World, ar: Request): (World, Result<bool>) {
    if w.cfg.ttl == 0 || !Concluded(ar.status.state) then (w, Ok(false))
    else if ar.status.history == [] then (w, Err(Panic))
    else if w.store.now <= TTLDeadline(ar.status, w.cfg).value then (w, Ok(false))
    else
      var (w1, err) := DeleteCall(w, ar.id);
      (w1, if err.Some? then Err(err.value) else Ok(true))
  }

  function WriteTimeout(w: World, ar: Request, attempts: nat): Step
    decreases attempts
  {
    var status := Recorded(ar.status, ar.spec.duration, Timeout, "AccessRequest timed out", w.store.now);
    var (w1, ar1, err) := PutStatus(w, ar.(status := status));
    if err == Some(Conflict) && attempts > 1 then
      var (w2, got) := GetRequest(w1, ar1.id);
      match got
      case Err(e) => Step(w2, ar1, Some(e))
      case Ok(r) => WriteTimeout(w2, r, attempts - 1)
    else Step(w1, ar1, err)
  }

  function HandleRequestTimeout(w: World, ar: Request): Flow<bool> {
    if w.cfg.timeout == 0 || (ar.status.state != Initiated && ar.status.state != Requested) then Flow(w, ar, Ok(false))
    else if ar.status.history == [] then Flow(w, ar, Err(Panic))
    else if w.store.now <= TimeoutDeadline(ar.status, w.cfg).value then Flow(w, ar, Ok(false))
    else ToFlow(WriteTimeout(w, ar, ATTEMPTS), true)
  }

  function BuildResult(state: State, status: Status, cfg: Config, now: int): Result<Wake> {
    match state
    case Requested => Ok(WakeAfter(cfg.requeue))
    case Granted => if status.expiresAt.None? then Err(Panic) else Ok(WakeAfter(status.expiresAt.value - now))
    case _ =>
      if !Concluded(status.state) || cfg.ttl == 0 then Ok(NoWake)
      else if status.history == [] then Err(Panic)
      else Ok(WakeAfter(TTLDeadline(status, cfg).value - now))
  }

  // ---------------------------------------------------------------- conflicts

  /** `other` asks for the same thing and is pending or granted, or is not initialised yet and
      was created later. */
  predicate Conflicts(other: Request, ar: Request) {
    && other.id != ar.id
    && other.spec.template == ar.spec.template
    && (InFlight(other.status.state) || (other.status.state == Empty && other.created > ar.created))
  }

  function ConflictMessage(other: Request): string {
    if other.status.state == Granted then "found existing AccessRequest in granted state"
    else if other.status.state == Requested then "found existing AccessRequest in requested state"
    else "found older AccessRequest in progress"
  }

  /** The message of the first conflicting request of the list. */
  function ValidateConflict(list: seq<Request>, ar: Request): Option<string> {
    if list == [] then None
    else if Conflicts(list[0], ar) then Some(ConflictMessage(list[0]))
    else ValidateConflict(list[1..], ar)
  }

  function HandleConflict(w: World, ar: Request): Step {
    var (w1, got) := ListRequests(w, ar.ns, ar.spec.user, ar.spec.app);
    match got
    case Err(e) => Step(w1, ar, Some(e))
    case Ok(list) =>
      var conflict := ValidateConflict(list, ar);
      if conflict.None? then Step(w1, ar, None)
      else
        var status := Recorded(ar.status, ar.spec.duration, Invalid, conflict.value, w1.store.now);
        var (w2, ar2, err) := PutStatus(NoteConflict(w1, ar), ar.(status := status));
        Step(w2, ar2, err)
  }

  // ---------------------------------------------------------------- reconcile

  datatype Reconciled = Reconciled(w: World, result: Result<Wake>)

  /** The timeout check and the result, after HandlePermission answered `state`. */
  function Finish(w: World, ar: Request, state: State): Reconciled {
    var timed := HandleRequestTimeout(w, ar);
    match timed.result
    case Err(e) => Reconciled(timed.w, Err(e))
    case Ok(timedOut) =>
      var final := if timedOut then Timeout else state;
      Reconciled(timed.w, BuildResult(final, timed.ar.status, timed.w.cfg, timed.w.store.now))
  }

  /** From HandlePermission on. */
  function Resolve(w: World, ar: Request): Reconciled {
    var handled := HandlePermission(w, ar);
    match handled.result
    case Err(e) => Reconciled(handled.w, Err(e))
    case Ok(state) => Finish(handled.w, handled.ar, state)
  }

  /** From the conflict check on, for a request that is neither deleted nor concluded. A request
      found in conflict goes on all the same. */
  function Proceed(w: World, ar: Request): Reconciled {
    var checked := HandleConflict(w, ar);
    if checked.err.Some? then Reconciled(checked.w, Err(checked.err.value)) else Resolve(checked.w, checked.ar)
  }

  /** From the TTL check on, for a request that is not being deleted. */
  function Continue(w: World, ar: Request): Reconciled {
    var (w1, exceeded) := HandleTTL(w, ar);
    match exceeded
    case Err(e) => Reconciled(w1, Err(e))
    case Ok(true) => Reconciled(w1, Ok(NoWake))
    case Ok(false) =>
      if Concluded(ar.status.state) then
        Reconciled(w1, BuildResult(ar.status.state, ar.status, w1.cfg, w1.store.now))
      else Proceed(w1, ar)
  }

  /** From the finalizer on, for the request as it was read. */
  function FromCopy(w: World, ar: Request): Reconciled {
    var final := HandleFinalizer(w, ar);
    match final.result
    case Err(e) => Reconciled(final.w, Err(e))
    case Ok(true) => Reconciled(final.w, Ok(NoWake))
    case Ok(false) => Continue(final.w, final.ar)
  }

  function Reconcile(w: World, id: nat): Reconciled {
    var (w1, got) := GetRequest(w, id);
    match got
    case Err(e) => Reconciled(w1, if e == NotFound then Ok(NoWake) else Err(e))
    case Ok(ar) => FromCopy(w1, ar)
  }
}
