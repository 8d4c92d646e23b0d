/** The controller as it runs (internal/controller/accessrequest_controller.go): methods over the
    in-memory request and the client, each proved to do what module Reconcile says. */
module Reconciler {
  import opened Prelude
  import opened Roles
  import opened Requests
  import opened Objects
  import opened Service
  import R = Reconcile
  import F = WatchFilter
  import ReconcileSafety

  // ---------------------------------------------------------------- the watch filter

  method HasRoleIn(roles: seq<ProjectRole>, role: ProjectRole) returns (found: bool)
    ensures found == F.HasMatch(roles, role)
  {
    var i := 0;
    while i < |roles|
      invariant 0 <= i <= |roles|
      invariant F.HasMatch(roles[i..], role) == F.HasMatch(roles, role)
    {
      var r := roles[i];
      assert roles[i..][1..] == roles[i + 1..];
      if r.name == role.name && r.description == role.description {
        found := MatchRolePoliciesAndTokens(r, role.policies, role.tokens);
        if !found || |r.groups| != |role.groups| {
          return false;
        }
        found := IsSubset(r.groups, role.groups);
        return;
      }
      i := i + 1;
    }
    return false;
  }

  /** Whether an update of a project calls for reconciliations. An absent project always does. */
  method ProjectChangeShouldTriggerReconcile(after: Option<seq<ProjectRole>>, before: Option<seq<ProjectRole>>)
      returns (triggers: bool)
    ensures triggers == (after.None? || before.None? || F.Triggers(after.value, before.value))
  {
    if after.None? || before.None? {
      return true;
    }
    if |after.value| != |before.value| {
      return true;
    }
    for i := 0 to |before.value|
      invariant forall k :: 0 <= k < i ==> F.HasMatch(after.value, before.value[k])
    {
      var found := HasRoleIn(after.value, before.value[i]);
      if !found {
        return true;
      }
    }
    return false;
  }

  // ---------------------------------------------------------------- the conflict check

  /** The message of the first request of the list that stands in the way of `ar`. */
  method ValidateConflict(list: seq<Request>, ar: Request) returns (conflict: Option<string>)
    ensures conflict == R.ValidateConflict(list, ar)
  {
    var i := 0;
    while i < |list|
      invariant 0 <= i <= |list|
      invariant R.ValidateConflict(list[i..], ar) == R.ValidateConflict(list, ar)
    {
      var other := list[i];
      assert list[i..][1..] == list[i + 1..];
      i := i + 1;
      if other.id == ar.id {
        continue;
      }
      if other.spec.template != ar.spec.template {
        continue;
      }
      if other.status.state == Granted || other.status.state == Requested {
        return Some(R.ConflictMessage(other));
      }
      if other.status.state == Empty && other.created > ar.created {
        return Some(R.ConflictMessage(other));
      }
    }
    return None;
  }

  class AccessRequestReconciler {
    const client: Client
    const service: PermissionService

    constructor (client: Client)
      ensures this.client == client && Valid()
    {
      this.client := client;
      service := new PermissionService(client);
    }

    /** Reconciler and service share one client. */
    predicate Valid() {
      service.client == client
    }

    // ---------------------------------------------------------------- finalizer

    method AddFinalizer(ar: AccessRequest) returns (err: Option<Error>)
      modifies client, ar
      ensures P.Step(client.w, ar.Value(), err) == R.AddFinalizer(old(client.w), old(ar.Value()), P.ATTEMPTS)
    {
      var attempts := P.ATTEMPTS;
      while true
        invariant attempts > 0
        invariant R.AddFinalizer(client.w, ar.Value(), attempts)
               == R.AddFinalizer(old(client.w), old(ar.Value()), P.ATTEMPTS)
        decreases attempts
      {
        err := client.Get(ar.id, ar);
        if err.Some? {
          return;
        }
        ar.finalizer := true;
        err := client.Update(ar);
        if err != Some(Conflict) || attempts == 1 {
          return;
        }
        attempts := attempts - 1;
      }
    }

    method RemoveFinalizer(ar: AccessRequest) returns (err: Option<Error>)
      modifies client, ar
      ensures P.Step(client.w, ar.Value(), err) == R.DropFinalizer(old(client.w), old(ar.Value()), P.ATTEMPTS)
    {
      var attempts := P.ATTEMPTS;
      while true
        invariant attempts > 0
        invariant R.DropFinalizer(client.w, ar.Value(), attempts)
               == R.DropFinalizer(old(client.w), old(ar.Value()), P.ATTEMPTS)
        decreases attempts
      {
        err := client.Get(ar.id, ar);
        if err.Some? {
          return if err == Some(NotFound) then None else err;
        }
        ar.finalizer := false;
        err := client.Update(ar);
        if err != Some(Conflict) || attempts == 1 {
          return;
        }
        attempts := attempts - 1;
      }
    }

    method Cleanup(ar: AccessRequest) returns (err: Option<Error>)
      requires Valid()
      modifies client
      ensures (client.w, err) == R.Cleanup(old(client.w), ar.Value())
    {
      if ar.status.state == Expired {
        return None;
      }
      var role := service.GetRenderedRole(ar, ar.status.target);
      err := service.RemoveArgoCDAccess(ar, if role.Ok? then Some(role.value) else None);
    }

    method HandleFinalizer(ar: AccessRequest) returns (deleted: Result<bool>)
      requires Valid()
      modifies client, ar
      ensures P.Flow(client.w, ar.Value(), deleted) == R.HandleFinalizer(old(client.w), old(ar.Value()))
    {
      var err: Option<Error> := None;
      if !ar.deleting {
        if !ar.finalizer {
          err := AddFinalizer(ar);
        }
        return if err.Some? then Err(err.value) else Ok(false);
      }
      if ar.finalizer {
        err := Cleanup(ar);
        if err.Some? {
          return Err(err.value);
        }
        err := RemoveFinalizer(ar);
      }
      return if err.Some? then Err(err.value) else Ok(true);
    }

    // ---------------------------------------------------------------- deadlines

    method HandleTTL(ar: AccessRequest) returns (exceeded: Result<bool>)
      modifies client
      ensures (client.w, exceeded) == R.HandleTTL(old(client.w), ar.Value())
    {
      if client.w.cfg.ttl == 0 {
        return Ok(false);
      }
      if !ar.IsConcluded() {
        return Ok(false);
      }
      if ar.status.history == [] {
        return Err(Panic);
      }
      var ttl := Last(ar.status.history).time + client.w.cfg.ttl;
      if client.Now() <= ttl {
        return Ok(false);
      }
      var err := client.Delete(ar.id);
      return if err.Some? then Err(err.value) else Ok(true);
    }

    /** Records the timeout, fetching the request again after every conflict. */
    method WriteTimeout(ar: AccessRequest) returns (err: Option<Error>)
      modifies client, ar
      ensures P.Step(client.w, ar.Value(), err) == R.WriteTimeout(old(client.w), old(ar.Value()), P.ATTEMPTS)
    {
      var attempts := P.ATTEMPTS;
      while true
        invariant attempts > 0
        invariant R.WriteTimeout(client.w, ar.Value(), attempts)
               == R.WriteTimeout(old(client.w), old(ar.Value()), P.ATTEMPTS)
        decreases attempts
      {
        ar.UpdateStatusHistory(Timeout, "AccessRequest timed out", client.Now());
        err := client.StatusUpdate(ar);
        if err != Some(Conflict) || attempts == 1 {
          return;
        }
        attempts := attempts - 1;
        err := client.Get(ar.id, ar);
        if err.Some? {
          return;
        }
      }
    }

    method HandleRequestTimeout(ar: AccessRequest) returns (timedOut: Result<bool>)
      modifies client, ar
      ensures P.Flow(client.w, ar.Value(), timedOut) == R.HandleRequestTimeout(old(client.w), old(ar.Value()))
    {
      if client.w.cfg.timeout == 0 {
        return Ok(false);
      }
      if ar.status.state != Initiated && ar.status.state != Requested {
        return Ok(false);
      }
      if ar.status.history == [] {
        return Err(Panic);
      }
      var timeoutAt := Last(ar.status.history).time + client.w.cfg.timeout;
      if client.Now() <= timeoutAt {
        return Ok(false);
      }
      var err := WriteTimeout(ar);
      return if err.Some? then Err(err.value) else Ok(true);
    }

    // ---------------------------------------------------------------- conflicts

    method HandleConflict(ar: AccessRequest) returns (err: Option<Error>)
      modifies client, ar
      ensures P.Step(client.w, ar.Value(), err) == R.HandleConflict(old(client.w), old(ar.Value()))
    {
      var list := client.List(ar.ns, ar.spec.user, ar.spec.app);
      if list.Err? {
        return Some(list.error);
      }
      var conflict := ValidateConflict(list.value, ar.Value());
      if conflict.None? {
        return None;
      }
      client.RecordConflict(ar.Value());
      ar.UpdateStatusHistory(Invalid, conflict.value, client.Now());
      err := client.StatusUpdate(ar);
    }

    // ---------------------------------------------------------------- reconcile

    /** From the conflict check on. */
    method Proceed(ar: AccessRequest) returns (result: Result<R.Wake>)
      requires Valid()
      modifies client, ar
      ensures R.Reconciled(client.w, result) == R.Proceed(old(client.w), old(ar.Value()))
    {
      var err := HandleConflict(ar);
      if err.Some? {
        return Err(err.value);
      }
      var handled := service.HandlePermission(ar);
      if handled.Err? {
        return Err(handled.error);
      }
      var state := handled.value;
      var timedOut := HandleRequestTimeout(ar);
      if timedOut.Err? {
        return Err(timedOut.error);
      }
      if timedOut.value {
        state := Timeout;
      }
      return R.BuildResult(state, ar.status, client.w.cfg, client.Now());
    }

    /** One reconciliation. It keeps a sound run sound and changes the status of no other request. */
    method Reconcile(id: nat) returns (result: Result<R.Wake>)
      requires Valid()
      modifies client
      ensures R.Reconciled(client.w, result) == R.Reconcile(old(client.w), id)
      ensures S.Sound(old(client.w)) ==> S.Sound(client.w) && S.Continues(old(client.w), client.w, {id})
    {
      if S.Sound(client.w) { ReconcileSafety.ReconcileSound(client.w, id); }
      var ar := new AccessRequest(Request(id, 0, "", 0, false, false, Spec(0, Ref("", ""), 0, Ref("", ""), ""), FRESH));
      var err := client.Get(id, ar);
      if err.Some? {
        return if err == Some(NotFound) then Ok(R.NoWake) else Err(err.value);
      }
      var deleted := HandleFinalizer(ar);
      if deleted.Err? {
        return Err(deleted.error);
      }
      if deleted.value {
        return Ok(R.NoWake);
      }
      var exceeded := HandleTTL(ar);
      if exceeded.Err? {
        return Err(exceeded.error);
      }
      if exceeded.value {
        return Ok(R.NoWake);
      }
      if ar.IsConcluded() {
        return R.BuildResult(ar.status.state, ar.status, client.w.cfg, client.Now());
      }
      result := Proceed(ar);
    }
  }
}
