/** The objects the controller holds in memory and changes in place: an AccessRequest, an
    AppProject, and the client through which it reaches everything else. Each method is proved
    equal to the function on values that the theorems are about. */
module Objects {
  import opened Prelude
  import opened Templates
  import opened Roles
  import opened Requests
  import opened Cluster

  // ---------------------------------------------------------------- AccessRequest

  /** True when the last entry already records this state and message. */
  method IsLastHistorySameAsCurrent(history: seq<Entry>, newStatus: State, details: string) returns (same: bool)
    ensures same == SameAsLast(history, newStatus, details)
  {
    if |history| > 0 {
      var last := history[|history| - 1];
      if last.state == newStatus {
        if details == "" && last.details.None? {
          return true;
        }
        if details != "" && last.details.Some? && last.details.value == details {
          return true;
        }
      }
    }
    return false;
  }

  class AccessRequest {
    var id: nat
    var version: nat
    var ns: string
    var created: int
    var deleting: bool
    var finalizer: bool
    var spec: Spec
    var status: Status

    constructor (r: Request)
      ensures Value() == r
    {
      id, version, ns, created := r.id, r.version, r.ns, r.created;
      deleting, finalizer, spec, status := r.deleting, r.finalizer, r.spec, r.status;
    }

    function Value(): Request
      reads this
    {
      Request(id, version, ns, created, deleting, finalizer, spec, status)
    }

    method Load(r: Request)
      modifies this
      ensures Value() == r
    {
      id, version, ns, created := r.id, r.version, r.ns, r.created;
      deleting, finalizer, spec, status := r.deleting, r.finalizer, r.spec, r.status;
    }

    method UpdateStatusHistory(newStatus: State, details: string, now: int)
      modifies this`status
      ensures status == Recorded(old(status), spec.duration, newStatus, details, now)
    {
      var next := status.(state := newStatus);
      if newStatus == Granted && next.expiresAt.None? {
        next := next.(expiresAt := Some(now + spec.duration));
      }
      var same := IsLastHistorySameAsCurrent(next.history, newStatus, details);
      if same {
        var last := |next.history| - 1;
        next := next.(history := next.history[last := next.history[last].(time := now)]);
      } else {
        var text: Option<string> := None;
        if details != "" {
          text := Some(details);
        }
        next := next.(history := next.history + [Entry(now, newStatus, text)]);
      }
      status := next;
    }

    /** Searches backwards for the most recent entry of the given state. */
    method GetLastHistory(state: State) returns (entry: Option<Entry>)
      ensures entry == LastFor(status.history, state)
    {
      var history := status.history;
      var i := |history| - 1;
      assert history[..i + 1] == history;
      while i >= 0
        invariant -1 <= i < |history|
        invariant LastFor(history[..i + 1], state) == LastFor(history, state)
      {
        if history[i].state == state {
          return Some(history[i]);
        }
        assert history[..i + 1][..i] == history[..i];
        i := i - 1;
      }
      return None;
    }

    method GetLastStatusDetails(state: State) returns (message: string)
      ensures message == LastMessage(status, state)
    {
      var last := GetLastHistory(state);
      if last.Some? && last.value.details.Some? {
        return last.value.details.value;
      }
      return "";
    }

    predicate IsExpiring(now: int)
      reads this
    {
      Expiring(status, now)
    }

    predicate IsConcluded()
      reads this
    {
      Concluded(status.state)
    }

    predicate IsInitialized()
      reads this
    {
      status.state != Empty
    }
  }

  // ---------------------------------------------------------------- matching

  method Contains<T(==)>(xs: seq<T>, x: T) returns (found: bool)
    ensures found == (x in xs)
  {
    for i := 0 to |xs|
      invariant x !in xs[..i]
    {
      if xs[i] == x {
        return true;
      }
    }
    return false;
  }

  method IsSubset<T(==)>(xs: seq<T>, ys: seq<T>) returns (covered: bool)
    ensures covered == Subset(xs, ys)
  {
    for i := 0 to |xs|
      invariant forall k :: 0 <= k < i ==> xs[k] in ys
    {
      var found := Contains(ys, xs[i]);
      if !found {
        return false;
      }
    }
    return true;
  }

  method MatchRolePoliciesAndTokens(role: ProjectRole, policies: seq<string>, tokens: seq<Token>)
      returns (matching: bool)
    ensures matching == MatchPoliciesAndTokens(role, policies, tokens)
  {
    if |role.policies| != |policies| || |role.tokens| != |tokens| {
      return false;
    }
    var samePolicies := IsSubset(role.policies, policies);
    if !samePolicies {
      return false;
    }
    matching := IsSubset(role.tokens, tokens);
  }

  // ---------------------------------------------------------------- AppProject

  method WithoutUser(groups: seq<string>, user: string) returns (kept: seq<string>)
    ensures kept == Without(groups, user)
  {
    kept := [];
    for i := 0 to |groups|
      invariant kept == Without(groups[..i], user)
    {
      assert groups[..i + 1] == groups[..i] + [groups[i]];
      WithoutAppend(groups[..i], [groups[i]], user);
      if groups[i] != user {
        kept := kept + [groups[i]];
      }
    }
    assert groups[..|groups|] == groups;
  }

  class AppProject {
    var version: nat
    var roles: seq<ProjectRole>

    constructor ()
    {
      version, roles := 0, [];
    }

    method RemoveSubjectFromRole(ar: AccessRequest, rt: Rendered)
      modifies this`roles
      ensures roles == RemoveSubject(old(roles), RoleName(rt.name, ar.spec.app), ar.spec.user)
    {
      var roleName := RoleName(rt.name, ar.spec.app);
      for idx := 0 to |roles|
        invariant |roles| == |old(roles)|
        invariant forall k :: 0 <= k < idx ==> roles[k] == RemoveFrom(old(roles[k]), roleName, ar.spec.user)
        invariant forall k :: idx <= k < |roles| ==> roles[k] == old(roles[k])
      {
        if roles[idx].name == roleName {
          var groups := WithoutUser(roles[idx].groups, ar.spec.user);
          roles := roles[idx := roles[idx].(groups := groups)];
        }
      }
    }

    method UpdateProjectPolicies(ar: AccessRequest, rt: Rendered)
      modifies this`roles
      ensures roles == SyncPolicies(old(roles), RoleName(rt.name, ar.spec.app), rt)
      ensures SyncWrites(old(roles), roles, RoleName(rt.name, ar.spec.app), rt)
    {
      var roleName := RoleName(rt.name, ar.spec.app);
      for idx := 0 to |roles|
        invariant |roles| == |old(roles)|
        invariant forall k :: 0 <= k < idx ==> roles[k] == SyncRole(old(roles[k]), roleName, rt)
        invariant forall k :: idx <= k < |roles| ==> roles[k] == old(roles[k])
      {
        if roles[idx].name == roleName {
          roles := roles[idx := roles[idx].(description := rt.description)];
          roles := roles[idx := roles[idx].(policies := rt.policies)];
          roles := roles[idx := roles[idx].(tokens := [])];
        }
      }
    }

    method AddRoleInProject(ar: AccessRequest, rt: Rendered)
      modifies this`roles
      ensures roles == old(roles) + [NewRole(RoleName(rt.name, ar.spec.app), ar.spec.user, rt)]
      ensures IsWritten(roles[|old(roles)|], RoleName(rt.name, ar.spec.app), rt, [ar.spec.user])
    {
      var role := ProjectRole(RoleName(rt.name, ar.spec.app), rt.description, rt.policies, [], [ar.spec.user]);
      roles := roles + [role];
    }

    method AddSubjectInRole(ar: AccessRequest, rt: Rendered)
      modifies this`roles
      ensures roles == AddSubject(old(roles), RoleName(rt.name, ar.spec.app), ar.spec.user, rt)
    {
      var roleName := RoleName(rt.name, ar.spec.app);
      var roleFound := false;
      for idx := 0 to |roles|
        invariant |roles| == |old(roles)|
        invariant roleFound == exists k :: 0 <= k < idx && old(roles[k]).name == roleName
        invariant forall k :: 0 <= k < idx ==> roles[k] == AddTo(old(roles[k]), roleName, ar.spec.user)
        invariant forall k :: idx <= k < |roles| ==> roles[k] == old(roles[k])
      {
        if roles[idx].name == roleName {
          roleFound := true;
          var hasAccess := Contains(roles[idx].groups, ar.spec.user);
          if !hasAccess {
            roles := roles[idx := roles[idx].(groups := roles[idx].groups + [ar.spec.user])];
          }
        }
      }
      assert roleFound == HasRole(old(roles), roleName);
      if !roleFound {
        AddRoleInProject(ar, rt);
      }
    }

    /** The role exists and every role of that name matches the template. */
    method IsRoleInSync(ar: AccessRequest, rt: Rendered) returns (inSync: bool)
      ensures inSync == InSync(roles, RoleName(rt.name, ar.spec.app), rt, ar.spec.user, ar.status.state == Granted)
    {
      inSync := false;
      var roleName := RoleName(rt.name, ar.spec.app);
      for idx := 0 to |roles|
        invariant inSync == exists k :: 0 <= k < idx && roles[k].name == roleName
        invariant forall k :: 0 <= k < idx && roles[k].name == roleName ==>
                    RoleInSync(roles[k], rt, ar.spec.user, ar.status.state == Granted)
      {
        var role := roles[idx];
        if role.name == roleName {
          if role.description != rt.description {
            return false;
          }
          if ar.status.state == Granted {
            var hasAccess := Contains(role.groups, ar.spec.user);
            if !hasAccess {
              return false;
            }
          }
          var matching := MatchRolePoliciesAndTokens(role, rt.policies, []);
          if !matching {
            return false;
          }
          inSync := true;
        }
      }
    }
  }

  // ---------------------------------------------------------------- the client

  /** Everything outside the controller: the API server, the plugin, the clock, other actors. */
  class Client {
    var w: World

    constructor (start: World)
      ensures w == start
    {
      w := start;
    }

    function Now(): int
      reads this
    {
      w.store.now
    }

    method Get(id: nat, ar: AccessRequest) returns (err: Option<Error>)
      modifies this, ar
      ensures var (w1, got) := GetRequest(old(w), id);
        && w == w1
        && (got.Ok? ==> err.None? && ar.Value() == got.value)
        && (got.Err? ==> err == Some(got.error) && ar.Value() == old(ar.Value()))
    {
      var (w1, got) := GetRequest(w, id);
      w := w1;
      match got
      case Ok(r) => ar.Load(r); return None;
      case Err(e) => return Some(e);
    }

    method GetApplication(app: Ref) returns (got: Result<string>)
      modifies this
      ensures (w, got) == GetApp(old(w), app)
    {
      var (w1, r) := GetApp(w, app);
      w, got := w1, r;
    }

    method GetRoleTemplate(ref: Ref) returns (got: Result<RoleTemplate>)
      modifies this
      ensures (w, got) == GetTemplate(old(w), ref)
    {
      var (w1, r) := GetTemplate(w, ref);
      w, got := w1, r;
    }

    method GetAppProject(key: Ref, project: AppProject) returns (err: Option<Error>)
      modifies this, project
      ensures var (w1, got) := GetProject(old(w), key);
        && w == w1
        && (got.Ok? ==> err.None? && Project.Project(project.version, project.roles) == got.value)
        && (got.Err? ==> err == Some(got.error))
    {
      var (w1, got) := GetProject(w, key);
      w := w1;
      match got
      case Ok(p) => project.version, project.roles := p.version, p.roles; return None;
      case Err(e) => return Some(e);
    }

    method List(ns: string, user: string, app: Ref) returns (got: Result<seq<Request>>)
      modifies this
      ensures (w, got) == ListRequests(old(w), ns, user, app)
    {
      var (w1, r) := ListRequests(w, ns, user, app);
      w, got := w1, r;
    }

    method Patch(key: Ref, project: AppProject) returns (err: Option<Error>)
      modifies this
      ensures (w, err) == PatchProject(old(w), key, project.version, project.roles)
    {
      var (w1, e) := PatchProject(w, key, project.version, project.roles);
      w, err := w1, e;
    }

    method StatusUpdate(ar: AccessRequest) returns (err: Option<Error>)
      modifies this, ar
      ensures (w, ar.Value(), err) == PutStatus(old(w), old(ar.Value()))
    {
      var (w1, r, e) := PutStatus(w, ar.Value());
      ar.Load(r);
      w, err := w1, e;
    }

    method Update(ar: AccessRequest) returns (err: Option<Error>)
      modifies this, ar
      ensures (w, ar.Value(), err) == PutFinalizer(old(w), old(ar.Value()))
    {
      var (w1, r, e) := PutFinalizer(w, ar.Value());
      ar.Load(r);
      w, err := w1, e;
    }

    method Delete(id: nat) returns (err: Option<Error>)
      modifies this
      ensures (w, err) == DeleteCall(old(w), id)
    {
      var (w1, e) := DeleteCall(w, id);
      w, err := w1, e;
    }

    method Plugin() returns (reply: PluginReply)
      modifies this
      ensures (w, reply) == CallPlugin(old(w))
    {
      var (w1, r) := CallPlugin(w);
      w, reply := w1, r;
    }

    /** The plugin's answers to grant calls, conflicts found and empty projects read are part of the
        evidence about the run. */
    method RecordAnswer(id: nat, answer: PluginStatus)
      modifies this
      ensures w == NoteAnswer(old(w), id, answer)
    {
      w := NoteAnswer(w, id, answer);
    }

    method RecordConflict(ar: Request)
      modifies this
      ensures w == NoteConflict(old(w), ar)
    {
      w := NoteConflict(w, ar);
    }

    method RecordProjectless(ar: Request)
      modifies this
      ensures w == NoteProjectless(old(w), ar)
    {
      w := NoteProjectless(w, ar);
    }
  }
}
