/** The controller's own writes keep the invariant of the run. */
module Writes {
  import opened Prelude
  import opened Templates
  import opened Roles
  import opened Requests
  import opened Cluster
  import opened Permission
  import opened Safety
  import opened Outside

  lemma RoleNameIsEphemeral(name: string, app: Ref)
    ensures Ephemeral(RoleName(name, app))
  {
    var rest := name + "-" + app.ns + "-" + app.name;
    assert RoleName(name, app) == PREFIX + rest;
  }

  // ---------------------------------------------------------------- status writes

  /** The new status may be written for the loaded request. */
  ghost predicate Writable(w: World, ar: Request, status: Status) {
    && StatusOk(status, w.store.now) && status.state != Empty
    && StatusStep(ar.status, status, ar.spec.duration)
    && (ar.id !in w.ev.conflicted ==>
          DagEdge(ar.status.state, status.state) && (status.state == Requested ==> status.expiresAt.None?))
    && (status.state == Granted ==> Approved(w.cfg, w.ev, ar.id))
    && (status.state == Timeout ==> status.history != [] && Late(w.cfg, ar.status, Last(status.history).time))
    && (w.ev.clean ==> NamedRole(w.cfg.names, ar.(status := status)))
    && (w.ev.clean && status.state == Expired ==>
          Ephemeral(ar.status.roleName) && Gone(w.store, ProjectKey(ar), ar.status.roleName, ar.spec.user))
    && (w.ev.clean && ar.status.state == Granted && status.state == Invalid && !Excused(w.ev, ar) ==>
          Ephemeral(ar.status.roleName) && Gone(w.store, ProjectKey(ar), ar.status.roleName, ar.spec.user))
  }

  lemma WritableLater(w: World, x: World, ar: Request, status: Status)
    requires Writable(w, ar, status) && Continues(w, x, {})
    requires forall key, name, user :: x.ev.clean && Ephemeral(name) && Gone(w.store, key, name, user) ==>
               Gone(x.store, key, name, user)
    ensures Writable(x, ar, status)
  {
  }

  function WithStatus(s: Store, id: nat, status: Status): Store
    requires id in s.requests
  {
    var r := s.requests[id].(status := status, version := s.rev + 1);
    s.(rev := s.rev + 1, requests := s.requests[id := r])
  }

  lemma WriteBacking(w: World, ar: Request, status: Status)
    requires Sound(w) && w.ev.clean && Writable(w, ar, status)
    requires ar.id in w.store.requests && w.store.requests[ar.id] == ar && ar.finalizer
    ensures NoOrphan(WithStatus(w.store, ar.id, status))
  {
    StoreFine(w);
    var s, t := w.store, WithStatus(w.store, ar.id, status);
    forall key, name, user | key in t.projects && Ephemeral(name) && Member(t.projects[key].roles, name, user)
      ensures exists id :: Backs(t, id, key, name, user)
    {
      var id :| Backs(s, id, key, name, user);
      if id == ar.id && status.state == Expired {
        assert false;
      }
      assert Backs(t, id, key, name, user);
    }
  }

  lemma WriteFine(w: World, ar: Request, status: Status)
    requires Sound(w) && Writable(w, ar, status)
    requires ar.id in w.store.requests && w.store.requests[ar.id] == ar && ar.finalizer
    ensures Fine(w.cfg, w.ev, WithStatus(w.store, ar.id, status))
  {
    StoreFine(w);
    var s, t := w.store, WithStatus(w.store, ar.id, status);
    forall id | id in t.requests
      ensures t.requests[id].id == id && id < t.next && RequestOk(t, t.requests[id])
    {
      assert RequestOk(s, s.requests[id]);
    }
    if w.ev.clean { WriteBacking(w, ar, status); }
  }

  lemma WriteKept(s: Store, ar: Request, status: Status)
    requires ar.id in s.requests && s.requests[ar.id] == ar
    ensures Kept(s, WithStatus(s, ar.id, status), {ar.id})
  {
  }

  lemma WriteRemoved(w: World, ar: Request, status: Status)
    requires Writable(w, ar, status) && w.ev.clean && ar.status.state != Empty
    requires status.state == Expired || (ar.status.state == Granted && status.state == Invalid && !Excused(w.ev, ar))
    requires ar.id in w.store.requests && w.store.requests[ar.id] == ar
    ensures var t := WithStatus(w.store, ar.id, status); Removed(t, t.requests[ar.id])
  {
    assert status.target == ar.status.target && status.roleName == ar.status.roleName;
    assert RolesAt(WithStatus(w.store, ar.id, status), ProjectKey(ar)) == RolesAt(w.store, ProjectKey(ar));
  }

  lemma OwnWriteMoves(w: World, ar: Request, status: Status)
    requires Writable(w, ar, status) && ar.id in w.store.requests && w.store.requests[ar.id] == ar
    requires StoreOk(w.store)
    ensures var t := WithStatus(w.store, ar.id, status);
      RequestMoves(w.cfg, w.ev, w.store, t, ar, t.requests[ar.id])
  {
    if w.ev.clean && ar.status.state != Empty {
      if status.state == Expired || (ar.status.state == Granted && status.state == Invalid && !Excused(w.ev, ar)) {
        WriteRemoved(w, ar, status);
      }
    }
  }

  /** A step of one request alone is legal when it is for that request. */
  lemma OneMoves(cfg: Config, ev: Evidence, s: Store, t: Store, id: nat)
    requires StoreOk(s) && id in s.requests && id in t.requests
    requires t.requests == s.requests[id := t.requests[id]] && t.projects == s.projects
    requires s.now <= t.now && s.rev <= t.rev && s.next <= t.next
    requires RequestMoves(cfg, ev, s, t, s.requests[id], t.requests[id])
    requires t.requests[id].finalizer == s.requests[id].finalizer
    ensures Moves(cfg, ev, s, t)
  {
    NobodyJoins(cfg, ev, s, t);
    forall i | i in t.requests && i in s.requests
      ensures RequestMoves(cfg, ev, s, t, s.requests[i], t.requests[i])
    {
      if i != id { assert t.requests[i] == s.requests[i]; }
    }
  }

  lemma WriteMoves(w: World, ar: Request, status: Status)
    requires Sound(w) && Writable(w, ar, status)
    requires ar.id in w.store.requests && w.store.requests[ar.id] == ar
    ensures Moves(w.cfg, w.ev, w.store, WithStatus(w.store, ar.id, status))
  {
    StoreFine(w);
    OwnWriteMoves(w, ar, status);
    OneMoves(w.cfg, w.ev, w.store, WithStatus(w.store, ar.id, status), ar.id);
  }

  lemma StatusCommit(w: World, ar: Request, status: Status)
    requires Sound(w) && Writable(w, ar, status)
    requires ar.id in w.store.requests && w.store.requests[ar.id] == ar && ar.finalizer
    ensures var t := WithStatus(w.store, ar.id, status);
      Sound(Commit(w, t)) && Continues(w, Commit(w, t), {ar.id}) && Loaded(t, t.requests[ar.id])
  {
    var t := WithStatus(w.store, ar.id, status);
    WriteFine(w, ar, status);
    WriteMoves(w, ar, status);
    WriteKept(w.store, ar, status);
    CommitSound(w, t, {ar.id});
  }

  lemma PauseWritable(w: World, ar: Request, status: Status)
    requires Sound(w) && Loaded(w.store, ar) && Writable(w, ar, status)
    ensures var x := Pause(w).0;
      Sound(x) && Continues(w, x, {}) && Continues(w, x, {ar.id}) && Loaded(x.store, ar) && Writable(x, ar, status)
  {
    PauseSound(w);
    WritableLater(w, Pause(w).0, ar, status);
    ContinuesWiden(w, Pause(w).0, {}, {ar.id});
  }

  /** A status write leaves the world as other actors left it, or has taken effect there. */
  lemma PutStatusCases(w: World, ar: Request, status: Status)
    requires Loaded(Pause(w).0.store, ar)
    ensures var (w1, ar1, err) := PutStatus(w, ar.(status := status));
      var x := Pause(w).0;
      || (w1 == x && err in {Some(Failed), Some(Conflict)})
      || (&& x.store.requests[ar.id] == ar
          && w1 == Commit(x, WithStatus(x.store, ar.id, status))
          && err in {None, Some(Failed)}
          && (err.None? ==> ar1 == WithStatus(x.store, ar.id, status).requests[ar.id]))
  {
  }

  /** A status write keeps the run sound. On success the copy is the stored request; on a
      version conflict the stored status is still the one the copy had. */
  lemma PutStatusSound(w: World, ar: Request, status: Status)
    requires Sound(w) && Loaded(w.store, ar) && Writable(w, ar, status)
    ensures var (w1, ar1, err) := PutStatus(w, ar.(status := status));
      && Sound(w1) && Continues(w, w1, {ar.id})
      && (err.None? ==> Loaded(w1.store, ar1) && ar1 == ar.(status := status, version := ar1.version))
      && (err == Some(Conflict) ==> Loaded(w1.store, ar))
      && err != Some(Panic)
  {
    PauseWritable(w, ar, status);
    var x := Pause(w).0;
    PutStatusCases(w, ar, status);
    if x.store.requests[ar.id].version == ar.version {
      StatusCommit(x, ar, status);
      ContinuesCompose(w, x, Commit(x, WithStatus(x.store, ar.id, status)), {ar.id});
    }
  }

  // ---------------------------------------------------------------- project patches

  function WithRoles(s: Store, key: Ref, roles: seq<ProjectRole>): Store {
    s.(rev := s.rev + 1, projects := s.projects[key := Project.Project(s.rev + 1, roles)])
  }

  /** The request may be granted now. */
  predicate MayJoin(w: World, ar: Request) {
    Approved(w.cfg, w.ev, ar.id) && ar.status.state in {Initiated, Requested, Invalid}
  }

  /** The edit may be made for the loaded request with the rendered template `rt`. */
  ghost predicate Editable(w: World, ar: Request, edit: Edit, rt: Rendered) {
    && (edit != RevokeAccess ==> ar.status.state !in {Empty, Expired} && ar.status.target != "")
    && (edit == GrantAccess ==> MayJoin(w, ar))
    && (w.ev.clean ==> RoleName(rt.name, ar.spec.app) == ar.status.roleName || ar.status.target == "")
  }

  lemma SyncKeepsMembers(roles: seq<ProjectRole>, name: string, rt: Rendered)
    ensures forall n, u :: Member(SyncPolicies(roles, name, rt), n, u) <==> Member(roles, n, u)
  {
    var edited := SyncPolicies(roles, name, rt);
    forall n, u ensures Member(edited, n, u) <==> Member(roles, n, u) {
      if Member(edited, n, u) {
        var i :| 0 <= i < |edited| && edited[i].name == n && u in edited[i].groups;
        assert roles[i].name == n && u in roles[i].groups;
      }
      if Member(roles, n, u) {
        var i :| 0 <= i < |roles| && roles[i].name == n && u in roles[i].groups;
        assert edited[i].name == n && u in edited[i].groups;
      }
    }
  }

  lemma EditMembers(edit: Edit, roles: seq<ProjectRole>, ar: Request, rt: Rendered)
    ensures var name, edited := RoleName(rt.name, ar.spec.app), Edited(edit, roles, ar, rt);
      && (forall n, u :: n != name || u != ar.spec.user ==> (Member(edited, n, u) <==> Member(roles, n, u)))
      && (edit == RevokeAccess ==> !Member(edited, name, ar.spec.user))
      && (edit == SyncAccess && ar.status.state != Granted ==>
            (Member(edited, name, ar.spec.user) <==> Member(roles, name, ar.spec.user)))
  {
    var name, user := RoleName(rt.name, ar.spec.app), ar.spec.user;
    match edit
    case GrantAccess => GrantMembership(roles, name, user, rt);
    case SyncAccess =>
      if ar.status.state == Granted {
        GrantEditIsSyncEdit(roles, name, user, rt);
        GrantMembership(roles, name, user, rt);
      } else {
        SyncKeepsMembers(roles, name, rt);
      }
    case RevokeAccess => RevokeMembership(roles, name, user, rt);
  }

  lemma PatchBacking(w: World, ar: Request, edit: Edit, rt: Rendered)
    requires Sound(w) && w.ev.clean && Loaded(w.store, ar) && Editable(w, ar, edit, rt)
    requires ProjectKey(ar) in w.store.projects
    ensures NoOrphan(WithRoles(w.store, ProjectKey(ar), Edited(edit, RolesAt(w.store, ProjectKey(ar)), ar, rt)))
  {
    StoreFine(w);
    var s, k := w.store, ProjectKey(ar);
    var roles := RolesAt(s, k);
    var t := WithRoles(s, k, Edited(edit, roles, ar, rt));
    EditMembers(edit, roles, ar, rt);
    forall key, name, user | key in t.projects && Ephemeral(name) && Member(t.projects[key].roles, name, user)
      ensures exists id :: Backs(t, id, key, name, user)
    {
      if key == k && name == RoleName(rt.name, ar.spec.app) && user == ar.spec.user {
        assert Backs(t, ar.id, key, name, user);
      } else {
        assert Member(s.projects[key].roles, name, user);
        var id :| Backs(s, id, key, name, user);
        assert Backs(t, id, key, name, user);
      }
    }
  }

  lemma PatchJoins(w: World, ar: Request, edit: Edit, rt: Rendered)
    requires Sound(w) && w.ev.clean && Loaded(w.store, ar) && Editable(w, ar, edit, rt)
    requires ProjectKey(ar) in w.store.projects
    ensures JoinsExplained(w.cfg, w.ev, w.store,
                           WithRoles(w.store, ProjectKey(ar), Edited(edit, RolesAt(w.store, ProjectKey(ar)), ar, rt)))
  {
    var s, k := w.store, ProjectKey(ar);
    var roles := RolesAt(s, k);
    var t := WithRoles(s, k, Edited(edit, roles, ar, rt));
    EditMembers(edit, roles, ar, rt);
    forall key, name, user | Ephemeral(name) && Member(RolesAt(t, key), name, user) && Gone(s, key, name, user)
      ensures exists id :: Joins(w.cfg, w.ev, t, id, key, name, user)
    {
      assert key == k && name == RoleName(rt.name, ar.spec.app) && user == ar.spec.user;
      assert Joins(w.cfg, w.ev, t, ar.id, key, name, user);
    }
  }

  lemma PatchCommit(w: World, ar: Request, edit: Edit, rt: Rendered)
    requires Sound(w) && Loaded(w.store, ar) && Editable(w, ar, edit, rt)
    requires ProjectKey(ar) in w.store.projects
    ensures var t := WithRoles(w.store, ProjectKey(ar), Edited(edit, RolesAt(w.store, ProjectKey(ar)), ar, rt));
      Sound(Commit(w, t)) && Continues(w, Commit(w, t), {}) && Loaded(t, ar)
  {
    StoreFine(w);
    var t := WithRoles(w.store, ProjectKey(ar), Edited(edit, RolesAt(w.store, ProjectKey(ar)), ar, rt));
    assert Undisturbed(w.store, t);
    UndisturbedOk(w.store, t);
    if w.ev.clean { PatchJoins(w, ar, edit, rt); }
    UndisturbedMoves(w.cfg, w.ev, w.store, t);
    if w.ev.clean { PatchBacking(w, ar, edit, rt); }
    CommitSound(w, t, {});
  }
}
