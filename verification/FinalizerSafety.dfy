/** Adding and dropping the finalizer keep the run sound. The finalizer keeps a request stored until
    its clean-up has been made: it is added before the request is initialised, and it goes only when
    the request's user has left the role, or the request never held one. */
module FinalizerSafety {
  import opened Prelude
  import opened Templates
  import opened Roles
  import opened Requests
  import opened Cluster
  import opened Permission
  import opened Reconcile
  import opened Safety
  import opened Outside
  import opened Writes
  import opened Edits
  import opened PermissionSafety

  // ---------------------------------------------------------------- a request read

  /** A request read as `r`: while its version stays, so does all of it. */
  predicate Read(s: Store, r: Request) {
    && r.version <= s.rev && r.id < s.next
    && (r.id in s.requests && s.requests[r.id].version == r.version ==> s.requests[r.id] == r)
  }

  /** The request, if still stored, is marked for deletion. */
  predicate Doomed(s: Store, id: nat) {
    id < s.next && (id in s.requests ==> s.requests[id].deleting)
  }

  lemma EventKeepsRead(s: Store, e: Event, r: Request)
    requires StoreOk(s) && Read(s, r)
    ensures Read(Apply(s, e), r)
  {
    ApplyUndisturbed(s, e);
  }

  lemma {:induction false} InterfereKeepsRead(w: World, events: seq<Event>, r: Request)
    requires Sound(w) && Read(w.store, r)
    ensures Read(Interfere(w, events).store, r)
    decreases |events|
  {
    if events != [] {
      StoreFine(w);
      EventSound(w, events[0]);
      EventKeepsRead(w.store, events[0], r);
      InterfereKeepsRead(After(w, events[0]), events[1..], r);
    }
  }

  lemma PauseRead(w: World, r: Request)
    requires Sound(w) && Read(w.store, r)
    ensures Read(Pause(w).0.store, r)
  {
    if w.script != [] {
      var x := w.(script := w.script[1..]);
      assert Sound(x);
      InterfereKeepsRead(x, w.script[0].events, r);
    }
  }

  // ---------------------------------------------------------------- finalizer writes

  function WithFinalizer(s: Store, id: nat, finalizer: bool): Store
    requires id in s.requests
  {
    var r := s.requests[id].(finalizer := finalizer, version := s.rev + 1);
    var requests := if r.deleting && !r.finalizer then s.requests - {id} else s.requests[id := r];
    s.(rev := s.rev + 1, requests := requests)
  }

  lemma FinalizerBacking(s: Store, id: nat, finalizer: bool)
    requires StoreOk(s) && NoOrphan(s) && id in s.requests
    requires finalizer || Released(s, s.requests[id])
    ensures NoOrphan(WithFinalizer(s, id, finalizer))
  {
    var t := WithFinalizer(s, id, finalizer);
    forall key, name, user | key in t.projects && Ephemeral(name) && Member(t.projects[key].roles, name, user)
      ensures exists i :: Backs(t, i, key, name, user)
    {
      var i :| Backs(s, i, key, name, user);
      if i == id && !finalizer {
        assert false;
      }
      assert Backs(t, i, key, name, user);
    }
  }

  lemma FinalizerOk(s: Store, id: nat, finalizer: bool)
    requires StoreOk(s) && id in s.requests && (finalizer || s.requests[id].deleting)
    ensures StoreOk(WithFinalizer(s, id, finalizer))
  {
    var t := WithFinalizer(s, id, finalizer);
    forall i | i in t.requests ensures t.requests[i].id == i && i < t.next && RequestOk(t, t.requests[i]) {
      assert RequestOk(s, s.requests[i]);
    }
  }

  lemma FinalizerStays(s: Store, id: nat, finalizer: bool)
    requires id in s.requests && (finalizer || Released(s, s.requests[id]))
    ensures FinalizersStay(s, WithFinalizer(s, id, finalizer))
  {
    var t := WithFinalizer(s, id, finalizer);
    assert t.projects == s.projects;
  }

  lemma FinalizerMoves(cfg: Config, ev: Evidence, s: Store, id: nat, finalizer: bool)
    requires StoreOk(s) && id in s.requests
    requires finalizer || (ev.clean ==> Released(s, s.requests[id]))
    ensures Moves(cfg, ev, s, WithFinalizer(s, id, finalizer))
  {
    NobodyJoins(cfg, ev, s, WithFinalizer(s, id, finalizer));
    if ev.clean { FinalizerStays(s, id, finalizer); }
  }

  lemma FinalizerKept(s: Store, id: nat, finalizer: bool)
    requires StoreOk(s) && id in s.requests
    ensures Kept(s, WithFinalizer(s, id, finalizer), {})
  {
  }

  lemma FinalizerClean(names: map<Ref, string>, s: Store, id: nat, finalizer: bool)
    requires StoreOk(s) && CleanOk(names, s) && id in s.requests
    requires finalizer || Released(s, s.requests[id])
    ensures CleanOk(names, WithFinalizer(s, id, finalizer))
  {
    FinalizerBacking(s, id, finalizer);
    var t := WithFinalizer(s, id, finalizer);
    forall i | i in t.requests ensures NamedRole(names, t.requests[i]) {
      assert NamedRole(names, s.requests[i]);
    }
  }

  lemma FinalizerFine(w: World, id: nat, finalizer: bool)
    requires Sound(w) && id in w.store.requests && (finalizer || w.store.requests[id].deleting)
    requires finalizer || (w.ev.clean ==> Released(w.store, w.store.requests[id]))
    ensures Fine(w.cfg, w.ev, WithFinalizer(w.store, id, finalizer))
  {
    StoreFine(w);
    FinalizerOk(w.store, id, finalizer);
    if w.ev.clean { FinalizerClean(w.cfg.names, w.store, id, finalizer); }
  }

  lemma FinalizerCommit(w: World, id: nat, finalizer: bool)
    requires Sound(w) && id in w.store.requests && (finalizer || w.store.requests[id].deleting)
    requires finalizer || (w.ev.clean ==> Released(w.store, w.store.requests[id]))
    ensures var t := WithFinalizer(w.store, id, finalizer);
      Sound(Commit(w, t)) && Continues(w, Commit(w, t), {})
  {
    FinalizerFine(w, id, finalizer);
    StoreFine(w);
    FinalizerMoves(w.cfg, w.ev, w.store, id, finalizer);
    FinalizerKept(w.store, id, finalizer);
    CommitSound(w, WithFinalizer(w.store, id, finalizer), {});
  }

  /** A finalizer write leaves the world as other actors left it, or has taken effect there. */
  lemma PutFinalizerCases(w: World, r: Request, finalizer: bool)
    requires Read(Pause(w).0.store, r)
    ensures var (w1, ar1, err) := PutFinalizer(w, r.(finalizer := finalizer));
      var x := Pause(w).0;
      || (w1 == x && err in {Some(Failed), Some(Conflict), Some(NotFound)} && ar1 == r.(finalizer := finalizer))
      || (&& r.id in x.store.requests && x.store.requests[r.id] == r
          && w1 == Commit(x, WithFinalizer(x.store, r.id, finalizer))
          && err in {None, Some(Failed)}
          && (err.None? ==> ar1 == r.(finalizer := finalizer, version := x.store.rev + 1)))
  {
  }

  lemma ReadStored(w: World, id: nat)
    requires Sound(w)
    ensures var (w1, got) := GetRequest(w, id);
      && Sound(w1) && Continues(w, w1, {}) && got != Err(Panic) && got != Err(Conflict)
      && (got.Ok? ==>
            && got.value.id == id && Read(w1.store, got.value) && RequestOk(w1.store, got.value)
            && id in w1.store.requests && w1.store.requests[id] == got.value
            && (got.value.finalizer ==> Loaded(w1.store, got.value)))
  {
    PauseSound(w);
    StoreFine(Pause(w).0);
  }

  // ---------------------------------------------------------------- adding the finalizer

  lemma PauseReadSound(w: World, r: Request)
    requires Sound(w) && Read(w.store, r)
    ensures var x := Pause(w).0;
      Sound(x) && Continues(w, x, {}) && Read(x.store, r)
  {
    PauseSound(w);
    PauseRead(w, r);
  }

  lemma AddedLoaded(s: Store, r: Request)
    requires r.id in s.requests && s.requests[r.id] == r
    ensures Loaded(WithFinalizer(s, r.id, true), r.(finalizer := true, version := s.rev + 1))
  {
  }

  lemma AddOnceLoads(w: World, r: Request)
    requires Read(Pause(w).0.store, r)
    ensures var (w2, ar2, err) := PutFinalizer(w, r.(finalizer := true));
      ar2.id == r.id && (err.None? ==> Loaded(w2.store, ar2))
  {
    PutFinalizerCases(w, r, true);
    var s := Pause(w).0.store;
    if r.id in s.requests && s.requests[r.id] == r { AddedLoaded(s, r); }
  }

  lemma AddOnce(w: World, r: Request)
    requires Sound(w) && Read(w.store, r)
    ensures var (w2, ar2, err) := PutFinalizer(w, r.(finalizer := true));
      && Sound(w2) && Continues(w, w2, {}) && err != Some(Panic)
  {
    PauseReadSound(w, r);
    PutFinalizerCases(w, r, true);
    var x := Pause(w).0;
    if r.id in x.store.requests && x.store.requests[r.id] == r {
      FinalizerCommit(x, r.id, true);
      ContinuesCompose(w, x, Commit(x, WithFinalizer(x.store, r.id, true)), {});
    }
  }

  lemma {:induction false} AddFinalizerSound(w: World, ar: Request, attempts: nat)
    requires Sound(w)
    ensures var step := AddFinalizer(w, ar, attempts);
      && Sound(step.w) && Continues(w, step.w, {}) && step.err != Some(Panic)
      && (step.err.None? ==> step.ar.id == ar.id && Loaded(step.w.store, step.ar))
    decreases attempts
  {
    ReadStored(w, ar.id);
    var (w1, got) := GetRequest(w, ar.id);
    if got.Ok? {
      AddOnce(w1, got.value);
      PauseRead(w1, got.value);
      AddOnceLoads(w1, got.value);
      var (w2, ar2, err) := PutFinalizer(w1, got.value.(finalizer := true));
      ContinuesCompose(w, w1, w2, {});
      if err == Some(Conflict) && attempts > 1 {
        AddFinalizerSound(w2, ar2, attempts - 1);
        ContinuesCompose(w, w2, AddFinalizer(w2, ar2, attempts - 1).w, {});
      }
    }
  }

  // ---------------------------------------------------------------- dropping the finalizer

  /** What must hold for the finalizer of `ar` to be dropped. */
  ghost predicate Droppable(w: World, ar: Request) {
    && Doomed(w.store, ar.id)
    && (ar.id in w.store.requests ==>
          && w.store.requests[ar.id].status == ar.status && SameIdentity(w.store.requests[ar.id], ar))
    && (w.ev.clean && ar.status.state != Expired && ar.status.target != "" ==>
          Ephemeral(ar.status.roleName) && Gone(w.store, ProjectKey(ar), ar.status.roleName, ar.spec.user))
  }

  lemma PauseDroppable(w: World, ar: Request)
    requires Sound(w) && Droppable(w, ar)
    ensures var x := Pause(w).0; Sound(x) && Continues(w, x, {}) && Droppable(x, ar)
  {
    PauseSound(w);
  }

  lemma DroppableReleased(w: World, ar: Request)
    requires Droppable(w, ar) && ar.id in w.store.requests
    ensures w.ev.clean ==> Released(w.store, w.store.requests[ar.id])
  {
  }

  lemma DropOnce(w: World, ar: Request, r: Request)
    requires Sound(w) && Droppable(w, ar) && Read(w.store, r) && r.id == ar.id
    ensures var (w2, ar2, err) := PutFinalizer(w, r.(finalizer := false));
      && Sound(w2) && Continues(w, w2, {}) && err != Some(Panic)
      && (err == Some(Conflict) ==> Droppable(w2, ar) && ar2.id == ar.id)
      && (err.None? ==> ar.id !in w2.store.requests)
  {
    PauseDroppable(w, ar);
    PauseReadSound(w, r);
    PutFinalizerCases(w, r, false);
    var x := Pause(w).0;
    if r.id in x.store.requests && x.store.requests[r.id] == r {
      DroppableReleased(x, ar);
      FinalizerCommit(x, r.id, false);
      ContinuesCompose(w, x, Commit(x, WithFinalizer(x.store, r.id, false)), {});
    }
  }

  lemma ReadDroppable(w: World, ar: Request)
    requires Sound(w) && Droppable(w, ar)
    ensures var (w1, got) := GetRequest(w, ar.id);
      && Sound(w1) && Continues(w, w1, {}) && Droppable(w1, ar) && got != Err(Panic)
      && (got.Ok? ==> got.value.id == ar.id && Read(w1.store, got.value))
  {
    ReadStored(w, ar.id);
    PauseDroppable(w, ar);
  }

  lemma {:induction false} DropFinalizerSound(w: World, ar: Request, copy: Request, attempts: nat)
    requires Sound(w) && Droppable(w, ar) && copy.id == ar.id
    ensures var step := DropFinalizer(w, copy, attempts);
      && Sound(step.w) && Continues(w, step.w, {}) && step.err != Some(Panic)
      && (step.err.None? ==> ar.id !in step.w.store.requests)
    decreases attempts
  {
    ReadDroppable(w, ar);
    var (w1, got) := GetRequest(w, ar.id);
    if got.Ok? {
      DropOnce(w1, ar, got.value);
      var (w2, ar2, err) := PutFinalizer(w1, got.value.(finalizer := false));
      ContinuesCompose(w, w1, w2, {});
      if err == Some(Conflict) && attempts > 1 {
        DropFinalizerSound(w2, ar, ar2, attempts - 1);
        ContinuesCompose(w, w2, DropFinalizer(w2, ar2, attempts - 1).w, {});
      }
    }
  }

  // ---------------------------------------------------------------- the whole step

  lemma NoTemplateCases(w: World, ar: Request)
    ensures var (w1, err) := EditProject(w, ar, RevokeAccess, None, ATTEMPTS);
      w1 == Pause(w).0 && err != Some(Conflict) && (err.None? ==> RolesAt(w1.store, ProjectKey(ar)) == [])
  {
  }

  /** Without a rendered template the clean-up can only find the project absent. */
  lemma NoTemplateEdit(w: World, ar: Request)
    requires Sound(w) && Loaded(w.store, ar)
    ensures var (w1, err) := EditProject(w, ar, RevokeAccess, None, ATTEMPTS);
      && Sound(w1) && Continues(w, w1, {}) && Loaded(w1.store, ar)
      && (err.None? ==> RolesAt(w1.store, ProjectKey(ar)) == [])
  {
    PauseSound(w);
    NoTemplateCases(w, ar);
  }

  lemma CleanedDroppable(w: World, x: World, ar: Request, name: string)
    requires Sound(w) && Doomed(w.store, ar.id) && Loaded(w.store, ar)
    requires Continues(w, x, {}) && Loaded(x.store, ar)
    requires StatusOk(ar.status, x.store.now) && (x.ev.clean ==> NamedRole(x.cfg.names, ar))
    requires Gone(x.store, ProjectKey(ar), RoleName(name, ar.spec.app), ar.spec.user)
    requires RolesAt(x.store, ProjectKey(ar)) == [] ||
             (x.ev.clean ==> ar.spec.template in x.cfg.names && name == x.cfg.names[ar.spec.template])
    ensures Droppable(x, ar)
  {
    if x.ev.clean && ar.status.target != "" {
      RoleNameIsEphemeral(x.cfg.names[ar.spec.template], ar.spec.app);
    }
  }

  /** When the clean-up succeeds the user has left the role, unless the request is expired or was
      never initialised. */
  lemma CleanupSound(w: World, ar: Request)
    requires Sound(w) && Loaded(w.store, ar) && Doomed(w.store, ar.id)
    ensures var (w1, err) := Cleanup(w, ar);
      && Sound(w1) && Continues(w, w1, {})
      && (err.None? ==> Droppable(w1, ar))
  {
    if ar.status.state == Expired {
      Stay(w, {});
    } else {
      RenderedRoleSound(w, ar, ar.status.target);
      var (w1, got) := RenderedRole(w, ar, ar.status.target);
      if got.Ok? {
        EditableHere(w1, ar, RevokeAccess, got.value);
        EditProjectSound(w1, ar, RevokeAccess, got.value, ATTEMPTS);
      } else {
        NoTemplateEdit(w1, ar);
      }
      var (w2, err) := Cleanup(w, ar);
      ContinuesCompose(w, w1, w2, {});
      if err.None? {
        LoadedFacts(w2, ar);
        CleanedDroppable(w, w2, ar, if got.Ok? then got.value.name else "");
      }
    }
  }

  /** Handling the finalizer changes no status. It lets the reconciliation go on only with the
      finalizer in place, and ends it without error only with the request gone. */
  lemma HandleFinalizerSound(w: World, ar: Request)
    requires Sound(w) && ar.id in w.store.requests && w.store.requests[ar.id] == ar
    ensures var flow := HandleFinalizer(w, ar);
      && Sound(flow.w) && Continues(w, flow.w, {})
      && (flow.result == Ok(false) ==> flow.ar.id == ar.id && Loaded(flow.w.store, flow.ar))
      && (flow.result == Ok(true) ==> ar.deleting && ar.id !in flow.w.store.requests)
      && (flow.result == Err(Panic) ==> ar.deleting && Cleanup(w, ar).1 == Some(Panic))
  {
    StoreFine(w);
    assert RequestOk(w.store, ar);
    Stay(w, {});
    if !ar.deleting {
      if !ar.finalizer { AddFinalizerSound(w, ar, ATTEMPTS); }
    } else if ar.finalizer {
      CleanupSound(w, ar);
      var (w1, err) := Cleanup(w, ar);
      if err.None? {
        DropFinalizerSound(w1, ar, ar, ATTEMPTS);
        ContinuesCompose(w, w1, DropFinalizer(w1, ar, ATTEMPTS).w, {});
      }
    }
  }
}
