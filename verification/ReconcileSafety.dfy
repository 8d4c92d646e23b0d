/** A whole reconciliation keeps the run sound, and touches the status of no request that was
    concluded when it started. */
module ReconcileSafety {
  import opened Prelude
  import opened Requests
  import opened Cluster
  import opened Permission
  import opened Reconcile
  import opened Safety
  import opened Outside
  import opened Writes
  import opened Edits
  import opened PermissionSafety
  import opened FinalizerSafety

  // ---------------------------------------------------------------- TTL

  lemma DeleteFine(w: World, id: nat)
    requires Sound(w)
    ensures Fine(w.cfg, w.ev, Delete(w.store, id))
  {
    ApplyFine(w, DeleteRequest(id));
  }

  lemma StoreStays(cfg: Config, ev: Evidence, s: Store)
    requires StoreOk(s)
    ensures Moves(cfg, ev, s, s) && Kept(s, s, {})
  {
  }

  lemma KeptByMark(s: Store, t: Store, id: nat)
    requires id in s.requests && t.now == s.now && t.next == s.next
    requires t.requests == s.requests[id := s.requests[id].(deleting := true, version := s.rev + 1)]
    ensures Kept(s, t, {})
  {
  }

  lemma MarkMoves(cfg: Config, ev: Evidence, s: Store, id: nat)
    requires StoreOk(s) && id in s.requests && s.requests[id].finalizer && !s.requests[id].deleting
    requires Overdue(cfg, s.requests[id].status, s.now)
    ensures Moves(cfg, ev, s, Delete(s, id)) && Kept(s, Delete(s, id), {})
  {
    var t, marked := Delete(s, id), s.requests[id].(deleting := true, version := s.rev + 1);
    assert t.requests == s.requests[id := marked];
    OneMoves(cfg, ev, s, t, id);
    KeptByMark(s, t, id);
  }

  lemma DeleteMoves(w: World, ar: Request)
    requires Sound(w) && Loaded(w.store, ar) && Overdue(w.cfg, ar.status, w.store.now)
    ensures Moves(w.cfg, w.ev, w.store, Delete(w.store, ar.id)) && Kept(w.store, Delete(w.store, ar.id), {})
  {
    StoreFine(w);
    var r := w.store.requests[ar.id];
    if r.deleting {
      StoreStays(w.cfg, w.ev, w.store);
    } else {
      MarkMoves(w.cfg, w.ev, w.store, ar.id);
    }
  }

  lemma DeletedSound(x: World, ar: Request)
    requires Sound(x) && Loaded(x.store, ar) && Overdue(x.cfg, ar.status, x.store.now)
    ensures var y := Commit(x, Delete(x.store, ar.id));
      Sound(y) && Continues(x, y, {})
  {
    DeleteFine(x, ar.id);
    DeleteMoves(x, ar);
    CommitSound(x, Delete(x.store, ar.id), {});
  }

  lemma DeleteCallCases(w: World, id: nat)
    ensures var x := Pause(w).0;
      DeleteCall(w, id).0 == x || DeleteCall(w, id).0 == Commit(x, Delete(x.store, id))
    ensures DeleteCall(w, id).1 != Some(Panic)
  {
  }

  lemma DeleteCallSound(w: World, ar: Request)
    requires Sound(w) && Loaded(w.store, ar) && Overdue(w.cfg, ar.status, w.store.now)
    ensures var (w1, err) := DeleteCall(w, ar.id);
      && Sound(w1) && Continues(w, w1, {}) && err != Some(Panic)
      && (err.None? ==> ar.id !in w1.store.requests || w1.store.requests[ar.id].deleting)
  {
    PauseSound(w);
    var x := Pause(w).0;
    DeletedSound(x, ar);
    DeleteCallCases(w, ar.id);
    ContinuesCompose(w, x, Commit(x, Delete(x.store, ar.id)), {});
  }

  /** The controller deletes a request only when it is concluded and its TTL deadline has passed. */
  lemma HandleTTLSound(w: World, ar: Request)
    requires Sound(w) && Loaded(w.store, ar)
    ensures var (w1, got) := HandleTTL(w, ar);
      && Sound(w1) && Continues(w, w1, {}) && got != Err(Panic)
      && (got == Ok(false) ==> w1 == w)
      && (got == Ok(true) ==> ar.id !in w1.store.requests || w1.store.requests[ar.id].deleting)
      && (w1 != w ==> Overdue(w.cfg, ar.status, w.store.now))
  {
    LoadedFacts(w, ar);
    Stay(w, {});
    if Overdue(w.cfg, ar.status, w.store.now) { DeleteCallSound(w, ar); }
  }

  // ---------------------------------------------------------------- conflict check

  lemma MarkedSound(w: World, ar: Request)
    requires Sound(w) && Loaded(w.store, ar)
    ensures var x := NoteConflict(w, ar);
      Sound(x) && Continues(w, x, {}) && Loaded(x.store, ar) && ar.id in x.ev.conflicted && Excused(x.ev, ar)
  {
    SoundWeaken(w, NoteConflict(w, ar).ev);
  }

  lemma RecordConflict(w: World, ar: Request, message: string)
    requires Sound(w) && Loaded(w.store, ar) && ar.id in w.ev.conflicted && Excused(w.ev, ar)
    requires ar.status.state in {Empty, Initiated, Requested, Granted}
    ensures var status := Recorded(ar.status, ar.spec.duration, Invalid, message, w.store.now);
      var (w1, ar1, err) := PutStatus(w, ar.(status := status));
      && Sound(w1) && Continues(w, w1, {ar.id}) && err != Some(Panic)
      && (err.None? ==>
            && Loaded(w1.store, ar1) && SameIdentity(ar, ar1) && Active(w1.ev, ar1)
            && ar1.status == status)
  {
    LoadedFacts(w, ar);
    var status := Recorded(ar.status, ar.spec.duration, Invalid, message, w.store.now);
    assert status == status.(hash := ar.status.hash);
    RecordedWritable(w, ar, ar.status, Invalid, message, ar.status.hash);
    PutStatusSound(w, ar, status);
  }

  lemma HandleConflictSound(w: World, ar: Request)
    requires Sound(w) && Loaded(w.store, ar)
    requires ar.status.state in {Empty, Initiated, Requested, Granted}
    ensures var step := HandleConflict(w, ar);
      && Sound(step.w) && Continues(w, step.w, {ar.id}) && step.err != Some(Panic)
      && (step.err.None? ==>
            Loaded(step.w.store, step.ar) && SameIdentity(ar, step.ar) && Active(step.w.ev, step.ar))
  {
    PauseSound(w);
    var (w1, got) := ListRequests(w, ar.ns, ar.spec.user, ar.spec.app);
    ContinuesWiden(w, w1, {}, {ar.id});
    if got.Ok? {
      var conflict := ValidateConflict(got.value, ar);
      if conflict.Some? {
        MarkedSound(w1, ar);
        var x := NoteConflict(w1, ar);
        ContinuesCompose(w, w1, x, {});
        ContinuesWiden(w, x, {}, {ar.id});
        RecordConflict(x, ar, conflict.value);
        ContinuesCompose(w, x, HandleConflict(w, ar).w, {ar.id});
      }
    }
  }

  // ---------------------------------------------------------------- request timeout

  lemma TimeoutOnce(w: World, ar: Request)
    requires Sound(w) && Loaded(w.store, ar) && ar.status.state in {Initiated, Requested}
    requires Late(w.cfg, ar.status, w.store.now)
    ensures var status := Recorded(ar.status, ar.spec.duration, Timeout, "AccessRequest timed out", w.store.now);
      var (w1, ar1, err) := PutStatus(w, ar.(status := status));
      && Sound(w1) && Continues(w, w1, {ar.id}) && err != Some(Panic)
      && (err.None? ==> Loaded(w1.store, ar1) && SameIdentity(ar, ar1) && ar1.status.state == Timeout)
      && (err == Some(Conflict) ==> Loaded(w1.store, ar))
  {
    LoadedFacts(w, ar);
    var status := Recorded(ar.status, ar.spec.duration, Timeout, "AccessRequest timed out", w.store.now);
    assert status == status.(hash := ar.status.hash);
    RecordedWritable(w, ar, ar.status, Timeout, "AccessRequest timed out", ar.status.hash);
    PutStatusSound(w, ar, status);
  }

  lemma ReadLoaded(w: World, ar: Request)
    requires Sound(w) && Loaded(w.store, ar)
    ensures var (w1, got) := GetRequest(w, ar.id);
      && Sound(w1) && Continues(w, w1, {}) && got != Err(Panic)
      && (got.Ok? ==> Loaded(w1.store, got.value) && SameIdentity(ar, got.value) && got.value.status == ar.status)
  {
    PauseSound(w);
    StoreFine(Pause(w).0);
  }

  lemma FailedWriteKeepsCopy(w: World, ar: Request)
    ensures PutStatus(w, ar).2.Some? ==> PutStatus(w, ar).1 == ar
  {
  }

  /** The stored request, if there still is one, has the status it had, or that of a timeout. */
  predicate OnlyTimedOut(s: Store, ar: Request) {
    ar.id in s.requests ==>
      var status := s.requests[ar.id].status;
      || status == ar.status
      || (&& status.state == Timeout && status.history != []
          && Last(status.history).details == Some("AccessRequest timed out"))
  }

  lemma TimeoutOnceStores(w: World, ar: Request)
    requires Sound(w) && Loaded(w.store, ar)
    ensures var status := Recorded(ar.status, ar.spec.duration, Timeout, "AccessRequest timed out", w.store.now);
      OnlyTimedOut(PutStatus(w, ar.(status := status)).0.store, ar)
  {
    PauseSound(w);
    PutStatusCases(w, ar, Recorded(ar.status, ar.spec.duration, Timeout, "AccessRequest timed out", w.store.now));
  }

  lemma StillOnlyTimedOut(w: World, x: World, ar: Request)
    requires Continues(w, x, {}) && ar.id in w.store.requests && w.store.requests[ar.id].status == ar.status
    ensures OnlyTimedOut(x.store, ar)
  {
  }

  /** Whether it succeeds or not, and however often it is retried on fresh copies, writing the timeout
      leaves the status that was stored, or a timeout. */
  lemma {:induction false} WriteTimeoutStores(w: World, ar: Request, attempts: nat)
    requires Sound(w) && Loaded(w.store, ar) && ar.status.state in {Initiated, Requested}
    requires Late(w.cfg, ar.status, w.store.now)
    ensures OnlyTimedOut(WriteTimeout(w, ar, attempts).w.store, ar)
    decreases attempts
  {
    TimeoutOnceStores(w, ar);
    TimeoutOnce(w, ar);
    var status := Recorded(ar.status, ar.spec.duration, Timeout, "AccessRequest timed out", w.store.now);
    var (x, copy, err) := PutStatus(w, ar.(status := status));
    if err == Some(Conflict) && attempts > 1 {
      FailedWriteKeepsCopy(w, ar.(status := status));
      ReadLoaded(x, ar);
      var (y, got) := GetRequest(x, ar.id);
      if got.Ok? {
        WriteTimeoutStores(y, got.value, attempts - 1);
        assert WriteTimeout(w, ar, attempts) == WriteTimeout(y, got.value, attempts - 1);
      } else {
        StillOnlyTimedOut(x, y, ar);
      }
    }
  }

  lemma {:induction false} WriteTimeoutSound(w: World, ar: Request, attempts: nat)
    requires Sound(w) && Loaded(w.store, ar) && ar.status.state in {Initiated, Requested}
    requires Late(w.cfg, ar.status, w.store.now)
    ensures StepSound(w, ar, WriteTimeout(w, ar, attempts), Timeout)
    decreases attempts
  {
    TimeoutOnce(w, ar);
    var status := Recorded(ar.status, ar.spec.duration, Timeout, "AccessRequest timed out", w.store.now);
    var (w1, ar1, err) := PutStatus(w, ar.(status := status));
    if err == Some(Conflict) && attempts > 1 {
      FailedWriteKeepsCopy(w, ar.(status := status));
      ReadLoaded(w1, ar);
      var (w2, got) := GetRequest(w1, ar.id);
      ContinuesWiden(w1, w2, {}, {ar.id});
      ContinuesCompose(w, w1, w2, {ar.id});
      if got.Ok? {
        WriteTimeoutSound(w2, got.value, attempts - 1);
        ContinuesCompose(w, w2, WriteTimeout(w2, got.value, attempts - 1).w, {ar.id});
      }
    }
  }

  lemma HandleRequestTimeoutSound(w: World, ar: Request)
    requires Sound(w) && Loaded(w.store, ar)
    ensures var flow := HandleRequestTimeout(w, ar);
      && Sound(flow.w) && Continues(w, flow.w, {ar.id}) && flow.result != Err(Panic)
      && (flow.result == Ok(false) ==> flow.w == w && flow.ar == ar)
      && (flow.w != w ==> ar.status.state in {Initiated, Requested} && Late(w.cfg, ar.status, w.store.now))
      && (flow.result == Ok(true) ==>
            Loaded(flow.w.store, flow.ar) && SameIdentity(ar, flow.ar) && flow.ar.status.state == Timeout)
  {
    LoadedFacts(w, ar);
    Stay(w, {ar.id});
    if ar.status.state in {Initiated, Requested} && Late(w.cfg, ar.status, w.store.now) {
      WriteTimeoutSound(w, ar, ATTEMPTS);
    }
  }

  // ---------------------------------------------------------------- the whole reconciliation

  /** The dereference of ExpiresAt and the index of the last history entry are safe. */
  lemma BuildResultSafe(w: World, ar: Request)
    requires Sound(w) && Loaded(w.store, ar)
    ensures BuildResult(ar.status.state, ar.status, w.cfg, w.store.now).Ok?
  {
    LoadedFacts(w, ar);
  }

  lemma FinishSound(w: World, ar: Request)
    requires Sound(w) && Loaded(w.store, ar)
    ensures var done := Finish(w, ar, ar.status.state);
      Sound(done.w) && Continues(w, done.w, {ar.id}) && done.result != Err(Panic)
  {
    HandleRequestTimeoutSound(w, ar);
    var timed := HandleRequestTimeout(w, ar);
    if timed.result.Ok? { BuildResultSafe(timed.w, timed.ar); }
  }

  lemma ResolveSound(w: World, ar: Request)
    requires Sound(w) && Loaded(w.store, ar) && Active(w.ev, ar)
    ensures var done := Resolve(w, ar);
      Sound(done.w) && Continues(w, done.w, {ar.id}) && done.result != Err(Panic)
  {
    HandlePermissionSound(w, ar);
    var handled := HandlePermission(w, ar);
    if handled.result.Ok? {
      FinishSound(handled.w, handled.ar);
      ContinuesCompose(w, handled.w, Finish(handled.w, handled.ar, handled.ar.status.state).w, {ar.id});
    }
  }

  lemma ProceedSound(w: World, ar: Request)
    requires Sound(w) && Loaded(w.store, ar)
    requires ar.status.state in {Empty, Initiated, Requested, Granted}
    ensures var done := Proceed(w, ar);
      Sound(done.w) && Continues(w, done.w, {ar.id}) && done.result != Err(Panic)
  {
    HandleConflictSound(w, ar);
    var checked := HandleConflict(w, ar);
    if checked.err.None? {
      ResolveSound(checked.w, checked.ar);
      ContinuesCompose(w, checked.w, Resolve(checked.w, checked.ar).w, {ar.id});
    }
  }

  lemma ContinueSound(w: World, ar: Request)
    requires Sound(w) && Loaded(w.store, ar)
    ensures var done := Continue(w, ar);
      && Sound(done.w) && Continues(w, done.w, {ar.id}) && done.result != Err(Panic)
      && (Concluded(ar.status.state) ==> Continues(w, done.w, {}))
  {
    HandleTTLSound(w, ar);
    var (w1, exceeded) := HandleTTL(w, ar);
    ContinuesWiden(w, w1, {}, {ar.id});
    if exceeded == Ok(false) {
      if Concluded(ar.status.state) { BuildResultSafe(w, ar); } else { ProceedSound(w, ar); }
    }
  }

  lemma SameStatusAlong(w: World, x: World, ar: Request)
    requires Sound(w) && Sound(x) && Continues(w, x, {}) && Loaded(x.store, ar)
    ensures ar.id in w.store.requests ==> w.store.requests[ar.id].status == ar.status
  {
  }

  lemma AfterFinalizer(w: World, x: World, ar: Request)
    requires Sound(w) && Sound(x) && Continues(w, x, {}) && Loaded(x.store, ar)
    ensures var done := Continue(x, ar);
      && Sound(done.w) && Continues(w, done.w, {ar.id}) && done.result != Err(Panic)
      && (ar.id in w.store.requests && Concluded(w.store.requests[ar.id].status.state) ==> Continues(w, done.w, {}))
  {
    ContinueSound(x, ar);
    var done := Continue(x, ar);
    SameStatusAlong(w, x, ar);
    ContinuesWiden(w, x, {}, {ar.id});
    ContinuesCompose(w, x, done.w, {ar.id});
    if Concluded(ar.status.state) { ContinuesCompose(w, x, done.w, {}); }
  }

  lemma FinalizerFirst(w: World, w1: World, ar: Request)
    requires Sound(w) && Sound(w1) && Continues(w, w1, {})
    requires ar.id in w1.store.requests && w1.store.requests[ar.id] == ar
    ensures var final := HandleFinalizer(w1, ar);
      && Sound(final.w) && Continues(w, final.w, {}) && Continues(w, final.w, {ar.id})
      && (final.result == Ok(false) ==> final.ar.id == ar.id && Loaded(final.w.store, final.ar))
  {
    HandleFinalizerSound(w1, ar);
    ContinuesCompose(w, w1, HandleFinalizer(w1, ar).w, {});
    ContinuesWiden(w, HandleFinalizer(w1, ar).w, {}, {ar.id});
  }

  lemma CopyCases(w: World, ar: Request)
    ensures var final := HandleFinalizer(w, ar);
      FromCopy(w, ar).w == if final.result == Ok(false) then Continue(final.w, final.ar).w else final.w
  {
  }

  lemma FromRead(w: World, w1: World, ar: Request)
    requires Sound(w) && Sound(w1) && Continues(w, w1, {})
    requires ar.id in w1.store.requests && w1.store.requests[ar.id] == ar
    ensures var done := FromCopy(w1, ar);
      && Sound(done.w) && Continues(w, done.w, {ar.id})
      && (ar.id in w.store.requests && Concluded(w.store.requests[ar.id].status.state) ==> Continues(w, done.w, {}))
  {
    FinalizerFirst(w, w1, ar);
    var final := HandleFinalizer(w1, ar);
    CopyCases(w1, ar);
    if final.result == Ok(false) { AfterFinalizer(w, final.w, final.ar); }
  }

  lemma PanicsInCleanup(w: World, ar: Request)
    requires Sound(w) && ar.id in w.store.requests && w.store.requests[ar.id] == ar
    requires FromCopy(w, ar).result == Err(Panic)
    ensures ar.deleting && Cleanup(w, ar).1 == Some(Panic)
  {
    HandleFinalizerSound(w, ar);
    var final := HandleFinalizer(w, ar);
    if final.result == Ok(false) { ContinueSound(final.w, final.ar); }
  }

  /** A reconciliation keeps the run sound and changes the status of no request but its own, and
      not even of that one when it was concluded at the start. It panics only in the clean-up of a
      deleted request, where a nil template is dereferenced. */
  lemma ReconcileSound(w: World, id: nat)
    requires Sound(w)
    ensures var done := Reconcile.Reconcile(w, id);
      && Sound(done.w) && Continues(w, done.w, {id})
      && (id in w.store.requests && Concluded(w.store.requests[id].status.state) ==> Continues(w, done.w, {}))
      && (done.result == Err(Panic) ==>
            var (w1, got) := GetRequest(w, id);
            got.Ok? && got.value.deleting && Cleanup(w1, got.value).1 == Some(Panic))
  {
    ReadStored(w, id);
    var (w1, got) := GetRequest(w, id);
    ContinuesWiden(w, w1, {}, {id});
    if got.Ok? {
      FromRead(w, w1, got.value);
      if FromCopy(w1, got.value).result == Err(Panic) { PanicsInCleanup(w1, got.value); }
    }
  }

  // ---------------------------------------------------------------- the nil template

  /** The reads of a reconciliation find a request marked for deletion and not expired, no template to
      render for it, and its target project. */
  predicate PanicReads(w: World, id: nat) {
    var (x, got) := GetRequest(w, id);
    got.Ok? && got.value.deleting && got.value.finalizer && got.value.status.state != Expired &&
    var (y, role) := RenderedRole(x, got.value, got.value.status.target);
    role.Err? && GetProject(y, ProjectKey(got.value)).1.Ok?
  }

  lemma NoTemplatePanics(w: World, ar: Request)
    ensures EditProject(w, ar, RevokeAccess, None, ATTEMPTS).1 == Some(Panic) <==> GetProject(w, ProjectKey(ar)).1.Ok?
  {
    var (x, got) := GetProject(w, ProjectKey(ar));
    assert got.Err? ==> got.error in {Failed, NotFound};
  }

  lemma CleanupPanicsIff(w: World, ar: Request)
    requires Sound(w) && Loaded(w.store, ar)
    ensures Cleanup(w, ar).1 == Some(Panic) <==>
              && ar.status.state != Expired
              && var (y, role) := RenderedRole(w, ar, ar.status.target);
                 role.Err? && GetProject(y, ProjectKey(ar)).1.Ok?
  {
    RenderedRoleSound(w, ar, ar.status.target);
    var (y, role) := RenderedRole(w, ar, ar.status.target);
    if role.Ok? {
      EditableHere(y, ar, RevokeAccess, role.value);
      EditProjectSound(y, ar, RevokeAccess, role.value, ATTEMPTS);
    } else {
      NoTemplatePanics(y, ar);
    }
  }

  /** In any run, however it is disturbed, a reconciliation dereferences nil exactly when its reads
      find a request marked for deletion, with the finalizer and not expired, whose template cannot
      be rendered while its target project is there. */
  lemma PanicsIff(w: World, id: nat)
    requires Sound(w)
    ensures Reconcile.Reconcile(w, id).result == Err(Panic) <==> PanicReads(w, id)
  {
    ReadStored(w, id);
    ReconcileSound(w, id);
    var (x, got) := GetRequest(w, id);
    if got.Ok? && got.value.deleting && got.value.finalizer {
      CleanupPanicsIff(x, got.value);
      assert Reconcile.Reconcile(w, id) == FromCopy(x, got.value);
      if Cleanup(x, got.value).1 == Some(Panic) {
        assert FromCopy(x, got.value).result == Err(Panic);
      }
    }
  }
}
