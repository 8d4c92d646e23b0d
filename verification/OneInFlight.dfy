/** At most one request in flight per namespace, user, application and role template: when does a
    reconciliation keep it? */
module OneInFlight {
  import opened Prelude
  import opened Requests
  import opened Cluster
  import opened Permission
  import opened Reconcile
  import opened Safety
  import opened Outside
  import opened Writes
  import opened PermissionSafety
  import opened FinalizerSafety
  import opened ReconcileSafety

  predicate Flying(s: Store, id: nat) {
    id in s.requests && (s.requests[id].status.state == Requested || s.requests[id].status.state == Granted)
  }

  /** Request `j` is another request in flight for what request `i` asks. */
  predicate Rival(s: Store, i: nat, j: nat) {
    i != j && i in s.requests && Flying(s, j) && SameAsk(s.requests[i], s.requests[j])
  }

  ghost predicate AtMostOne(s: Store) {
    forall i, j :: Rival(s, i, j) ==> !Flying(s, i)
  }

  // ---------------------------------------------------------------- the check finds rivals

  /** The check reports a conflict exactly when the list holds a conflicting request. */
  lemma {:induction false} ConflictFound(list: seq<Request>, ar: Request)
    ensures ValidateConflict(list, ar).Some? <==> exists i :: 0 <= i < |list| && Conflicts(list[i], ar)
  {
    if list != [] {
      ConflictFound(list[1..], ar);
      if exists i :: 0 <= i < |list| && Conflicts(list[i], ar) {
        var i :| 0 <= i < |list| && Conflicts(list[i], ar);
        if i > 0 { assert Conflicts(list[1..][i - 1], ar); }
      }
    }
  }

  /** Among uninitialised requests for the same role the check lets the newest through, not the
      oldest: one is turned away exactly when another was created after it. */
  lemma NewestPasses(list: seq<Request>, ar: Request)
    requires forall i :: 0 <= i < |list| ==>
               list[i].status.state == Empty && list[i].spec.template == ar.spec.template
    ensures ValidateConflict(list, ar).None? <==>
              forall i :: 0 <= i < |list| && list[i].id != ar.id ==> list[i].created <= ar.created
  {
    ConflictFound(list, ar);
    if ValidateConflict(list, ar).None? {
      forall i | 0 <= i < |list| && list[i].id != ar.id ensures list[i].created <= ar.created {
        assert !Conflicts(list[i], ar);
      }
    }
  }

  predicate Nameless(ar: Request) {
    ar.spec.app.name == "" || ar.spec.app.ns == ""
  }

  /** A rival of a request that names its user and application is found. */
  lemma RivalFound(s: Store, ar: Request, j: nat)
    requires StoreOk(s) && ar.id in s.requests && SameIdentity(s.requests[ar.id], ar) && Rival(s, ar.id, j)
    requires ar.spec.user != "" && !Nameless(ar)
    ensures ValidateConflict(Siblings(s, ar.ns, ar.spec.user, ar.spec.app), ar).Some?
  {
    var list := Siblings(s, ar.ns, ar.spec.user, ar.spec.app);
    ListedHolds(s, 0, ar.ns, ar.spec.user, ar.spec.app, j);
    ConflictFound(list, ar);
    var k :| 0 <= k < |list| && list[k] == s.requests[j];
    assert Conflicts(list[k], ar);
  }

  // ---------------------------------------------------------------- an invalid request stays so

  /** Rendering cannot succeed for the project this request may use. */
  predicate NeverRenders(ar: Request) {
    Nameless(ar) || (ar.status.state != Empty && ar.status.target == "")
  }

  predicate StateIn(s: Store, id: nat, states: set<State>) {
    id in s.requests && s.requests[id].status.state in states
  }

  lemma UpdateStatusStates(w: World, ar: Request, state: State, message: string, hash: Hash)
    requires Sound(w) && Loaded(w.store, ar)
    ensures var step := UpdateStatus(w, ar, state, message, hash);
      StateIn(step.w.store, ar.id, {ar.status.state, state})
  {
    PauseSound(w);
    if !UpToDate(ar.status, state, message, hash) {
      PutStatusCases(w, ar, Recorded(ar.status, ar.spec.duration, state, message, w.store.now).(hash := hash));
    }
  }

  lemma HereStates(w: World, ar: Request, states: set<State>)
    requires Loaded(w.store, ar) && ar.status.state in states
    ensures StateIn(w.store, ar.id, states)
  {
  }

  lemma CannotRender(w: World, ar: Request, project: string)
    requires Sound(w) && Loaded(w.store, ar)
    requires Nameless(ar) || project == ""
    ensures var (w1, got) := RenderedRole(w, ar, project);
      Sound(w1) && Loaded(w1.store, ar) && got.Err?
  {
    RenderedRoleSound(w, ar, project);
  }

  lemma ChangedStates(w: World, ar: Request, project: string)
    requires Sound(w) && Loaded(w.store, ar) && NeverRenders(ar) && ar.status.state != Empty
    ensures HandleProjectChanged(w, ar, project).err.Some?
    ensures StateIn(HandleProjectChanged(w, ar, project).w.store, ar.id, {ar.status.state, Invalid})
  {
    CannotRender(w, ar, ar.status.target);
  }

  lemma ProjectReadStates(w: World, ar: Request, project: string)
    requires Sound(w) && Loaded(w.store, ar)
    ensures var (w1, got) := GetProject(w, Ref(ar.ns, project));
      var message := "Argo CD Project " + ar.ns + "/" + project + " not found";
      && StateIn(w1.store, ar.id, {ar.status.state, Invalid})
      && StateIn(UpdateStatus(w1, ar, Invalid, message, NoHash).w.store, ar.id, {ar.status.state, Invalid})
  {
    PauseSound(w);
    UpdateStatusStates(GetProject(w, Ref(ar.ns, project)).0, ar, Invalid,
                       "Argo CD Project " + ar.ns + "/" + project + " not found", NoHash);
  }

  lemma ProjectlessStates(w: World, ar: Request, message: string)
    requires Sound(w) && Loaded(w.store, ar)
    ensures StateIn(UpdateStatus(NoteProjectless(w, ar), ar, Invalid, message, NoHash).w.store, ar.id,
                    {ar.status.state, Invalid})
  {
    SoundWeaken(w, NoteProjectless(w, ar).ev);
    UpdateStatusStates(NoteProjectless(w, ar), ar, Invalid, message, NoHash);
  }

  lemma ValidateNeverRenders(w: World, ar: Request, project: string)
    requires Sound(w) && Loaded(w.store, ar) && NeverRenders(ar)
    ensures var flow := ValidateProject(w, ar, project);
      && StateIn(flow.w.store, ar.id, {ar.status.state, Invalid})
      && (flow.result == Ok(true) ==> Nameless(ar))
  {
    if project == "" {
      ProjectlessStates(w, ar, "Application does not have a project defined");
    } else if ar.status.state != Empty && ar.status.target != project {
      ChangedStates(w, ar, project);
    } else {
      ProjectReadStates(w, ar, project);
    }
  }

  lemma WithAppStates(w: World, ar: Request, project: string)
    requires Sound(w) && Loaded(w.store, ar) && NeverRenders(ar) && Active(w.ev, ar)
    ensures var flow := HandleWithApp(w, ar, project);
      StateIn(flow.w.store, ar.id, {ar.status.state, Invalid}) && (flow.result.Ok? ==> flow.result.value == Invalid)
  {
    ValidateNeverRenders(w, ar, project);
    ValidateProjectSound(w, ar, project);
    var valid := ValidateProject(w, ar, project);
    if valid.result == Ok(true) {
      CannotRender(valid.w, ar, project);
      HereStates(RenderedRole(valid.w, ar, project).0, ar, {ar.status.state, Invalid});
    }
  }

  lemma AppNotFoundStates(w: World, ar: Request)
    requires Sound(w) && Loaded(w.store, ar) && NeverRenders(ar)
    ensures StateIn(HandleAppNotFound(w, ar).w.store, ar.id, {ar.status.state, Invalid})
  {
    if ar.status.target == "" {
      UpdateStatusStates(w, ar, Invalid, "application not found", NoHash);
    } else {
      CannotRender(w, ar, ar.status.target);
    }
  }

  lemma ReadApp(w: World, ar: Request)
    requires Sound(w) && Loaded(w.store, ar) && Active(w.ev, ar)
    ensures var w1 := GetApp(w, ar.spec.app).0;
      Sound(w1) && Loaded(w1.store, ar) && Active(w1.ev, ar)
  {
    PauseSound(w);
  }

  /** A request that cannot be rendered leaves HandlePermission in the state it came in, or invalid. */
  lemma NeverRendersStates(w: World, ar: Request)
    requires Sound(w) && Loaded(w.store, ar) && NeverRenders(ar) && Active(w.ev, ar)
    ensures var flow := HandlePermission(w, ar);
      StateIn(flow.w.store, ar.id, {ar.status.state, Invalid}) && (flow.result.Ok? ==> flow.result.value == Invalid)
  {
    ReadApp(w, ar);
    var (w1, got) := GetApp(w, ar.spec.app);
    match got
    case Ok(project) =>
      WithAppStates(w1, ar, project);
      assert HandlePermission(w, ar) == HandleWithApp(w1, ar, project);
    case Err(e) =>
      HereStates(w1, ar, {ar.status.state, Invalid});
      AppNotFoundStates(w1, ar);
  }

  // ---------------------------------------------------------------- a rivalled newcomer

  lemma ConflictWriteStates(w: World, ar: Request, status: Status)
    requires Sound(w) && Loaded(w.store, ar)
    ensures StateIn(PutStatus(w, ar.(status := status)).0.store, ar.id, {ar.status.state, status.state})
  {
    PauseSound(w);
    PutStatusCases(w, ar, status);
  }

  /** A rival is protected by its finalizer: other actors cannot make it go away. */
  lemma RivalStays(w: World, i: nat, j: nat)
    requires Sound(w) && Rival(w.store, i, j) && i in Pause(w).0.store.requests
    ensures Rival(Pause(w).0.store, i, j)
  {
    PauseSound(w);
    StoreFine(w);
    assert RequestOk(w.store, w.store.requests[j]);
    assert Loaded(w.store, w.store.requests[j]);
  }

  lemma RivalledList(w: World, ar: Request, j: nat)
    requires Sound(w) && Loaded(w.store, ar) && Rival(w.store, ar.id, j) && ar.spec.user != "" && !Nameless(ar)
    ensures var (w1, got) := ListRequests(w, ar.ns, ar.spec.user, ar.spec.app);
      && Sound(w1) && Loaded(w1.store, ar)
      && (got.Ok? ==> ValidateConflict(got.value, ar).Some?)
  {
    PauseSound(w);
    RivalStays(w, ar.id, j);
    var w1 := Pause(w).0;
    StoreFine(w1);
    RivalFound(w1.store, ar, j);
  }

  lemma ConflictStates(w: World, ar: Request, message: string)
    requires Sound(w) && Loaded(w.store, ar) && ar.status.state in {Empty, Initiated, Requested, Granted}
    ensures var x := NoteConflict(w, ar);
      var status := Recorded(ar.status, ar.spec.duration, Invalid, message, x.store.now);
      var (w2, ar2, err) := PutStatus(x, ar.(status := status));
      && StateIn(w2.store, ar.id, {ar.status.state, Invalid})
      && (err.None? ==> ar2.status == status)
  {
    var x := NoteConflict(w, ar);
    MarkedSound(w, ar);
    ConflictWriteStates(x, ar, Recorded(ar.status, ar.spec.duration, Invalid, message, x.store.now));
    RecordConflict(x, ar, message);
  }

  /** The conflict check of a request with a rival fails or marks the request invalid. */
  lemma RivalledCheck(w: World, ar: Request, j: nat)
    requires Sound(w) && Loaded(w.store, ar) && Rival(w.store, ar.id, j) && ar.spec.user != "" && !Nameless(ar)
    requires ar.status.state in {Empty, Initiated, Requested, Granted}
    ensures var step := HandleConflict(w, ar);
      && StateIn(step.w.store, ar.id, {ar.status.state, Invalid})
      && (step.err.None? ==> step.ar.status.state == Invalid && step.ar.status.target == ar.status.target)
  {
    RivalledList(w, ar, j);
    var (w1, got) := ListRequests(w, ar.ns, ar.spec.user, ar.spec.app);
    if got.Ok? {
      ConflictStates(w1, ar, ValidateConflict(got.value, ar).value);
    } else {
      HereStates(w1, ar, {ar.status.state, Invalid});
    }
  }

  /** A request made invalid is past the timeout check. */
  lemma InvalidFinishes(w: World, ar: Request, state: State)
    requires ar.status.state == Invalid
    ensures Finish(w, ar, state).w == w
  {
  }

  lemma AnswerIsCopied(w: World, ar: Request)
    requires Sound(w) && Loaded(w.store, ar) && Active(w.ev, ar)
    ensures var flow := HandlePermission(w, ar);
      flow.result.Ok? ==> flow.ar.status.state == flow.result.value
  {
    HandlePermissionSound(w, ar);
  }

  lemma NeverRendersResolve(w: World, ar: Request)
    requires Sound(w) && Loaded(w.store, ar) && NeverRenders(ar) && Active(w.ev, ar)
    ensures StateIn(Resolve(w, ar).w.store, ar.id, {ar.status.state, Invalid})
  {
    NeverRendersStates(w, ar);
    AnswerIsCopied(w, ar);
    var handled := HandlePermission(w, ar);
    if handled.result.Ok? { InvalidFinishes(handled.w, handled.ar, Invalid); }
  }

  /** A new request with a rival ends the reconciliation uninitialised or invalid. */
  lemma RivalledProceed(w: World, ar: Request, j: nat)
    requires Sound(w) && Loaded(w.store, ar) && Rival(w.store, ar.id, j) && ar.status.state == Empty
    requires ar.spec.user != "" && !Nameless(ar)
    ensures StateIn(Proceed(w, ar).w.store, ar.id, {Empty, Invalid})
  {
    LoadedFacts(w, ar);
    RivalledCheck(w, ar, j);
    HandleConflictSound(w, ar);
    var checked := HandleConflict(w, ar);
    if checked.err.None? { NeverRendersResolve(checked.w, checked.ar); }
  }

  lemma NamelessCheck(w: World, ar: Request)
    requires Sound(w) && Loaded(w.store, ar) && ar.status.state in {Empty, Initiated}
    ensures var step := HandleConflict(w, ar);
      && StateIn(step.w.store, ar.id, {ar.status.state, Invalid})
      && (step.err.None? ==> step.ar.status.state in {ar.status.state, Invalid})
  {
    PauseSound(w);
    var (w1, got) := ListRequests(w, ar.ns, ar.spec.user, ar.spec.app);
    HereStates(w1, ar, {ar.status.state, Invalid});
    if got.Ok? && ValidateConflict(got.value, ar).Some? {
      ConflictStates(w1, ar, ValidateConflict(got.value, ar).value);
    }
  }

  /** A request whose application has no name or namespace can never be in flight. */
  lemma NamelessProceed(w: World, ar: Request)
    requires Sound(w) && Loaded(w.store, ar) && ar.status.state in {Empty, Initiated} && Nameless(ar)
    ensures StateIn(Proceed(w, ar).w.store, ar.id, {ar.status.state, Invalid})
  {
    NamelessCheck(w, ar);
    HandleConflictSound(w, ar);
    var checked := HandleConflict(w, ar);
    if checked.err.None? { NeverRendersResolve(checked.w, checked.ar); }
  }

  // ---------------------------------------------------------------- the whole reconciliation

  lemma AddOnceKeeps(w: World, r: Request, other: Request)
    requires Sound(w) && Loaded(w.store, other) && other.id != r.id && Read(w.store, r)
    ensures Loaded(PutFinalizer(w, r.(finalizer := true)).0.store, other)
  {
    PauseSound(w);
    PauseRead(w, r);
    PutFinalizerCases(w, r, true);
  }

  /** Adding the finalizer of one request leaves every other protected request stored. */
  lemma {:induction false} AddFinalizerKeeps(w: World, ar: Request, other: Request, attempts: nat)
    requires Sound(w) && Loaded(w.store, other) && other.id != ar.id
    ensures Loaded(AddFinalizer(w, ar, attempts).w.store, other)
    decreases attempts
  {
    PauseSound(w);
    ReadStored(w, ar.id);
    var (w1, got) := GetRequest(w, ar.id);
    if got.Ok? {
      AddOnceKeeps(w1, got.value, other);
      AddOnce(w1, got.value);
      PauseRead(w1, got.value);
      AddOnceLoads(w1, got.value);
      var (w2, ar2, err) := PutFinalizer(w1, got.value.(finalizer := true));
      if err == Some(Conflict) && attempts > 1 { AddFinalizerKeeps(w2, ar2, other, attempts - 1); }
    }
  }

  lemma RivalLoaded(w: World, i: nat, j: nat)
    requires Sound(w) && Rival(w.store, i, j)
    ensures w.store.requests[j].id == j && Loaded(w.store, w.store.requests[j])
  {
    StoreFine(w);
    assert RequestOk(w.store, w.store.requests[j]);
  }

  lemma RivalAgain(s: Store, t: Store, i: nat, j: nat)
    requires Kept(s, t, {}) && Rival(s, i, j) && i in t.requests
    requires s.requests[j].id == j && Loaded(t, s.requests[j])
    ensures Rival(t, i, j)
  {
  }

  lemma FinalizerKeepsLoaded(w: World, ar: Request, other: Request)
    requires Sound(w) && Loaded(w.store, other) && other.id != ar.id
    requires HandleFinalizer(w, ar).result == Ok(false)
    ensures Loaded(HandleFinalizer(w, ar).w.store, other)
  {
    if ar.finalizer {
      assert HandleFinalizer(w, ar).w == w;
    } else {
      AddFinalizerKeeps(w, ar, other, ATTEMPTS);
      assert HandleFinalizer(w, ar).w == AddFinalizer(w, ar, ATTEMPTS).w;
    }
  }

  lemma FinalizerKeepsRival(w: World, ar: Request, j: nat)
    requires Sound(w) && ar.id in w.store.requests && w.store.requests[ar.id] == ar && Rival(w.store, ar.id, j)
    requires HandleFinalizer(w, ar).result == Ok(false)
    ensures Rival(HandleFinalizer(w, ar).w.store, ar.id, j)
  {
    var other := w.store.requests[j];
    RivalLoaded(w, ar.id, j);
    HandleFinalizerSound(w, ar);
    FinalizerKeepsLoaded(w, ar, other);
    RivalAgain(w.store, HandleFinalizer(w, ar).w.store, ar.id, j);
  }

  /** A request that a rival keeps on the ground: its application has no name or namespace, or it
      is new and names its user. */
  predicate Grounded(ar: Request) {
    && ar.status.state in {Empty, Initiated}
    && (Nameless(ar) || (ar.status.state == Empty && ar.spec.user != ""))
  }

  lemma GroundedContinue(w: World, ar: Request, j: nat)
    requires Sound(w) && Loaded(w.store, ar) && Rival(w.store, ar.id, j) && Grounded(ar)
    ensures !Flying(Continue(w, ar).w.store, ar.id)
  {
    if Nameless(ar) { NamelessProceed(w, ar); } else { RivalledProceed(w, ar, j); }
  }

  lemma NotFlyingAlong(w: World, x: World, id: nat)
    requires Continues(w, x, {}) && id in w.store.requests && !InFlight(w.store.requests[id].status.state)
    ensures !Flying(x.store, id)
  {
  }

  lemma SameIdentityAlong(w: World, x: World, ar: Request, copy: Request)
    requires Continues(w, x, {}) && ar.id in w.store.requests && w.store.requests[ar.id] == ar
    requires copy.id == ar.id && Loaded(x.store, copy)
    ensures SameIdentity(ar, copy) && copy.status == ar.status
  {
  }

  lemma GroundedCopy(w: World, ar: Request, j: nat)
    requires Sound(w) && ar.id in w.store.requests && w.store.requests[ar.id] == ar
    requires Rival(w.store, ar.id, j) && Grounded(ar)
    ensures !Flying(FromCopy(w, ar).w.store, ar.id)
  {
    HandleFinalizerSound(w, ar);
    var final := HandleFinalizer(w, ar);
    if final.result == Ok(false) {
      FinalizerKeepsRival(w, ar, j);
      SameIdentityAlong(w, final.w, ar, final.ar);
      GroundedContinue(final.w, final.ar, j);
      assert FromCopy(w, ar) == Continue(final.w, final.ar);
    } else {
      NotFlyingAlong(w, final.w, ar.id);
      assert FromCopy(w, ar).w == final.w;
    }
  }

  lemma DeletedCopy(w: World, ar: Request)
    requires Sound(w) && ar.id in w.store.requests && w.store.requests[ar.id] == ar
    requires ar.deleting && !InFlight(ar.status.state)
    ensures !Flying(FromCopy(w, ar).w.store, ar.id)
  {
    HandleFinalizerSound(w, ar);
    var final := HandleFinalizer(w, ar);
    NotFlyingAlong(w, final.w, ar.id);
    assert final.result != Ok(false);
    assert FromCopy(w, ar).w == final.w;
  }

  lemma KeptAtMostOne(s: Store, t: Store, id: nat)
    requires AtMostOne(s) && Kept(s, t, {id}) && id in s.requests
    requires Flying(t, id) ==> forall j :: !Rival(s, id, j)
    ensures AtMostOne(t)
  {
    forall i, j | Rival(t, i, j) ensures !Flying(t, i) {
      if Flying(t, i) {
        if i == id {
          assert Rival(s, id, j);
        } else if j == id {
          assert Rival(s, id, i);
        } else {
          assert Rival(s, i, j);
        }
      }
    }
  }

  /** The hazard: a request with a rival, not being deleted, whose application has a name and a
      namespace, and which is initiated, or new without a user name. */
  ghost predicate Hazard(s: Store, id: nat) {
    && id in s.requests
    && var ar := s.requests[id];
       ar.status.state in {Empty, Initiated} && !ar.deleting && !Grounded(ar) && exists j :: Rival(s, id, j)
  }

  lemma CopyKeepsAtMostOne(w: World, ar: Request)
    requires Sound(w) && ar.id in w.store.requests && w.store.requests[ar.id] == ar
    requires AtMostOne(w.store) && !Hazard(w.store, ar.id)
    ensures AtMostOne(FromCopy(w, ar).w.store)
  {
    Stay(w, {});
    FromRead(w, w, ar);
    var done := FromCopy(w, ar);
    if Flying(done.w.store, ar.id) {
      forall j ensures !Rival(w.store, ar.id, j) {
        if Rival(w.store, ar.id, j) {
          if Concluded(ar.status.state) {
            NotFlyingAlong(w, done.w, ar.id);
          } else if Grounded(ar) {
            GroundedCopy(w, ar, j);
          } else if ar.deleting {
            DeletedCopy(w, ar);
          }
        }
      }
    }
    KeptAtMostOne(w.store, done.w.store, ar.id);
  }
}
