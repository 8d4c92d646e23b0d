/** What holds of every store and every step of a run, and why other actors and single API
    calls keep it. */
module Safety {
  import opened Prelude
  import opened Templates
  import opened Roles
  import opened Requests
  import opened Cluster

  // ---------------------------------------------------------------- one store

  ghost predicate StatusOk(status: Status, now: int) {
    && HistoryOk(status, now)
    && (status.state == Empty ==> status == FRESH)
    && (status.state in {Granted, Expired} ==> status.expiresAt.Some?)
    && (status.state == Expired ==> status.history != [] && status.expiresAt.value < Last(status.history).time)
    && (status.state == Initiated ==> status.expiresAt.None?)
    && (status.state !in {Empty, Invalid} ==> status.target != "")
  }

  ghost predicate RequestOk(s: Store, r: Request) {
    && StatusOk(r.status, s.now)
    && (r.status.state != Empty || r.deleting ==> r.finalizer)
    && r.version <= s.rev
  }

  ghost predicate StoreOk(s: Store) {
    && (forall id :: id in s.requests ==> s.requests[id].id == id && id < s.next && RequestOk(s, s.requests[id]))
    && (forall key :: key in s.projects ==> key.name != "" && s.projects[key].version <= s.rev)
  }

  /** Request `id` is stored with the finalizer, targets the project and role, names the user and
      is neither uninitialised nor expired. */
  ghost predicate Backs(s: Store, id: nat, key: Ref, name: string, user: string) {
    && id in s.requests
    && var r := s.requests[id];
       && r.finalizer && r.ns == key.ns && r.status.target == key.name
       && r.status.roleName == name && r.spec.user == user
       && r.status.state !in {Empty, Expired}
  }

  /** Every member of an ephemeral role is backed by a request. */
  ghost predicate NoOrphan(s: Store) {
    forall key, name, user ::
      key in s.projects && Ephemeral(name) && Member(s.projects[key].roles, name, user) ==>
        exists id :: Backs(s, id, key, name, user)
  }

  predicate NamedRole(names: map<Ref, string>, r: Request) {
    r.status.target != "" ==>
      r.spec.template in names && r.status.roleName == RoleName(names[r.spec.template], r.spec.app)
  }

  ghost predicate CleanOk(names: map<Ref, string>, s: Store) {
    && (forall ref :: ref in s.templates ==>
          s.templates[ref].ref == ref && ref in names && names[ref] == s.templates[ref].name)
    && (forall id :: id in s.requests ==> NamedRole(names, s.requests[id]))
    && NoOrphan(s)
  }

  /** Nothing but the plugin's leave, or its absence, leads to a grant. */
  predicate Approved(cfg: Config, ev: Evidence, id: nat) {
    !cfg.plugin || (id, PluginGranted) in ev.answers || (id, PluginUndeclared) in ev.answers
  }

  ghost predicate Fine(cfg: Config, ev: Evidence, s: Store) {
    && StoreOk(s)
    && (ev.clean ==> CleanOk(cfg.names, s))
    && (forall id :: id in s.requests && id !in ev.conflicted && s.requests[id].status.state == Requested ==>
          s.requests[id].status.expiresAt.None?)
  }

  // ---------------------------------------------------------------- one step

  predicate Edge(a: State, b: State) {
    match a
    case Empty => b in {Initiated, Invalid}
    case Initiated => b in {Requested, Granted, Denied, Invalid, Timeout}
    case Requested => b in {Requested, Granted, Denied, Invalid, Timeout, Expired}
    case Granted => b in {Expired, Invalid}
    case Invalid => b in {Invalid, Requested, Granted, Denied, Expired}
    case _ => false
  }

  /** The moves of a request never found in conflict. */
  predicate DagEdge(a: State, b: State) {
    Edge(a, b) && a != Invalid && (a == Requested ==> b != Expired)
  }

  ghost predicate StatusStep(a: Status, b: Status, duration: int) {
    || a == b
    || (&& Edge(a.state, b.state)
        && HistoryGrows(a.history, b.history)
        && (a.expiresAt.Some? ==> b.expiresAt == a.expiresAt)
        && (a.expiresAt.None? && b.expiresAt.Some? ==>
              b.state == Granted && b.history != [] && b.expiresAt.value == Last(b.history).time + duration)
        && (a.state != Empty ==> b.target == a.target && b.roleName == a.roleName))
  }

  /** No role of that name in the project holds the user. */
  predicate Gone(s: Store, key: Ref, name: string, user: string) {
    !Member(RolesAt(s, key), name, user)
  }

  /** The request's user is in no role of the request's role name in its target project. */
  predicate Removed(s: Store, r: Request) {
    Gone(s, Ref(r.ns, r.status.target), r.status.roleName, r.spec.user)
  }

  /** The members the request would back have left their role. */
  predicate Released(s: Store, r: Request) {
    r.status.state == Expired || r.status.target == "" || Removed(s, r)
  }

  predicate SameIdentity(a: Request, b: Request) {
    && a.id == b.id && a.ns == b.ns && a.created == b.created
    && a.spec.(duration := 0) == b.spec.(duration := 0)
  }

  /** The two requests ask for the same role for the same user and application. */
  predicate SameAsk(a: Request, b: Request) {
    a.ns == b.ns && a.spec.user == b.spec.user && a.spec.app == b.spec.app && a.spec.template == b.spec.template
  }

  /** The TTL deadline of a concluded request has passed. */
  predicate Overdue(cfg: Config, status: Status, now: int) {
    cfg.ttl != 0 && Concluded(status.state) && status.history != [] && now > Last(status.history).time + cfg.ttl
  }

  /** The request timeout has passed since the last entry. */
  predicate Late(cfg: Config, status: Status, now: int) {
    cfg.timeout != 0 && status.history != [] && now > Last(status.history).time + cfg.timeout
  }

  /** What may excuse a granted request that is concluded with its user still in the role: that very
      version of it was found in conflict, or with an empty project. */
  predicate Excused(ev: Evidence, r: Request) {
    (r.id, r.version) in ev.opposed || (r.id, r.version) in ev.projectless
  }

  /** One legal step of a stored request, from `a` in store `s` to `b` in store `t`. */
  ghost predicate RequestMoves(cfg: Config, ev: Evidence, s: Store, t: Store, a: Request, b: Request) {
    && SameIdentity(a, b)
    && StatusStep(a.status, b.status, a.spec.duration)
    && (a.id !in ev.conflicted ==> a.status == b.status || DagEdge(a.status.state, b.status.state))
    && (ev.clean && a.status != b.status && b.status.state == Expired ==> Removed(t, b))
    && (ev.clean && a.status.state == Granted && b.status.state == Invalid ==> Removed(t, b) || Excused(ev, a))
    && (a.status != b.status && b.status.state == Granted ==> Approved(cfg, ev, a.id))
    && (a.status != b.status && b.status.state == Timeout ==>
          b.status.history != [] && Late(cfg, a.status, Last(b.status.history).time))
    && (b.deleting ==> a.deleting || a.id in ev.deleted || Overdue(cfg, a.status, s.now))
  }

  /** The request backs the member and is granted, or the plugin's leave allows it to be granted now,
      be it for the first time or again after a conflict. */
  ghost predicate Joins(cfg: Config, ev: Evidence, t: Store, id: nat, key: Ref, name: string, user: string) {
    && Backs(t, id, key, name, user)
    && var state := t.requests[id].status.state;
       state == Granted || (Approved(cfg, ev, id) && state in {Initiated, Requested, Invalid})
  }

  /** Every member new to an ephemeral role has joined it by a grant. */
  ghost predicate JoinsExplained(cfg: Config, ev: Evidence, s: Store, t: Store) {
    forall key, name, user :: Ephemeral(name) && Member(RolesAt(t, key), name, user) && Gone(s, key, name, user) ==>
      exists id :: Joins(cfg, ev, t, id, key, name, user)
  }

  /** A request loses its finalizer only when released. */
  predicate FinalizersStay(s: Store, t: Store) {
    forall id :: id in s.requests && s.requests[id].finalizer ==>
      (id in t.requests && t.requests[id].finalizer) || Released(t, s.requests[id])
  }

  ghost predicate Moves(cfg: Config, ev: Evidence, s: Store, t: Store) {
    && s.now <= t.now && s.rev <= t.rev && s.next <= t.next
    && (forall id :: id in t.requests && id !in s.requests ==> id >= s.next && t.requests[id].status == FRESH)
    && (forall id :: id in s.requests && id !in t.requests ==> s.requests[id].deleting || id in ev.deleted)
    && (forall id :: id in t.requests && id in s.requests ==>
          RequestMoves(cfg, ev, s, t, s.requests[id], t.requests[id]))
    && (ev.clean ==> JoinsExplained(cfg, ev, s, t) && FinalizersStay(s, t))
  }

  /** The step to store `i` is legal. */
  ghost predicate MoveAt(cfg: Config, ev: Evidence, trail: seq<Store>, i: int) {
    0 < i < |trail| && Moves(cfg, ev, trail[i - 1], trail[i])
  }

  /** Every store of the run so far is fine and every step of it legal. */
  ghost predicate Sound(w: World) {
    && w.trail != [] && w.trail[|w.trail| - 1] == w.store
    && (forall i :: 0 <= i < |w.trail| ==> Fine(w.cfg, w.ev, w.trail[i]))
    && (forall i :: 0 < i < |w.trail| ==> MoveAt(w.cfg, w.ev, w.trail, i))
  }

  // ---------------------------------------------------------------- how far a run got

  /** From `s` to `t` identities and deletion marks stay, and only the requests in `ids` change
      status. */
  ghost predicate Kept(s: Store, t: Store, ids: set<nat>) {
    && s.now <= t.now && s.next <= t.next
    && (forall id :: id in t.requests && id !in s.requests ==>
          id >= s.next && (id !in ids ==> t.requests[id].status == FRESH))
    && (forall id :: id in t.requests && id in s.requests ==>
          && SameIdentity(s.requests[id], t.requests[id])
          && (s.requests[id].deleting ==> t.requests[id].deleting)
          && (id !in ids ==> t.requests[id].status == s.requests[id].status))
  }

  predicate Weaker(a: Evidence, b: Evidence) {
    (b.clean ==> a.clean) && a.conflicted <= b.conflicted && a.opposed <= b.opposed
    && a.projectless <= b.projectless && a.deleted <= b.deleted && a.answers <= b.answers
  }

  /** `x` continues the run of `w`, all along changing the status of no request outside `ids`. */
  ghost predicate Continues(w: World, x: World, ids: set<nat>) {
    && w.trail <= x.trail && x.cfg == w.cfg
    && Weaker(w.ev, x.ev)
    && Kept(w.store, x.store, ids)
    && (forall k :: |w.trail| <= k < |x.trail| ==> Kept(w.store, x.trail[k], ids))
  }

  lemma KeptCompose(s: Store, t: Store, u: Store, ids: set<nat>)
    requires StoreOk(s) && StoreOk(t) && Kept(s, t, ids) && Kept(t, u, ids)
    ensures Kept(s, u, ids)
  {
  }

  lemma ContinuesCompose(w: World, x: World, y: World, ids: set<nat>)
    requires Sound(w) && Sound(x) && Continues(w, x, ids) && Continues(x, y, ids)
    ensures Continues(w, y, ids)
  {
    assert StoreOk(w.store) && StoreOk(x.store) by {
      assert Fine(w.cfg, w.ev, w.trail[|w.trail| - 1]) && Fine(x.cfg, x.ev, x.trail[|x.trail| - 1]);
    }
    KeptCompose(w.store, x.store, y.store, ids);
    forall k | |w.trail| <= k < |y.trail| ensures Kept(w.store, y.trail[k], ids) {
      if k < |x.trail| {
        assert y.trail[k] == x.trail[k];
      } else {
        KeptCompose(w.store, x.store, y.trail[k], ids);
      }
    }
  }

  lemma ContinuesWiden(w: World, x: World, ids: set<nat>, more: set<nat>)
    requires Continues(w, x, ids) && ids <= more
    ensures Continues(w, x, more)
  {
  }

  /** Where no project changes nobody joins. */
  lemma NobodyJoins(cfg: Config, ev: Evidence, s: Store, t: Store)
    requires t.projects == s.projects
    ensures JoinsExplained(cfg, ev, s, t)
  {
  }

  lemma StoreFine(w: World)
    requires Sound(w)
    ensures Fine(w.cfg, w.ev, w.store)
  {
    assert Fine(w.cfg, w.ev, w.trail[|w.trail| - 1]);
  }

  lemma CommitSound(w: World, s: Store, ids: set<nat>)
    requires Sound(w) && Fine(w.cfg, w.ev, s) && Moves(w.cfg, w.ev, w.store, s) && Kept(w.store, s, ids)
    ensures Sound(Commit(w, s)) && Continues(w, Commit(w, s), ids)
  {
    var x := Commit(w, s);
    forall i | 0 <= i < |x.trail| ensures Fine(x.cfg, x.ev, x.trail[i]) {
      if i < |w.trail| { assert Fine(w.cfg, w.ev, w.trail[i]); }
    }
    forall i | 0 < i < |x.trail| ensures MoveAt(x.cfg, x.ev, x.trail, i) {
      if i < |w.trail| { assert MoveAt(w.cfg, w.ev, w.trail, i); }
    }
  }

  // ---------------------------------------------------------------- the in-memory copy

  /** The copy agrees with the stored request, which only its version, deletion mark and
      duration may have moved on from. */
  ghost predicate Loaded(s: Store, ar: Request) {
    && ar.id in s.requests && ar.version <= s.rev && ar.finalizer
    && var r := s.requests[ar.id];
       && SameIdentity(r, ar) && r.status == ar.status && r.finalizer
       && (r.version == ar.version ==> r == ar)
  }

  // ---------------------------------------------------------------- other actors

  lemma BackingKept(s: Store, t: Store)
    requires NoOrphan(s)
    requires forall id, key, name, user :: Backs(s, id, key, name, user) ==> Backs(t, id, key, name, user)
    requires forall key, name, user :: Ephemeral(name) && Member(RolesAt(t, key), name, user) ==>
               Member(RolesAt(s, key), name, user)
    ensures NoOrphan(t)
  {
    forall key, name, user | key in t.projects && Ephemeral(name) && Member(t.projects[key].roles, name, user)
      ensures exists id :: Backs(t, id, key, name, user)
    {
      assert Member(RolesAt(t, key), name, user);
      assert Member(RolesAt(s, key), name, user);
      var id :| Backs(s, id, key, name, user);
      assert Backs(t, id, key, name, user);
    }
  }
}
