/** Other actors keep the invariant of the run, the controller's in-memory copy, and the absence of
    a removed user. They may do anything at any call: create, delete and edit requests, change
    applications, templates, projects and roles, and let time pass. What they cannot do is write a
    request's status or take its finalizer away. */
module Outside {
  import opened Prelude
  import opened Roles
  import opened Requests
  import opened Cluster
  import opened Safety

  /** The requests of `t` are those of `s` with at most `id` touched in version, deletion mark
      or duration, or dropped while unprotected by the finalizer, or a fresh one added. */
  ghost predicate Undisturbed(s: Store, t: Store) {
    && s.now <= t.now && s.rev <= t.rev && s.next <= t.next
    && (forall id :: id in t.requests && id !in s.requests ==>
          var r := t.requests[id];
          r.id == id && s.next <= id < t.next && r.status == FRESH && !r.deleting && !r.finalizer && r.version <= t.rev)
    && (forall id :: id in t.requests && id in s.requests ==>
          var a, b := s.requests[id], t.requests[id];
          && SameIdentity(a, b) && a.status == b.status && a.finalizer == b.finalizer
          && (a.deleting ==> b.deleting) && (b.deleting ==> a.deleting || a.finalizer)
          && (a == b || s.rev < b.version <= t.rev))
    && (forall id :: id in s.requests && s.requests[id].finalizer ==> id in t.requests)
  }

  lemma MarkUndisturbed(s: Store, id: nat)
    requires StoreOk(s) && id in s.requests && s.requests[id].finalizer && !s.requests[id].deleting
    ensures Undisturbed(s, Delete(s, id))
  {
    var marked := s.requests[id].(deleting := true, version := s.rev + 1);
    assert Delete(s, id).requests == s.requests[id := marked];
    assert SameIdentity(s.requests[id], marked);
  }

  lemma DropUndisturbed(s: Store, id: nat)
    requires StoreOk(s) && id in s.requests && !s.requests[id].finalizer && !s.requests[id].deleting
    ensures Undisturbed(s, Delete(s, id))
  {
    assert Delete(s, id).requests == s.requests - {id};
  }

  lemma SameRequestsUndisturbed(s: Store, t: Store)
    requires StoreOk(s) && t.requests == s.requests
    requires s.now <= t.now && s.rev <= t.rev && s.next <= t.next
    ensures Undisturbed(s, t)
  {
  }

  lemma DeleteUndisturbed(s: Store, id: nat)
    requires StoreOk(s)
    ensures Undisturbed(s, Delete(s, id))
  {
    if id !in s.requests || s.requests[id].deleting {
      SameRequestsUndisturbed(s, Delete(s, id));
    } else if s.requests[id].finalizer {
      MarkUndisturbed(s, id);
    } else {
      DropUndisturbed(s, id);
    }
  }

  lemma CreateUndisturbed(s: Store, ns: string, spec: Spec)
    requires StoreOk(s)
    ensures Undisturbed(s, Apply(s, CreateRequest(ns, spec)))
  {
  }

  lemma EditUndisturbed(s: Store, id: nat, duration: int)
    requires StoreOk(s)
    ensures Undisturbed(s, Apply(s, EditRequest(id, duration)))
  {
    if id in s.requests {
      var r := s.requests[id];
      var edited := r.(version := s.rev + 1, spec := r.spec.(duration := duration));
      assert Apply(s, EditRequest(id, duration)).requests == s.requests[id := edited];
      assert SameIdentity(r, edited);
    }
  }

  lemma ApplyUndisturbed(s: Store, e: Event)
    requires StoreOk(s)
    ensures Undisturbed(s, Apply(s, e))
  {
    match e
    case DeleteRequest(id) => DeleteUndisturbed(s, id);
    case CreateRequest(ns, spec) => CreateUndisturbed(s, ns, spec);
    case EditRequest(id, duration) => EditUndisturbed(s, id, duration);
    case _ => SameRequestsUndisturbed(s, Apply(s, e));
  }

  lemma UndisturbedRequestOk(s: Store, t: Store, id: nat)
    requires StoreOk(s) && Undisturbed(s, t) && id in t.requests
    ensures t.requests[id].id == id && id < t.next && RequestOk(t, t.requests[id])
  {
    if id in s.requests { assert RequestOk(s, s.requests[id]); }
  }

  lemma UndisturbedOk(s: Store, t: Store)
    requires StoreOk(s) && Undisturbed(s, t)
    requires forall key :: key in t.projects ==> key.name != "" && t.projects[key].version <= t.rev
    ensures StoreOk(t)
  {
    forall id | id in t.requests
      ensures t.requests[id].id == id && id < t.next && RequestOk(t, t.requests[id])
    {
      UndisturbedRequestOk(s, t, id);
    }
  }

  /** Requests are marked for deletion or dropped only with other actors having deleted them. */
  predicate DeletionsNoted(ev: Evidence, s: Store, t: Store) {
    && (forall id :: id in s.requests && id !in t.requests ==> id in ev.deleted)
    && (forall id :: id in s.requests && id in t.requests && t.requests[id].deleting ==>
          s.requests[id].deleting || id in ev.deleted)
  }

  lemma UndisturbedMoves(cfg: Config, ev: Evidence, s: Store, t: Store)
    requires StoreOk(s) && Undisturbed(s, t) && DeletionsNoted(ev, s, t)
    requires ev.clean ==> JoinsExplained(cfg, ev, s, t)
    ensures Moves(cfg, ev, s, t) && Kept(s, t, {})
  {
  }

  lemma ApplyDeletionsNoted(w: World, e: Event)
    ensures DeletionsNoted(EvidenceAfter(w, e), w.store, Apply(w.store, e))
  {
  }

  lemma ApplyProjects(s: Store, e: Event)
    requires StoreOk(s)
    ensures forall key :: key in Apply(s, e).projects ==>
              key.name != "" && Apply(s, e).projects[key].version <= Apply(s, e).rev
  {
  }

  /** A polite event adds no member to an ephemeral role. */
  lemma PoliteMembers(names: map<Ref, string>, s: Store, e: Event, key: Ref, name: string, user: string)
    requires Polite(names, s, e) && Ephemeral(name)
    requires Member(RolesAt(Apply(s, e), key), name, user)
    ensures Member(RolesAt(s, key), name, user)
  {
    if e.SetProject? && e.key == key && key.name != "" {
      var i :| 0 <= i < |e.roles| && e.roles[i].name == name && user in e.roles[i].groups;
      var k :| 0 <= k < |e.roles[i].groups| && e.roles[i].groups[k] == user;
      assert Member(RolesAt(s, key), e.roles[i].name, e.roles[i].groups[k]);
    } else {
      assert RolesAt(Apply(s, e), key) == RolesAt(s, key) || RolesAt(Apply(s, e), key) == [];
    }
  }

  lemma PoliteJoins(w: World, e: Event)
    requires Polite(w.cfg.names, w.store, e)
    ensures JoinsExplained(w.cfg, EvidenceAfter(w, e), w.store, Apply(w.store, e))
  {
    var s, t := w.store, Apply(w.store, e);
    forall key, name, user | Ephemeral(name) && Member(RolesAt(t, key), name, user)
      ensures !Gone(s, key, name, user)
    {
      PoliteMembers(w.cfg.names, s, e, key, name, user);
    }
  }

  lemma UndisturbedBacking(s: Store, t: Store)
    requires StoreOk(s) && Undisturbed(s, t)
    ensures forall id, key, name, user :: Backs(s, id, key, name, user) ==> Backs(t, id, key, name, user)
  {
  }

  lemma ApplyClean(names: map<Ref, string>, s: Store, e: Event)
    requires StoreOk(s) && CleanOk(names, s) && Polite(names, s, e)
    ensures CleanOk(names, Apply(s, e))
  {
    var t := Apply(s, e);
    ApplyUndisturbed(s, e);
    UndisturbedBacking(s, t);
    forall key, name, user | Ephemeral(name) && Member(RolesAt(t, key), name, user)
      ensures Member(RolesAt(s, key), name, user)
    {
      PoliteMembers(names, s, e, key, name, user);
    }
    BackingKept(s, t);
    forall id | id in t.requests ensures NamedRole(names, t.requests[id]) {
      if id in s.requests { assert NamedRole(names, s.requests[id]); }
    }
    forall ref | ref in t.templates
      ensures t.templates[ref].ref == ref && ref in names && names[ref] == t.templates[ref].name
    {
      if !(e.SetTemplate? && e.template.ref == ref) { assert ref in s.templates; }
    }
  }

  lemma ApplyFine(w: World, e: Event)
    requires Sound(w)
    ensures Fine(w.cfg, EvidenceAfter(w, e), Apply(w.store, e))
  {
    StoreFine(w);
    var s, t := w.store, Apply(w.store, e);
    ApplyUndisturbed(s, e);
    ApplyProjects(s, e);
    UndisturbedOk(s, t);
    if EvidenceAfter(w, e).clean { ApplyClean(w.cfg.names, s, e); }
  }

  lemma FineWeaken(cfg: Config, a: Evidence, b: Evidence, s: Store)
    requires Fine(cfg, a, s) && Weaker(a, b)
    ensures Fine(cfg, b, s)
  {
  }

  lemma JoinsWeaken(cfg: Config, a: Evidence, b: Evidence, s: Store, t: Store)
    requires JoinsExplained(cfg, a, s, t) && Weaker(a, b)
    ensures JoinsExplained(cfg, b, s, t)
  {
    forall key, name, user | Ephemeral(name) && Member(RolesAt(t, key), name, user) && Gone(s, key, name, user)
      ensures exists id :: Joins(cfg, b, t, id, key, name, user)
    {
      var id :| Joins(cfg, a, t, id, key, name, user);
      assert Joins(cfg, b, t, id, key, name, user);
    }
  }

  lemma MovesWeaken(cfg: Config, a: Evidence, b: Evidence, s: Store, t: Store)
    requires Moves(cfg, a, s, t) && Weaker(a, b)
    ensures Moves(cfg, b, s, t)
  {
    if b.clean { JoinsWeaken(cfg, a, b, s, t); }
  }

  lemma SoundWeaken(w: World, ev: Evidence)
    requires Sound(w) && Weaker(w.ev, ev)
    ensures Sound(w.(ev := ev)) && Continues(w, w.(ev := ev), {})
  {
    var x := w.(ev := ev);
    forall i | 0 <= i < |x.trail| ensures Fine(x.cfg, x.ev, x.trail[i]) {
      FineWeaken(w.cfg, w.ev, ev, w.trail[i]);
    }
    forall i | 0 < i < |x.trail| ensures MoveAt(x.cfg, x.ev, x.trail, i) {
      assert MoveAt(w.cfg, w.ev, w.trail, i);
      MovesWeaken(w.cfg, w.ev, ev, w.trail[i - 1], w.trail[i]);
    }
    StoreFine(w);
  }

  lemma EventSound(w: World, e: Event)
    requires Sound(w)
    ensures Sound(After(w, e)) && Continues(w, After(w, e), {})
  {
    var ev := EvidenceAfter(w, e);
    SoundWeaken(w, ev);
    ApplyFine(w, e);
    StoreFine(w);
    ApplyUndisturbed(w.store, e);
    ApplyDeletionsNoted(w, e);
    if ev.clean { PoliteJoins(w, e); }
    UndisturbedMoves(w.cfg, ev, w.store, Apply(w.store, e));
    CommitSound(w.(ev := ev), Apply(w.store, e), {});
    ContinuesCompose(w, w.(ev := ev), After(w, e), {});
  }

  lemma EventKeepsLoaded(w: World, e: Event, ar: Request)
    requires Sound(w) && Loaded(w.store, ar)
    ensures Loaded(After(w, e).store, ar)
  {
    StoreFine(w);
    ApplyUndisturbed(w.store, e);
  }

  lemma EventKeepsGone(w: World, e: Event, key: Ref, name: string, user: string)
    requires Gone(w.store, key, name, user) && Ephemeral(name) && After(w, e).ev.clean
    ensures Gone(After(w, e).store, key, name, user)
  {
    if Member(RolesAt(After(w, e).store, key), name, user) {
      PoliteMembers(w.cfg.names, w.store, e, key, name, user);
    }
  }

  /** A project read as `p`: while its version stays, so do its roles. */
  predicate Seen(s: Store, key: Ref, p: Project) {
    p.version <= s.rev && (key in s.projects && s.projects[key].version == p.version ==> s.projects[key] == p)
  }

  lemma EventKeepsSeen(s: Store, e: Event, key: Ref, p: Project)
    requires Seen(s, key, p)
    ensures Seen(Apply(s, e), key, p)
  {
  }

  // ---------------------------------------------------------------- any number of events

  lemma {:induction false} InterfereKeepsSeen(w: World, events: seq<Event>, key: Ref, p: Project)
    requires Seen(w.store, key, p)
    ensures Seen(Interfere(w, events).store, key, p)
    decreases |events|
  {
    if events != [] {
      EventKeepsSeen(w.store, events[0], key, p);
      InterfereKeepsSeen(After(w, events[0]), events[1..], key, p);
    }
  }

  lemma {:induction false} InterfereSound(w: World, events: seq<Event>)
    requires Sound(w)
    ensures Sound(Interfere(w, events)) && Continues(w, Interfere(w, events), {})
    decreases |events|
  {
    if events == [] {
      SoundWeaken(w, w.ev);
      assert w.(ev := w.ev) == w;
    } else {
      EventSound(w, events[0]);
      InterfereSound(After(w, events[0]), events[1..]);
      ContinuesCompose(w, After(w, events[0]), Interfere(w, events), {});
    }
  }

  lemma {:induction false} InterfereKeepsLoaded(w: World, events: seq<Event>, ar: Request)
    requires Sound(w) && Loaded(w.store, ar)
    ensures Loaded(Interfere(w, events).store, ar)
    decreases |events|
  {
    if events != [] {
      EventSound(w, events[0]);
      EventKeepsLoaded(w, events[0], ar);
      InterfereKeepsLoaded(After(w, events[0]), events[1..], ar);
    }
  }

  lemma {:induction false} InterfereKeepsGone(w: World, events: seq<Event>, key: Ref, name: string, user: string)
    requires Sound(w) && Gone(w.store, key, name, user) && Ephemeral(name) && Interfere(w, events).ev.clean
    ensures Gone(Interfere(w, events).store, key, name, user)
    decreases |events|
  {
    if events != [] {
      EventSound(w, events[0]);
      InterfereSound(After(w, events[0]), events[1..]);
      EventKeepsGone(w, events[0], key, name, user);
      InterfereKeepsGone(After(w, events[0]), events[1..], key, name, user);
    }
  }

  /** Taking a turn keeps the run sound, the copy loaded and a removed user away. */
  lemma PauseSound(w: World)
    requires Sound(w)
    ensures Sound(Pause(w).0) && Continues(w, Pause(w).0, {})
    ensures forall ar :: Loaded(w.store, ar) ==> Loaded(Pause(w).0.store, ar)
    ensures forall key, name, user :: Pause(w).0.ev.clean && Ephemeral(name) && Gone(w.store, key, name, user) ==>
              Gone(Pause(w).0.store, key, name, user)
    ensures forall key, p :: Seen(w.store, key, p) ==> Seen(Pause(w).0.store, key, p)
  {
    if w.script == [] {
      SoundWeaken(w, w.ev);
      assert w.(ev := w.ev) == w;
    } else {
      var x, events := w.(script := w.script[1..]), w.script[0].events;
      assert Sound(x);
      InterfereSound(x, events);
      forall ar | Loaded(w.store, ar) ensures Loaded(Pause(w).0.store, ar) {
        InterfereKeepsLoaded(x, events, ar);
      }
      forall key, name, user | Pause(w).0.ev.clean && Ephemeral(name) && Gone(w.store, key, name, user)
        ensures Gone(Pause(w).0.store, key, name, user)
      {
        InterfereKeepsGone(x, events, key, name, user);
      }
      forall key, p | Seen(w.store, key, p) ensures Seen(Pause(w).0.store, key, p) {
        InterfereKeepsSeen(x, events, key, p);
      }
    }
  }
}
