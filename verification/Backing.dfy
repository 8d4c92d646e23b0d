/** Who stands behind every membership: along a run whose other actors add nobody, a request
    keeps backing the member it brought in until the member has left. */
module Backing {
  import opened Prelude
  import opened Roles
  import opened Requests
  import opened Cluster
  import opened Safety
  import opened Runs

  /** A member of a role in a store of the trail. */
  predicate MemberAt(trail: seq<Store>, i: nat, key: Ref, name: string, user: string) {
    i < |trail| && Member(RolesAt(trail[i], key), name, user)
  }

  /** At store `k` the user is in the role, and was not before, with request `id` not yet granted. */
  predicate JoinedAt(trail: seq<Store>, k: nat, id: nat, key: Ref, name: string, user: string) {
    && 0 < k && !MemberAt(trail, k - 1, key, name, user) && MemberAt(trail, k, key, name, user)
    && Alive(trail, k, id) && StatusAt(trail, k, id).state in {Initiated, Requested, Invalid}
  }

  predicate NeverGranted(trail: seq<Store>, k: nat, i: nat, id: nat) {
    forall l :: k <= l <= i ==> Alive(trail, l, id) && StatusAt(trail, l, id).state != Granted
  }

  /** The grant of request `id` brought the user into the role at some store, and has not been
      recorded in any store since. */
  ghost predicate Unrecorded(trail: seq<Store>, i: nat, id: nat, key: Ref, name: string, user: string) {
    exists k :: 0 < k <= i && JoinedAt(trail, k, id, key, name, user) && NeverGranted(trail, k, i, id)
  }

  predicate OverruledAt(trail: seq<Store>, ev: Evidence, k: nat, id: nat) {
    && 0 < k && Alive(trail, k - 1, id) && Alive(trail, k, id)
    && StatusAt(trail, k - 1, id).state == Granted && StatusAt(trail, k, id).state == Invalid
    && Excused(ev, trail[k - 1].requests[id])
  }

  /** The request was granted, was then made invalid because that version of it was found in conflict
      or with an empty project, and has not been granted again in any store since. */
  ghost predicate Overruled(trail: seq<Store>, ev: Evidence, i: nat, id: nat) {
    exists k :: 0 < k <= i && OverruledAt(trail, ev, k, id) && NeverGranted(trail, k, i, id)
  }

  /** Request `id` backs the member and is granted, or its grant was overruled, or is not recorded. */
  ghost predicate Explained(trail: seq<Store>, ev: Evidence, i: nat, id: nat, key: Ref, name: string, user: string) {
    && i < |trail| && Backs(trail[i], id, key, name, user)
    && (|| StatusAt(trail, i, id).state == Granted
        || Overruled(trail, ev, i, id)
        || Unrecorded(trail, i, id, key, name, user))
  }

  // ---------------------------------------------------------------- one step

  lemma NamelessHasNoMembers(s: Store, key: Ref, name: string, user: string)
    requires StoreOk(s) && Member(RolesAt(s, key), name, user)
    ensures key.name != ""
  {
  }

  /** As long as the user is a member, the request that backs the member goes on backing it. */
  lemma StepKeepsBacking(cfg: Config, ev: Evidence, s: Store, t: Store, id: nat, key: Ref, name: string, user: string)
    requires StoreOk(s) && StoreOk(t) && Moves(cfg, ev, s, t) && ev.clean
    requires Backs(s, id, key, name, user) && Member(RolesAt(t, key), name, user)
    ensures Backs(t, id, key, name, user)
  {
    NamelessHasNoMembers(t, key, name, user);
    var a := s.requests[id];
    assert !Released(t, a);
    var b := t.requests[id];
    assert RequestMoves(cfg, ev, s, t, a, b);
  }

  /** A granted request that still has its member stays granted, or is excused and made invalid. */
  lemma StepKeepsGranted(cfg: Config, ev: Evidence, s: Store, t: Store, id: nat, key: Ref, name: string, user: string)
    requires Moves(cfg, ev, s, t) && ev.clean
    requires Backs(s, id, key, name, user) && Backs(t, id, key, name, user) && Member(RolesAt(t, key), name, user)
    requires s.requests[id].id == id && s.requests[id].status.state == Granted
    ensures t.requests[id].status.state == Granted
         || (t.requests[id].status.state == Invalid && Excused(ev, s.requests[id]))
  {
    assert RequestMoves(cfg, ev, s, t, s.requests[id], t.requests[id]);
  }

  lemma NeverGrantedExtends(trail: seq<Store>, k: nat, i: nat, id: nat)
    requires k < i && NeverGranted(trail, k, i - 1, id) && Alive(trail, i, id)
    requires StatusAt(trail, i, id).state != Granted
    ensures NeverGranted(trail, k, i, id)
  {
  }

  lemma UnrecordedExtends(trail: seq<Store>, i: nat, id: nat, key: Ref, name: string, user: string)
    requires 0 < i && Unrecorded(trail, i - 1, id, key, name, user) && Alive(trail, i, id)
    requires StatusAt(trail, i, id).state != Granted
    ensures Unrecorded(trail, i, id, key, name, user)
  {
    var k :| 0 < k <= i - 1 && JoinedAt(trail, k, id, key, name, user) && NeverGranted(trail, k, i - 1, id);
    NeverGrantedExtends(trail, k, i, id);
  }

  lemma OverruledExtends(trail: seq<Store>, ev: Evidence, i: nat, id: nat)
    requires 0 < i && Overruled(trail, ev, i - 1, id) && Alive(trail, i, id)
    requires StatusAt(trail, i, id).state != Granted
    ensures Overruled(trail, ev, i, id)
  {
    var k :| 0 < k <= i - 1 && OverruledAt(trail, ev, k, id) && NeverGranted(trail, k, i - 1, id);
    NeverGrantedExtends(trail, k, i, id);
  }

  lemma OverruledHere(trail: seq<Store>, ev: Evidence, i: nat, id: nat)
    requires OverruledAt(trail, ev, i, id)
    ensures Overruled(trail, ev, i, id)
  {
    assert NeverGranted(trail, i, i, id);
  }

  lemma JoinIsUnrecorded(trail: seq<Store>, i: nat, id: nat, key: Ref, name: string, user: string)
    requires JoinedAt(trail, i, id, key, name, user)
    ensures Unrecorded(trail, i, id, key, name, user)
  {
    assert NeverGranted(trail, i, i, id);
  }

  lemma OneMove(w: World, i: nat)
    requires Sound(w) && 0 < i < |w.trail|
    ensures MoveAt(w.cfg, w.ev, w.trail, i)
    ensures StoreOk(w.trail[i - 1]) && StoreOk(w.trail[i])
  {
    assert Fine(w.cfg, w.ev, w.trail[i - 1]) && Fine(w.cfg, w.ev, w.trail[i]);
  }

  lemma StaysExplained(w: World, i: nat, id: nat, key: Ref, name: string, user: string)
    requires Sound(w) && w.ev.clean && 0 < i && MemberAt(w.trail, i, key, name, user)
    requires Explained(w.trail, w.ev, i - 1, id, key, name, user)
    ensures Explained(w.trail, w.ev, i, id, key, name, user)
  {
    OneMove(w, i);
    var s, t := w.trail[i - 1], w.trail[i];
    StepKeepsBacking(w.cfg, w.ev, s, t, id, key, name, user);
    if t.requests[id].status.state == Granted {
    } else if s.requests[id].status.state == Granted {
      StepKeepsGranted(w.cfg, w.ev, s, t, id, key, name, user);
      OverruledHere(w.trail, w.ev, i, id);
    } else if Overruled(w.trail, w.ev, i - 1, id) {
      OverruledExtends(w.trail, w.ev, i, id);
    } else {
      UnrecordedExtends(w.trail, i, id, key, name, user);
    }
  }

  lemma JoinExplained(w: World, i: nat, key: Ref, name: string, user: string) returns (id: nat)
    requires Sound(w) && w.ev.clean && w.trail[0].requests == map[] && Ephemeral(name)
    requires 0 < i && !MemberAt(w.trail, i - 1, key, name, user) && MemberAt(w.trail, i, key, name, user)
    ensures Explained(w.trail, w.ev, i, id, key, name, user) && Approved(w.cfg, w.ev, id)
  {
    OneMove(w, i);
    assert Gone(w.trail[i - 1], key, name, user);
    id :| Joins(w.cfg, w.ev, w.trail[i], id, key, name, user);
    var state := StatusAt(w.trail, i, id).state;
    if state == Granted {
      GrantedIsApproved(w, i, id);
    } else {
      JoinIsUnrecorded(w.trail, i, id, key, name, user);
    }
  }

  lemma NobodyAtStart(w: World, key: Ref, name: string, user: string)
    requires Sound(w) && w.ev.clean && w.trail[0].requests == map[] && Ephemeral(name)
    ensures !MemberAt(w.trail, 0, key, name, user)
  {
    assert Fine(w.cfg, w.ev, w.trail[0]);
    assert forall id :: !Backs(w.trail[0], id, key, name, user);
  }

  /** A member, if it is one, is explained by some request, and that request was approved. */
  ghost predicate Accounted(w: World, i: nat, key: Ref, name: string, user: string) {
    MemberAt(w.trail, i, key, name, user) ==>
      exists id :: Explained(w.trail, w.ev, i, id, key, name, user) && Approved(w.cfg, w.ev, id)
  }

  lemma NextAccounted(w: World, i: nat, key: Ref, name: string, user: string)
    requires Sound(w) && w.ev.clean && w.trail[0].requests == map[] && Ephemeral(name)
    requires 0 < i && Accounted(w, i - 1, key, name, user)
    ensures Accounted(w, i, key, name, user)
  {
    if MemberAt(w.trail, i, key, name, user) {
      if MemberAt(w.trail, i - 1, key, name, user) {
        var id :| Explained(w.trail, w.ev, i - 1, id, key, name, user) && Approved(w.cfg, w.ev, id);
        StaysExplained(w, i, id, key, name, user);
      } else {
        var id := JoinExplained(w, i, key, name, user);
      }
    }
  }

  lemma {:induction false} MemberAccounted(w: World, i: nat, key: Ref, name: string, user: string)
    requires Sound(w) && w.ev.clean && w.trail[0].requests == map[] && Ephemeral(name)
    ensures Accounted(w, i, key, name, user)
    decreases i
  {
    if i == 0 {
      NobodyAtStart(w, key, name, user);
    } else {
      MemberAccounted(w, i - 1, key, name, user);
      NextAccounted(w, i, key, name, user);
    }
  }

  // ---------------------------------------------------------------- every member

  /** In every store of every run whose other actors add nobody, whatever calls fail and whatever
      answers are lost: each member of an ephemeral role is backed by a request that the plugin, if
      there is one, gave leave to grant, and that is granted, or whose grant was overruled by a
      conflict or an empty project and not renewed since, or whose grant brought the user in and has
      not been recorded since. */
  lemma EveryMemberIsApproved(w: World, ops: seq<Op>, i: nat, key: Ref, name: string, user: string)
    requires Initial(w) && Run(w, ops).ev.clean && Ephemeral(name)
    requires MemberAt(Run(w, ops).trail, i, key, name, user)
    ensures var x := Run(w, ops);
      exists id :: Explained(x.trail, x.ev, i, id, key, name, user) && Approved(x.cfg, x.ev, id)
  {
    InitialSound(w);
    RunSound(w, ops);
    var x := Run(w, ops);
    assert x.trail[0] == w.trail[0];
    MemberAccounted(x, i, key, name, user);
  }
}
