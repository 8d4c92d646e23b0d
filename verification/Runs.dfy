/** The theorems about whole runs: any number of requests and reconciliations in any order, any
    actions of other actors between and inside them, any API call failing, any plugin answer. */
module Runs {
  import opened Prelude
  import opened Roles
  import opened Requests
  import opened Cluster
  import opened Safety
  import opened Outside
  import opened ReconcileSafety

  /** One reconciliation with the turns its calls take, or other actors acting alone. */
  datatype Op = Visit(id: nat, turns: seq<Turn>) | Act(events: seq<Event>)

  function Perform(w: World, op: Op): World {
    match op
    case Visit(id, turns) => Reconcile.Reconcile(w.(script := turns), id).w
    case Act(events) => Interfere(w, events)
  }

  function Run(w: World, ops: seq<Op>): World
    decreases |ops|
  {
    if ops == [] then w else Run(Perform(w, ops[0]), ops[1..])
  }

  /** Before the controller has done anything: no request, templates under their role names, no
      member of an ephemeral role. */
  ghost predicate Initial(w: World) {
    && w.trail == [w.store] && w.store.requests == map[] && w.ev == NO_EVIDENCE
    && (forall key :: key in w.store.projects ==> key.name != "" && w.store.projects[key].version <= w.store.rev)
    && (forall ref :: ref in w.store.templates ==>
          w.store.templates[ref].ref == ref && ref in w.cfg.names && w.cfg.names[ref] == w.store.templates[ref].name)
    && (forall key, name, user :: key in w.store.projects && Ephemeral(name) ==>
          !Member(w.store.projects[key].roles, name, user))
  }

  lemma InitialSound(w: World)
    requires Initial(w)
    ensures Sound(w)
  {
    assert Fine(w.cfg, w.ev, w.store);
  }

  function Visited(op: Op): set<nat> {
    if op.Visit? then {op.id} else {}
  }

  function AllVisited(ops: seq<Op>): set<nat> {
    if ops == [] then {} else Visited(ops[0]) + AllVisited(ops[1..])
  }

  /** The request is concluded, or no longer stored. */
  ghost predicate Settled(w: World, id: nat) {
    id < w.store.next && (id in w.store.requests ==> Concluded(w.store.requests[id].status.state))
  }

  lemma AbsentKept(s: Store, t: Store, id: nat)
    requires Kept(s, t, {id}) && id !in s.requests && id < s.next
    ensures Kept(s, t, {})
  {
  }

  lemma AbsentContinues(w: World, x: World, id: nat)
    requires Continues(w, x, {id}) && id !in w.store.requests && id < w.store.next
    ensures Continues(w, x, {})
  {
    AbsentKept(w.store, x.store, id);
    forall k | |w.trail| <= k < |x.trail| ensures Kept(w.store, x.trail[k], {}) {
      AbsentKept(w.store, x.trail[k], id);
    }
  }

  lemma VisitSound(w: World, id: nat)
    requires Sound(w)
    ensures var y := Reconcile.Reconcile(w, id).w;
      Sound(y) && Continues(w, y, {id}) && (Settled(w, id) ==> Continues(w, y, {}))
  {
    ReconcileSound(w, id);
    if Settled(w, id) && id !in w.store.requests { AbsentContinues(w, Reconcile.Reconcile(w, id).w, id); }
  }

  lemma FromScript(w: World, turns: seq<Turn>, y: World, ids: set<nat>)
    requires Continues(w.(script := turns), y, ids)
    ensures Continues(w, y, ids)
  {
  }

  lemma PerformSound(w: World, op: Op)
    requires Sound(w)
    ensures Sound(Perform(w, op)) && Continues(w, Perform(w, op), Visited(op))
  {
    match op
    case Visit(id, turns) =>
      VisitSound(w.(script := turns), id);
      FromScript(w, turns, Perform(w, op), {id});
    case Act(events) => InterfereSound(w, events);
  }

  lemma PerformSettled(w: World, op: Op, id: nat)
    requires Sound(w) && Settled(w, id)
    ensures Continues(w, Perform(w, op), Visited(op) - {id})
  {
    match op
    case Visit(i, turns) =>
      assert Visited(op) - {id} == if i == id then {} else {i};
      VisitSound(w.(script := turns), i);
      if i == id {
        FromScript(w, turns, Perform(w, op), {});
      } else {
        FromScript(w, turns, Perform(w, op), {i});
      }
    case Act(events) =>
      assert Visited(op) - {id} == {};
      InterfereSound(w, events);
  }

  lemma {:induction false} RunSound(w: World, ops: seq<Op>)
    requires Sound(w)
    ensures Sound(Run(w, ops)) && w.trail <= Run(w, ops).trail
    decreases |ops|
  {
    if ops != [] {
      PerformSound(w, ops[0]);
      RunSound(Perform(w, ops[0]), ops[1..]);
    }
  }

  // ---------------------------------------------------------------- no orphan membership

  /** In every store of every run: each member of an ephemeral role is backed by a stored request
      with the finalizer, that target project, role name and user, neither uninitialised nor
      expired, as long as nobody else has added to such a role or renamed a template. */
  lemma NoOrphanMembership(w: World, ops: seq<Op>)
    requires Initial(w) && Run(w, ops).ev.clean
    ensures forall i :: 0 <= i < |Run(w, ops).trail| ==> NoOrphan(Run(w, ops).trail[i])
  {
    InitialSound(w);
    RunSound(w, ops);
    var x := Run(w, ops);
    forall i | 0 <= i < |x.trail| ensures NoOrphan(x.trail[i]) {
      assert Fine(x.cfg, x.ev, x.trail[i]);
    }
  }

  // ---------------------------------------------------------------- along the trail

  predicate Alive(trail: seq<Store>, i: nat, id: nat) {
    i < |trail| && id in trail[i].requests
  }

  function StatusAt(trail: seq<Store>, i: nat, id: nat): Status
    requires Alive(trail, i, id)
  {
    trail[i].requests[id].status
  }

  lemma {:induction false} NextGrows(w: World, i: nat, j: nat)
    requires Sound(w) && i <= j < |w.trail|
    ensures w.trail[i].next <= w.trail[j].next
    decreases j
  {
    if i < j {
      assert MoveAt(w.cfg, w.ev, w.trail, j);
      NextGrows(w, i, j - 1);
    }
  }

  lemma StoredBefore(w: World, i: nat, j: nat, id: nat)
    requires Sound(w) && i < j && Alive(w.trail, i, id) && Alive(w.trail, j, id)
    ensures Alive(w.trail, j - 1, id)
  {
    assert MoveAt(w.cfg, w.ev, w.trail, j);
    NextGrows(w, i, j - 1);
    assert Fine(w.cfg, w.ev, w.trail[i]);
  }

  lemma OneStep(w: World, j: nat, id: nat)
    requires Sound(w) && 0 < j && Alive(w.trail, j - 1, id) && Alive(w.trail, j, id)
    ensures var a, b := StatusAt(w.trail, j - 1, id), StatusAt(w.trail, j, id);
      && StatusStep(a, b, w.trail[j - 1].requests[id].spec.duration)
      && (id !in w.ev.conflicted ==> a == b || DagEdge(a.state, b.state))
      && StatusOk(a, w.trail[j - 1].now) && StatusOk(b, w.trail[j].now)
  {
    assert MoveAt(w.cfg, w.ev, w.trail, j);
    assert Fine(w.cfg, w.ev, w.trail[j]) && Fine(w.cfg, w.ev, w.trail[j - 1]);
    assert RequestOk(w.trail[j], w.trail[j].requests[id]);
    assert RequestOk(w.trail[j - 1], w.trail[j - 1].requests[id]);
  }

  /** Once initialised, a request keeps its target project and its role name. */
  predicate SameAssignment(trail: seq<Store>, i: nat, j: nat, id: nat) {
    && Alive(trail, i, id) && Alive(trail, j, id)
    && StatusAt(trail, i, id).state != Empty && StatusAt(trail, j, id).state != Empty
    && StatusAt(trail, j, id).target == StatusAt(trail, i, id).target
    && StatusAt(trail, j, id).roleName == StatusAt(trail, i, id).roleName
  }

  lemma SameAssignmentNext(w: World, i: nat, j: nat, id: nat)
    requires Sound(w) && 0 < j && SameAssignment(w.trail, i, j - 1, id) && Alive(w.trail, j, id)
    ensures SameAssignment(w.trail, i, j, id)
  {
    OneStep(w, j, id);
  }

  lemma {:induction false} AssignmentStays(w: World, i: nat, j: nat, id: nat)
    requires Sound(w) && i <= j && Alive(w.trail, i, id) && Alive(w.trail, j, id)
    requires StatusAt(w.trail, i, id).state != Empty
    ensures SameAssignment(w.trail, i, j, id)
    decreases j
  {
    if i < j {
      StoredBefore(w, i, j, id);
      AssignmentStays(w, i, j - 1, id);
      SameAssignmentNext(w, i, j, id);
    }
  }

  /** The same from the end of one stretch of a run to the end of the next. */
  lemma AssignmentKept(w: World, x: World, ids: set<nat>, id: nat)
    requires Sound(w) && Sound(x) && Continues(w, x, ids) && id in w.store.requests && id in x.store.requests
    requires w.store.requests[id].status.state != Empty
    ensures SameIdentity(w.store.requests[id], x.store.requests[id])
    ensures x.store.requests[id].status.state != Empty
    ensures x.store.requests[id].status.target == w.store.requests[id].status.target
    ensures x.store.requests[id].status.roleName == w.store.requests[id].status.roleName
  {
    var i, j := |w.trail| - 1, |x.trail| - 1;
    assert x.trail[i] == w.store && x.trail[j] == x.store;
    AssignmentStays(x, i, j, id);
  }

  // ---------------------------------------------------------------- expiry

  lemma StepKeepsExpiry(a: Status, b: Status, duration: int)
    requires StatusStep(a, b, duration) && a.expiresAt.Some?
    ensures b.expiresAt == a.expiresAt
  {
  }

  lemma ExpiryStays(w: World, j: nat, id: nat)
    requires Sound(w) && 0 < j && Alive(w.trail, j - 1, id) && Alive(w.trail, j, id)
    requires StatusAt(w.trail, j - 1, id).expiresAt.Some?
    ensures StatusAt(w.trail, j, id).expiresAt == StatusAt(w.trail, j - 1, id).expiresAt
  {
    OneStep(w, j, id);
    StepKeepsExpiry(StatusAt(w.trail, j - 1, id), StatusAt(w.trail, j, id), w.trail[j - 1].requests[id].spec.duration);
  }

  /** The request is stored in both stores with the same ExpiresAt, which is set. */
  predicate SameExpiry(trail: seq<Store>, i: nat, j: nat, id: nat) {
    && Alive(trail, i, id) && Alive(trail, j, id)
    && StatusAt(trail, i, id).expiresAt.Some?
    && StatusAt(trail, j, id).expiresAt == StatusAt(trail, i, id).expiresAt
  }

  lemma SameExpiryNext(w: World, i: nat, j: nat, id: nat)
    requires Sound(w) && 0 < j && SameExpiry(w.trail, i, j - 1, id) && Alive(w.trail, j, id)
    ensures SameExpiry(w.trail, i, j, id)
  {
    ExpiryStays(w, j, id);
  }

  /** Once set, ExpiresAt never changes. */
  lemma {:induction false} ExpiryIsNeverExtended(w: World, i: nat, j: nat, id: nat)
    requires Sound(w) && i <= j && Alive(w.trail, i, id) && Alive(w.trail, j, id)
    requires StatusAt(w.trail, i, id).expiresAt.Some?
    ensures SameExpiry(w.trail, i, j, id)
    decreases j
  {
    if i < j {
      StoredBefore(w, i, j, id);
      ExpiryIsNeverExtended(w, i, j - 1, id);
      SameExpiryNext(w, i, j, id);
    }
  }

  /** ExpiresAt is set only by a grant, and a granted or expired request has it. */
  predicate SetByGrant(a: Status, b: Status, duration: int, now: int) {
    && (a.expiresAt.None? && b.expiresAt.Some? ==>
          && b.state == Granted && b.history != [] && Last(b.history).time <= now
          && b.expiresAt == Some(Last(b.history).time + duration))
    && (b.state in {Granted, Expired} ==> b.expiresAt.Some?)
  }

  lemma StepSetsExpiry(a: Status, b: Status, duration: int, now: int)
    requires StatusStep(a, b, duration) && StatusOk(b, now)
    ensures SetByGrant(a, b, duration, now)
  {
  }

  /** ExpiresAt is set when the request becomes granted, to the time recorded for that grant plus
      the requested duration; a granted or expired request always has it. */
  lemma ExpiryIsSetByTheGrant(w: World, j: nat, id: nat)
    requires Sound(w) && 0 < j && Alive(w.trail, j - 1, id) && Alive(w.trail, j, id)
    ensures SetByGrant(StatusAt(w.trail, j - 1, id), StatusAt(w.trail, j, id),
                       w.trail[j - 1].requests[id].spec.duration, w.trail[j].now)
  {
    OneStep(w, j, id);
    StepSetsExpiry(StatusAt(w.trail, j - 1, id), StatusAt(w.trail, j, id),
                   w.trail[j - 1].requests[id].spec.duration, w.trail[j].now);
  }

  /** In every store of every run from the start, an expired request was recorded so after its
      ExpiresAt, and not before that. */
  lemma ExpiresInTime(w: World, ops: seq<Op>, j: nat, id: nat)
    requires Initial(w) && Alive(Run(w, ops).trail, j, id)
    requires StatusAt(Run(w, ops).trail, j, id).state == Expired
    ensures var x := Run(w, ops);
      var status := StatusAt(x.trail, j, id);
      && status.expiresAt.Some? && status.history != []
      && status.expiresAt.value < status.history[|status.history| - 1].time <= x.trail[j].now
  {
    InitialSound(w);
    RunSound(w, ops);
    var x := Run(w, ops);
    assert Fine(x.cfg, x.ev, x.trail[j]);
    assert RequestOk(x.trail[j], x.trail[j].requests[id]);
  }

  lemma StepIsLate(w: World, j: nat, id: nat)
    requires Sound(w) && 0 < j && Alive(w.trail, j - 1, id) && Alive(w.trail, j, id)
    requires StatusAt(w.trail, j - 1, id).state != Timeout && StatusAt(w.trail, j, id).state == Timeout
    ensures var a, b := StatusAt(w.trail, j - 1, id), StatusAt(w.trail, j, id);
      b.history != [] && Late(w.cfg, a, Last(b.history).time)
  {
    assert MoveAt(w.cfg, w.ev, w.trail, j);
    assert RequestMoves(w.cfg, w.ev, w.trail[j - 1], w.trail[j], w.trail[j - 1].requests[id], w.trail[j].requests[id]);
    assert Fine(w.cfg, w.ev, w.trail[j - 1]);
  }

  /** In every run from the start, the step that times a request out comes later than the configured
      timeout after the last entry of its history. */
  lemma TimesOutInTime(w: World, ops: seq<Op>, j: nat, id: nat)
    requires Initial(w) && 0 < j && Alive(Run(w, ops).trail, j - 1, id) && Alive(Run(w, ops).trail, j, id)
    requires StatusAt(Run(w, ops).trail, j - 1, id).state != Timeout
    requires StatusAt(Run(w, ops).trail, j, id).state == Timeout
    ensures var x := Run(w, ops);
      var a, b := StatusAt(x.trail, j - 1, id).history, StatusAt(x.trail, j, id).history;
      && a != [] && b != [] && x.cfg.timeout != 0
      && a[|a| - 1].time + x.cfg.timeout < b[|b| - 1].time <= x.trail[j].now
  {
    InitialSound(w);
    RunSound(w, ops);
    var x := Run(w, ops);
    StepIsLate(x, j, id);
    assert Fine(x.cfg, x.ev, x.trail[j]);
    assert RequestOk(x.trail[j], x.trail[j].requests[id]);
  }

  // ---------------------------------------------------------------- revocation

  /** A request becomes expired only when its user is already out of the role it was granted. */
  lemma ExpiredAfterRemoval(w: World, j: nat, id: nat)
    requires Sound(w) && w.ev.clean && 0 < j && Alive(w.trail, j - 1, id) && Alive(w.trail, j, id)
    requires StatusAt(w.trail, j, id).state == Expired && StatusAt(w.trail, j - 1, id).state != Expired
    ensures Removed(w.trail[j], w.trail[j].requests[id])
  {
    assert MoveAt(w.cfg, w.ev, w.trail, j);
  }

  lemma GrantEndsRemoved(w: World, j: nat, id: nat)
    requires Sound(w) && w.ev.clean && 0 < j && Alive(w.trail, j - 1, id) && Alive(w.trail, j, id)
    requires StatusAt(w.trail, j - 1, id).state == Granted && Concluded(StatusAt(w.trail, j, id).state)
    ensures StatusAt(w.trail, j, id).state in {Expired, Invalid}
    ensures Removed(w.trail[j], w.trail[j].requests[id])
         || (StatusAt(w.trail, j, id).state == Invalid && Excused(w.ev, w.trail[j - 1].requests[id]))
  {
    assert MoveAt(w.cfg, w.ev, w.trail, j);
    assert Fine(w.cfg, w.ev, w.trail[j - 1]);
    assert RequestMoves(w.cfg, w.ev, w.trail[j - 1], w.trail[j], w.trail[j - 1].requests[id], w.trail[j].requests[id]);
  }

  /** In every clean run, whatever calls fail and whatever answers are lost, the step that concludes
      a granted request leaves its user out of the role it was granted, unless that very version of
      the request was found in conflict or its application read with an empty project for it, and then
      it is made invalid. */
  lemma EveryConclusionRevokes(w: World, ops: seq<Op>, j: nat, id: nat)
    requires Initial(w) && Run(w, ops).ev.clean
    requires 0 < j && Alive(Run(w, ops).trail, j - 1, id) && Alive(Run(w, ops).trail, j, id)
    requires StatusAt(Run(w, ops).trail, j - 1, id).state == Granted
    requires Concluded(StatusAt(Run(w, ops).trail, j, id).state)
    ensures var x := Run(w, ops);
      || Removed(x.trail[j], x.trail[j].requests[id])
      || (StatusAt(x.trail, j, id).state == Invalid && Excused(x.ev, x.trail[j - 1].requests[id]))
  {
    InitialSound(w);
    RunSound(w, ops);
    GrantEndsRemoved(Run(w, ops), j, id);
  }

  // ---------------------------------------------------------------- deletion

  lemma MarkedWhenOverdue(w: World, j: nat, id: nat)
    requires Sound(w) && id !in w.ev.deleted && 0 < j && Alive(w.trail, j - 1, id)
    requires j < |w.trail| && !w.trail[j - 1].requests[id].deleting
    ensures Alive(w.trail, j, id)
    ensures w.trail[j].requests[id].deleting ==> Overdue(w.cfg, StatusAt(w.trail, j - 1, id), w.trail[j - 1].now)
  {
    assert MoveAt(w.cfg, w.ev, w.trail, j);
    assert Fine(w.cfg, w.ev, w.trail[j - 1]);
  }

  /** In every run, a request that no other actor deletes stays stored until the controller marks it
      for deletion, and the controller marks it only when it is concluded and the TTL deadline of
      its last entry has passed. */
  lemma OnlyOverdueIsDeleted(w: World, ops: seq<Op>, j: nat, id: nat)
    requires Initial(w) && id !in Run(w, ops).ev.deleted
    requires 0 < j < |Run(w, ops).trail| && Alive(Run(w, ops).trail, j - 1, id)
    requires !Run(w, ops).trail[j - 1].requests[id].deleting
    ensures var x := Run(w, ops);
      && Alive(x.trail, j, id)
      && (x.trail[j].requests[id].deleting ==> Overdue(x.cfg, StatusAt(x.trail, j - 1, id), x.trail[j - 1].now))
  {
    InitialSound(w);
    RunSound(w, ops);
    MarkedWhenOverdue(Run(w, ops), j, id);
  }

  // ---------------------------------------------------------------- history

  /** In every store of a run the history of every request is well-formed, and a later history
      only appends to an earlier one or rewrites the time of the then last entry. */
  lemma HistoryIsWellFormed(w: World, j: nat, id: nat)
    requires Sound(w) && Alive(w.trail, j, id)
    ensures HistoryOk(StatusAt(w.trail, j, id), w.trail[j].now)
    ensures 0 < j && Alive(w.trail, j - 1, id) ==>
              HistoryGrows(StatusAt(w.trail, j - 1, id).history, StatusAt(w.trail, j, id).history)
  {
    assert Fine(w.cfg, w.ev, w.trail[j]);
    assert RequestOk(w.trail[j], w.trail[j].requests[id]);
    if 0 < j && Alive(w.trail, j - 1, id) { OneStep(w, j, id); }
  }

  // ---------------------------------------------------------------- lifecycle

  /** The position of a state in the lifecycle; every move but requested to requested goes up. */
  function Rank(state: State): nat {
    match state
    case Empty => 0
    case Initiated => 1
    case Requested => 2
    case Granted => 3
    case _ => 4
  }

  /** The state was passed through. */
  ghost predicate Passed(trail: seq<Store>, i: nat, j: nat, id: nat, state: State) {
    exists k :: i <= k <= j && Alive(trail, k, id) && StatusAt(trail, k, id).state == state
  }

  ghost predicate DagMove(trail: seq<Store>, k: nat, id: nat) {
    && 0 < k && Alive(trail, k - 1, id) && Alive(trail, k, id)
    && (StatusAt(trail, k - 1, id) == StatusAt(trail, k, id)
        || DagEdge(StatusAt(trail, k - 1, id).state, StatusAt(trail, k, id).state))
  }

  /** From `i` to `j` the request is stored and makes only moves of the lifecycle. */
  ghost predicate DagMoves(trail: seq<Store>, i: nat, j: nat, id: nat) {
    i <= j && Alive(trail, i, id) && forall k :: i < k <= j ==> DagMove(trail, k, id)
  }

  lemma DagMovesExtend(trail: seq<Store>, i: nat, j: nat, id: nat)
    requires i < j && DagMoves(trail, i, j - 1, id) && DagMove(trail, j, id)
    ensures DagMoves(trail, i, j, id)
  {
  }

  lemma OneDagMove(w: World, j: nat, id: nat)
    requires Sound(w) && id !in w.ev.conflicted && 0 < j && Alive(w.trail, j - 1, id) && Alive(w.trail, j, id)
    ensures DagMove(w.trail, j, id)
  {
    OneStep(w, j, id);
  }

  lemma DagStep(w: World, i: nat, j: nat, id: nat)
    requires Sound(w) && id !in w.ev.conflicted && i < j && Alive(w.trail, j - 1, id) && Alive(w.trail, j, id)
    requires DagMoves(w.trail, i, j - 1, id)
    ensures DagMoves(w.trail, i, j, id)
  {
    OneDagMove(w, j, id);
    DagMovesExtend(w.trail, i, j, id);
  }

  lemma {:induction false} RunMovesInDag(w: World, i: nat, j: nat, id: nat)
    requires Sound(w) && id !in w.ev.conflicted
    requires i <= j && Alive(w.trail, i, id) && Alive(w.trail, j, id)
    ensures DagMoves(w.trail, i, j, id)
    decreases j
  {
    if i < j {
      StoredBefore(w, i, j, id);
      RunMovesInDag(w, i, j - 1, id);
      DagStep(w, i, j, id);
    }
  }

  lemma {:induction false} DagRanks(trail: seq<Store>, i: nat, j: nat, id: nat)
    requires DagMoves(trail, i, j, id) && Alive(trail, j, id)
    ensures var a, b := StatusAt(trail, i, id).state, StatusAt(trail, j, id).state;
      && (a == b || Rank(a) < Rank(b))
      && (a == Granted ==> b in {Granted, Expired, Invalid})
      && (Concluded(a) ==> StatusAt(trail, j, id) == StatusAt(trail, i, id))
    decreases j
  {
    if i < j {
      assert DagMove(trail, j, id);
      DagRanks(trail, i, j - 1, id);
    }
  }

  lemma PassedExtends(trail: seq<Store>, i: nat, j: nat, id: nat, state: State)
    requires i < j && Alive(trail, j - 1, id) && Alive(trail, j, id)
    ensures Passed(trail, i, j - 1, id, state) ==> Passed(trail, i, j, id, state)
    ensures StatusAt(trail, j, id).state == state ==> Passed(trail, i, j, id, state)
    ensures StatusAt(trail, j - 1, id).state == state ==> Passed(trail, i, j, id, state)
  {
  }

  lemma {:induction false} DagPasses(trail: seq<Store>, i: nat, j: nat, id: nat)
    requires DagMoves(trail, i, j, id) && Alive(trail, j, id)
    ensures var a, b := StatusAt(trail, i, id).state, StatusAt(trail, j, id).state;
      && (b == Expired && a != Expired ==> Passed(trail, i, j, id, Granted))
      && (a == Empty && b !in {Empty, Invalid} ==> Passed(trail, i, j, id, Initiated))
    decreases j
  {
    if i < j {
      assert DagMove(trail, j, id);
      DagPasses(trail, i, j - 1, id);
      PassedExtends(trail, i, j, id, Granted);
      PassedExtends(trail, i, j, id, Initiated);
      DagRanks(trail, i, j - 1, id);
    }
  }

  /** A request never found in conflict runs through the lifecycle once: the state it has later is
      the same or one of higher rank, a grant ends only in expired or invalid, expired comes only
      after granted, every state but invalid only after initiated, and a concluded status is
      final. */
  lemma LifecycleIsADag(w: World, i: nat, j: nat, id: nat)
    requires Sound(w) && id !in w.ev.conflicted
    requires i <= j && Alive(w.trail, i, id) && Alive(w.trail, j, id)
    ensures var a, b := StatusAt(w.trail, i, id).state, StatusAt(w.trail, j, id).state;
      && (a == b || Rank(a) < Rank(b))
      && (a == Granted ==> b in {Granted, Expired, Invalid})
      && (b == Expired && a != Expired ==> Passed(w.trail, i, j, id, Granted))
      && (a == Empty && b !in {Empty, Invalid} ==> Passed(w.trail, i, j, id, Initiated))
      && (Concluded(a) ==> StatusAt(w.trail, j, id) == StatusAt(w.trail, i, id))
  {
    RunMovesInDag(w, i, j, id);
    DagRanks(w.trail, i, j, id);
    DagPasses(w.trail, i, j, id);
  }

  /** The step that turns a request granted, or grants it again, was approved. */
  lemma GrantStepIsApproved(w: World, j: nat, id: nat)
    requires Sound(w) && 0 < j && Alive(w.trail, j - 1, id) && Alive(w.trail, j, id)
    requires StatusAt(w.trail, j - 1, id) != StatusAt(w.trail, j, id) && StatusAt(w.trail, j, id).state == Granted
    ensures Approved(w.cfg, w.ev, id)
  {
    assert MoveAt(w.cfg, w.ev, w.trail, j);
    assert Fine(w.cfg, w.ev, w.trail[j - 1]);
  }

  lemma NewIsFresh(w: World, j: nat, id: nat)
    requires Sound(w) && 0 < j && Alive(w.trail, j, id) && !Alive(w.trail, j - 1, id)
    ensures StatusAt(w.trail, j, id) == FRESH
  {
    assert MoveAt(w.cfg, w.ev, w.trail, j);
  }

  lemma {:induction false} GrantedIsApproved(w: World, j: nat, id: nat)
    requires Sound(w) && w.trail[0].requests == map[]
    requires Alive(w.trail, j, id) && StatusAt(w.trail, j, id).state == Granted
    ensures Approved(w.cfg, w.ev, id)
    decreases j
  {
    if j > 0 {
      if !Alive(w.trail, j - 1, id) {
        NewIsFresh(w, j, id);
      } else if StatusAt(w.trail, j - 1, id) == StatusAt(w.trail, j, id) {
        GrantedIsApproved(w, j - 1, id);
      } else {
        GrantStepIsApproved(w, j, id);
      }
    }
  }

  /** In every run from the start a request is granted only after the plugin, if there is one,
      answered its grant call with granted, or with a status it does not declare. */
  lemma GrantsAreApproved(w: World, ops: seq<Op>, j: nat, id: nat)
    requires Initial(w) && Alive(Run(w, ops).trail, j, id) && StatusAt(Run(w, ops).trail, j, id).state == Granted
    ensures var x := Run(w, ops);
      !x.cfg.plugin || (id, PluginGranted) in x.ev.answers || (id, PluginUndeclared) in x.ev.answers
  {
    InitialSound(w);
    RunSound(w, ops);
    assert Run(w, ops).trail[0] == w.trail[0];
    GrantedIsApproved(Run(w, ops), j, id);
  }

  /** From store `i` to store `j`: ExpiresAt, once there, is the same; the history is well-formed; a
      grant was approved; and a request never found in conflict has only moved up the lifecycle,
      and not at all once concluded. */
  ghost predicate Lived(x: World, i: nat, j: nat, id: nat)
    requires Alive(x.trail, i, id) && Alive(x.trail, j, id)
  {
    var a, b := StatusAt(x.trail, i, id), StatusAt(x.trail, j, id);
    && (a.expiresAt.Some? ==> b.expiresAt == a.expiresAt)
    && HistoryOk(b, x.trail[j].now)
    && (b.state == Granted ==> Approved(x.cfg, x.ev, id))
    && (id !in x.ev.conflicted ==> a.state == b.state || Rank(a.state) < Rank(b.state))
    && (id !in x.ev.conflicted && Concluded(a.state) ==> b == a)
  }

  lemma SoundLife(x: World, i: nat, j: nat, id: nat)
    requires Sound(x) && x.trail[0].requests == map[]
    requires i <= j && Alive(x.trail, i, id) && Alive(x.trail, j, id)
    ensures Lived(x, i, j, id)
  {
    if StatusAt(x.trail, i, id).expiresAt.Some? { ExpiryIsNeverExtended(x, i, j, id); }
    HistoryIsWellFormed(x, j, id);
    if StatusAt(x.trail, j, id).state == Granted { GrantedIsApproved(x, j, id); }
    if id !in x.ev.conflicted { LifecycleIsADag(x, i, j, id); }
  }

  /** Every request lives so in every run from the start. */
  lemma LifeOfARequest(w: World, ops: seq<Op>, i: nat, j: nat, id: nat)
    requires Initial(w)
    requires i <= j && Alive(Run(w, ops).trail, i, id) && Alive(Run(w, ops).trail, j, id)
    ensures Lived(Run(w, ops), i, j, id)
  {
    InitialSound(w);
    RunSound(w, ops);
    assert Run(w, ops).trail[0] == w.trail[0];
    SoundLife(Run(w, ops), i, j, id);
  }

  /** The evidence counted afresh for one request, from this store on. */
  ghost function Recounted(w: World, id: nat): World {
    w.(trail := [w.store],
       ev := w.ev.(opposed := (set a | a in w.ev.opposed && a.0 != id),
                   projectless := (set a | a in w.ev.projectless && a.0 != id),
                   answers := (set a | a in w.ev.answers && a.0 != id)))
  }

  lemma RecountedSound(w: World, id: nat)
    requires Sound(w)
    ensures Sound(Recounted(w, id))
  {
    StoreFine(w);
    assert Fine(Recounted(w, id).cfg, Recounted(w, id).ev, w.store);
  }

  /** With answers counted from the start of a reconciliation, every step of it that turns the request
      granted, be it for the first time or again after a conflict, has had the plugin's answer to
      the grant call of this very reconciliation. */
  lemma GrantedByItsOwnAnswer(w: World, id: nat, j: nat)
    requires Sound(w) && w.cfg.plugin
    requires var y := Reconcile.Reconcile(Recounted(w, id), id).w;
      && 0 < j && Alive(y.trail, j - 1, id) && Alive(y.trail, j, id)
      && StatusAt(y.trail, j - 1, id) != StatusAt(y.trail, j, id) && StatusAt(y.trail, j, id).state == Granted
    ensures var y := Reconcile.Reconcile(Recounted(w, id), id).w;
      (id, PluginGranted) in y.ev.answers || (id, PluginUndeclared) in y.ev.answers
  {
    RecountedSound(w, id);
    VisitSound(Recounted(w, id), id);
    GrantStepIsApproved(Reconcile.Reconcile(Recounted(w, id), id).w, j, id);
  }

  /** With conflicts and empty projects counted from the start of a reconciliation, every step of it that
      concludes a granted request leaves its user out of the role, or follows the conflict or the empty
      project that this very reconciliation has found for it. */
  lemma ConcludedByItsOwnFinding(w: World, id: nat, j: nat)
    requires Sound(w)
    requires var y := Reconcile.Reconcile(Recounted(w, id), id).w;
      && y.ev.clean && 0 < j && Alive(y.trail, j - 1, id) && Alive(y.trail, j, id)
      && StatusAt(y.trail, j - 1, id).state == Granted && Concluded(StatusAt(y.trail, j, id).state)
    ensures var y := Reconcile.Reconcile(Recounted(w, id), id).w;
      || Removed(y.trail[j], y.trail[j].requests[id])
      || (StatusAt(y.trail, j, id).state == Invalid && Excused(y.ev, y.trail[j - 1].requests[id]))
  {
    RecountedSound(w, id);
    VisitSound(Recounted(w, id), id);
    GrantEndsRemoved(Reconcile.Reconcile(Recounted(w, id), id).w, j, id);
  }

  // ---------------------------------------------------------------- concluded is absorbing

  lemma StillSettled(w: World, x: World, ids: set<nat>, id: nat)
    requires Settled(w, id) && Continues(w, x, ids - {id})
    ensures Settled(x, id)
  {
  }

  lemma {:induction false} SettledIsLeftAlone(w: World, ops: seq<Op>, id: nat)
    requires Sound(w) && Settled(w, id)
    ensures Continues(w, Run(w, ops), AllVisited(ops) - {id})
    decreases |ops|
  {
    var ids := AllVisited(ops) - {id};
    if ops == [] {
      SoundWeaken(w, w.ev);
      assert w.(ev := w.ev) == w;
      ContinuesWiden(w, w, {}, ids);
    } else {
      var x := Perform(w, ops[0]);
      PerformSound(w, ops[0]);
      PerformSettled(w, ops[0], id);
      StillSettled(w, x, Visited(ops[0]), id);
      SettledIsLeftAlone(x, ops[1..], id);
      RunSound(x, ops[1..]);
      ContinuesWiden(w, x, Visited(ops[0]) - {id}, ids);
      ContinuesWiden(x, Run(x, ops[1..]), AllVisited(ops[1..]) - {id}, ids);
      ContinuesCompose(w, x, Run(w, ops), ids);
    }
  }

  /** From the end of a reconciliation in which a request is stored concluded, its whole status,
      and with it its TTL deadline, is the same in every later store, conflicts or not. */
  lemma ConcludedIsAbsorbing(w: World, ops: seq<Op>, id: nat)
    requires Sound(w) && id in w.store.requests
    requires w.store.requests[id].status.state in {Denied, Expired, Invalid, Timeout}
    ensures forall k :: |w.trail| <= k && Alive(Run(w, ops).trail, k, id) ==>
              StatusAt(Run(w, ops).trail, k, id) == w.store.requests[id].status
  {
    StoreFine(w);
    SettledIsLeftAlone(w, ops, id);
  }
}
