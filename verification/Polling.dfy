/** Deadlines are met: with wake-ups honoured a pending request is concluded and an expired one
    revoked in time, whatever else happens between the visits as long as it concerns others. */
module Polling {
  import opened Templates
  import opened Requests
  import opened Cluster
  import opened Permission
  import opened Reconcile
  import opened Safety
  import opened Outside
  import opened OneInFlight
  import opened CalmRuns
  import opened CalmVisits
  import opened StillRuns
  import opened HazardRuns
  import opened Deadlines

  // ---------------------------------------------------------------- what leaves a request waiting

  /** Whatever stands in the way of the request in `t` stood in its way in `s`. */
  predicate NoNewConflict(s: Store, t: Store, ar: Request) {
    forall id :: id in t.requests && Conflicts(t.requests[id], ar) && SameAsk(ar, t.requests[id]) ==>
      id in s.requests && Conflicts(s.requests[id], ar) && SameAsk(ar, s.requests[id])
  }

  lemma ConflictListed(s: Store, ar: Request, id: nat)
    requires StoreOk(s) && id in s.requests && Conflicts(s.requests[id], ar) && SameAsk(ar, s.requests[id])
    requires ar.spec.user != "" && !Nameless(ar)
    ensures !Unopposed(s, ar)
  {
    var list := Siblings(s, ar.ns, ar.spec.user, ar.spec.app);
    ListedHolds(s, 0, ar.ns, ar.spec.user, ar.spec.app, id);
    ConflictFound(list, ar);
    var k :| 0 <= k < |list| && list[k] == s.requests[id];
    assert Conflicts(list[k], ar);
  }

  lemma StaysUnopposed(s: Store, t: Store, ar: Request)
    requires StoreOk(s) && Unopposed(s, ar) && NoNewConflict(s, t, ar)
    ensures Unopposed(t, ar)
  {
    if !Unopposed(t, ar) {
      var list := Siblings(t, ar.ns, ar.spec.user, ar.spec.app);
      ConflictFound(list, ar);
      ListedFrom(t, 0, ar.ns, ar.spec.user, ar.spec.app);
      var k :| 0 <= k < |list| && Conflicts(list[k], ar);
      var id :| id in t.requests && t.requests[id] == list[k];
      ConflictListed(s, ar, id);
    }
  }

  /** The stores agree on the request, its application, its template and its target project's being
      there. */
  predicate SameSurroundings(s: Store, t: Store, ar: Request) {
    && ar.id in t.requests && t.requests[ar.id] == ar
    && ar.spec.app in t.apps && ar.spec.app in s.apps && t.apps[ar.spec.app] == s.apps[ar.spec.app]
    && ar.spec.template in t.templates && ar.spec.template in s.templates
    && t.templates[ar.spec.template] == s.templates[ar.spec.template]
    && ProjectKey(ar) in t.projects
  }

  lemma WaitingCarries(cfg: Config, s: Store, t: Store, ar: Request, rt: Rendered, message: string)
    requires Waiting(cfg, s, ar, rt, message) && StoreOk(t)
    requires SameSurroundings(s, t, ar) && NoNewConflict(s, t, ar)
    ensures Waiting(cfg, t, ar, rt, message)
  {
    StaysUnopposed(s, t, ar);
  }

  lemma EventSurroundings(s: Store, e: Event, ar: Request)
    requires StoreOk(s) && Unrelated(e, ar) && SameSurroundings(s, s, ar)
    ensures SameSurroundings(s, Apply(s, e), ar)
  {
  }

  lemma EventNoNewConflict(s: Store, e: Event, ar: Request)
    requires StoreOk(s) && Unrelated(e, ar)
    ensures NoNewConflict(s, Apply(s, e), ar)
  {
    ApplyUndisturbed(s, e);
    var t := Apply(s, e);
    forall id | id in t.requests && Conflicts(t.requests[id], ar) && SameAsk(ar, t.requests[id])
      ensures id in s.requests && Conflicts(s.requests[id], ar) && SameAsk(ar, s.requests[id])
    {
      assert id in s.requests || (e.CreateRequest? && id == s.next);
    }
  }

  /** An unrelated event leaves a waiting request waiting. */
  lemma EventKeepsWaiting(cfg: Config, s: Store, e: Event, ar: Request, rt: Rendered, message: string)
    requires Waiting(cfg, s, ar, rt, message) && Unrelated(e, ar)
    ensures Waiting(cfg, Apply(s, e), ar, rt, message)
  {
    ApplyUndisturbed(s, e);
    ApplyProjects(s, e);
    UndisturbedOk(s, Apply(s, e));
    EventSurroundings(s, e, ar);
    EventNoNewConflict(s, e, ar);
    WaitingCarries(cfg, s, Apply(s, e), ar, rt, message);
  }

  // ---------------------------------------------------------------- visits to other requests

  lemma EmptyBefore(w: World, x: World, ids: set<nat>, id: nat)
    requires Sound(w) && Sound(x) && Continues(w, x, ids) && id in w.store.requests && id in x.store.requests
    requires x.store.requests[id].status.state == Empty
    ensures w.store.requests[id].status.state == Empty
  {
    if w.store.requests[id].status.state != Empty { Runs.AssignmentKept(w, x, ids, id); }
  }

  lemma SiblingIsNotFlying(s: Store, ar: Request, id: nat)
    requires AtMostOne(s) && ar.id in s.requests && s.requests[ar.id] == ar && InFlight(ar.status.state)
    requires id != ar.id && id in s.requests && SameAsk(ar, s.requests[id])
    ensures !InFlight(s.requests[id].status.state)
  {
    assert Rival(s, ar.id, id) ==> !Flying(s, ar.id);
  }

  lemma VisitNoNewConflict(w: World, x: World, ar: Request, other: nat)
    requires Sound(w) && Sound(x) && Continues(w, x, {other}) && Spared(w.store, x.store, ar, other)
    requires AtMostOne(x.store) && other != ar.id && ar.id in w.store.requests && w.store.requests[ar.id] == ar
    requires ar.status.state == Requested && other < w.store.next
    ensures NoNewConflict(w.store, x.store, ar)
  {
    var s, t := w.store, x.store;
    forall id | id in t.requests && Conflicts(t.requests[id], ar) && SameAsk(ar, t.requests[id])
      ensures id in s.requests && Conflicts(s.requests[id], ar) && SameAsk(ar, s.requests[id])
    {
      if id == other {
        SiblingIsNotFlying(t, ar, id);
        assert id in s.requests;
        EmptyBefore(w, x, {other}, id);
      }
    }
  }

  lemma VisitSurroundings(w: World, x: World, ar: Request, rt: Rendered, message: string, other: nat)
    requires Sound(w) && Sound(x) && Continues(w, x, {other}) && Spared(w.store, x.store, ar, other)
    requires AtMostOne(x.store) && other != ar.id && other < w.store.next && Waiting(w.cfg, w.store, ar, rt, message)
    ensures Waiting(x.cfg, x.store, ar, rt, message)
  {
    VisitNoNewConflict(w, x, ar, other);
    StoreFine(x);
    WaitingCarries(w.cfg, w.store, x.store, ar, rt, message);
  }

  /** A visit to another request that is no hazard, with any calls failing, any plugin reply and other
      actors doing anything in it that does not concern the request, leaves a waiting request waiting. */
  lemma OtherVisitKeepsWaiting(w: World, ar: Request, rt: Rendered, message: string, other: nat, turns: seq<Turn>)
    requires Sound(w) && AtMostOne(w.store) && Waiting(w.cfg, w.store, ar, rt, message)
    requires other != ar.id && other < w.store.next && !Hazard(w.store, other)
    requires forall i :: 0 <= i < |turns| ==> AllUnrelated(turns[i].events, ar)
    ensures var x := Runs.Perform(w, Runs.Visit(other, turns));
      Sound(x) && AtMostOne(x.store) && Waiting(x.cfg, x.store, ar, rt, message)
  {
    var v := w.(script := turns);
    var x := Runs.Perform(w, Runs.Visit(other, turns));
    Runs.PerformSound(w, Runs.Visit(other, turns));
    SafeWithoutHazard(w, other, turns);
    assert Tame(v, ar);
    ReconcileGoes(v, other, ar);
    VisitSurroundings(w, x, ar, rt, message, other);
  }

  // ---------------------------------------------------------------- whole gaps

  lemma {:induction false} InterfereKeepsWaiting(w: World, events: seq<Event>, ar: Request, rt: Rendered,
                                                 message: string)
    requires Waiting(w.cfg, w.store, ar, rt, message) && AllUnrelated(events, ar)
    ensures Waiting(w.cfg, Interfere(w, events).store, ar, rt, message) && Interfere(w, events).cfg == w.cfg
    decreases |events|
  {
    if events != [] {
      EventKeepsWaiting(w.cfg, w.store, events[0], ar, rt, message);
      InterfereKeepsWaiting(After(w, events[0]), events[1..], ar, rt, message);
    }
  }

  /** The operation does not concern the request: other actors act elsewhere, or another request that is
      no hazard is reconciled while they do. */
  ghost predicate Elsewhere(w: World, op: Runs.Op, ar: Request) {
    match op
    case Act(events) => AllUnrelated(events, ar)
    case Visit(other, turns) =>
      && other != ar.id && other < w.store.next && !Hazard(w.store, other)
      && forall i :: 0 <= i < |turns| ==> AllUnrelated(turns[i].events, ar)
  }

  ghost predicate AllElsewhere(w: World, ops: seq<Runs.Op>, ar: Request)
    decreases |ops|
  {
    ops != [] ==> Elsewhere(w, ops[0], ar) && AllElsewhere(Runs.Perform(w, ops[0]), ops[1..], ar)
  }

  lemma OpKeepsWaiting(w: World, op: Runs.Op, ar: Request, rt: Rendered, message: string)
    requires Sound(w) && AtMostOne(w.store) && Waiting(w.cfg, w.store, ar, rt, message) && Elsewhere(w, op, ar)
    ensures var x := Runs.Perform(w, op);
      Sound(x) && AtMostOne(x.store) && x.cfg == w.cfg && Waiting(x.cfg, x.store, ar, rt, message)
  {
    Runs.PerformSound(w, op);
    match op
    case Act(events) =>
      InterfereKeepsWaiting(w, events, ar, rt, message);
      StepKeepsAtMostOne(w, op);
    case Visit(other, turns) => OtherVisitKeepsWaiting(w, ar, rt, message, other, turns);
  }

  /** Whatever is done elsewhere between two polls leaves the request waiting, as PendingIsConcluded asks. */
  lemma {:induction false} GapKeepsWaiting(w: World, ops: seq<Runs.Op>, ar: Request, rt: Rendered, message: string)
    requires Sound(w) && AtMostOne(w.store) && Waiting(w.cfg, w.store, ar, rt, message) && AllElsewhere(w, ops, ar)
    ensures var x := Runs.Run(w, ops);
      Sound(x) && AtMostOne(x.store) && x.cfg == w.cfg && Waiting(x.cfg, x.store, ar, rt, message)
    decreases |ops|
  {
    if ops != [] {
      OpKeepsWaiting(w, ops[0], ar, rt, message);
      GapKeepsWaiting(Runs.Perform(w, ops[0]), ops[1..], ar, rt, message);
    }
  }

  // ---------------------------------------------------------------- polling a pending request

  function DeadlineOf(cfg: Config, status: Status): int
    requires status.history != []
  {
    Last(status.history).time + cfg.timeout
  }

  /** The wake-ups are honoured: every gap is at most the polling interval long, and the request is
      polled, still waiting as `status` says, until the first poll after its deadline. */
  ghost predicate PolledPast(w: World, id: nat, status: Status, rt: Rendered, message: string, gaps: seq<seq<Runs.Op>>)
    requires status.history != []
    decreases |gaps|
  {
    gaps != [] &&
    var x := Runs.Run(w, gaps[0]);
    && x.store.now <= w.store.now + w.cfg.requeue
    && id in x.store.requests && x.store.requests[id].status == status
    && x.store.requests[id].id == id && Waiting(w.cfg, x.store, x.store.requests[id], rt, message)
    && (x.store.now <= DeadlineOf(w.cfg, status) ==>
          PolledPast(Runs.Perform(x, Runs.Visit(id, Quiet(message))), id, status, rt, message, gaps[1..]))
  }

  /** The world after the first poll past the deadline: between two polls a gap of operations is run,
      and then the request is polled. */
  function Attended(w: World, id: nat, due: int, message: string, gaps: seq<seq<Runs.Op>>): World
    decreases |gaps|
  {
    if gaps == [] then w
    else
      var x := Runs.Run(w, gaps[0]);
      var y := Runs.Perform(x, Runs.Visit(id, Quiet(message)));
      if x.store.now > due then y else Attended(y, id, due, message, gaps[1..])
  }

  /** The stored request was concluded as timed out in the given interval. */
  predicate TimedOut(s: Store, id: nat, from: int, to: int) {
    && id in s.requests && s.requests[id].status.state == Timeout && s.requests[id].status.history != []
    && from < Last(s.requests[id].status.history).time <= to
  }

  lemma {:induction false} RunAppend(w: World, a: seq<Runs.Op>, b: seq<Runs.Op>)
    ensures Runs.Run(w, a + b) == Runs.Run(Runs.Run(w, a), b)
    decreases |a|
  {
    if a == [] {
      assert a + b == b;
    } else {
      assert (a + b)[0] == a[0] && (a + b)[1..] == a[1..] + b;
      RunAppend(Runs.Perform(w, a[0]), a[1..], b);
    }
  }

  lemma RunOne(w: World, op: Runs.Op)
    ensures Runs.Run(w, [op]) == Runs.Perform(w, op)
  {
    assert [op][1..] == [];
  }

  lemma RunGap(w: World, gap: seq<Runs.Op>, op: Runs.Op, rest: seq<Runs.Op>)
    ensures Runs.Run(w, gap + [op] + rest) == Runs.Run(Runs.Perform(Runs.Run(w, gap), op), rest)
  {
    RunAppend(w, gap + [op], rest);
    RunAppend(w, gap, [op]);
    RunOne(Runs.Run(w, gap), op);
  }

  /** What is attended is a run. */
  lemma {:induction false} AttendedIsRun(w: World, id: nat, due: int, message: string, gaps: seq<seq<Runs.Op>>)
      returns (ops: seq<Runs.Op>)
    ensures Attended(w, id, due, message, gaps) == Runs.Run(w, ops)
    decreases |gaps|
  {
    ops := [];
    if gaps != [] {
      var x := Runs.Run(w, gaps[0]);
      var visit := Runs.Visit(id, Quiet(message));
      var y := Runs.Perform(x, visit);
      if x.store.now <= due { ops := AttendedIsRun(y, id, due, message, gaps[1..]); }
      RunGap(w, gaps[0], visit, ops);
      ops := gaps[0] + [visit] + ops;
    }
  }

  /** One poll, at the end of a gap. */
  lemma Poll(x: World, id: nat, rt: Rendered, message: string)
    requires id in x.store.requests && x.store.requests[id].id == id
    requires Waiting(x.cfg, x.store, x.store.requests[id], rt, message)
    ensures var y := Runs.Perform(x, Runs.Visit(id, Quiet(message)));
      if x.store.now <= TimeoutAt(x.cfg, x.store.requests[id]) then y.cfg == x.cfg && y.store.now == x.store.now
      else TimedOut(y.store, id, TimeoutAt(x.cfg, x.store.requests[id]), x.store.now)
  {
    PendingVisit(x.(script := Quiet(message)), x.store.requests[id], rt, message);
  }

  lemma {:induction false} RunKeepsConfig(w: World, ops: seq<Runs.Op>)
    requires Sound(w)
    ensures Sound(Runs.Run(w, ops)) && Runs.Run(w, ops).cfg == w.cfg
    decreases |ops|
  {
    if ops != [] {
      Runs.PerformSound(w, ops[0]);
      RunKeepsConfig(Runs.Perform(w, ops[0]), ops[1..]);
    }
  }

  lemma PollStep(w: World, id: nat, status: Status, rt: Rendered, message: string, gaps: seq<seq<Runs.Op>>)
    requires Sound(w) && status.history != [] && PolledPast(w, id, status, rt, message, gaps)
    ensures var x := Runs.Run(w, gaps[0]);
      var y := Runs.Perform(x, Runs.Visit(id, Quiet(message)));
      && Sound(y) && y.cfg == w.cfg
      && (if x.store.now <= DeadlineOf(w.cfg, status) then y.store.now == x.store.now
          else TimedOut(y.store, id, DeadlineOf(w.cfg, status), x.store.now))
  {
    var x := Runs.Run(w, gaps[0]);
    RunKeepsConfig(w, gaps[0]);
    Runs.PerformSound(x, Runs.Visit(id, Quiet(message)));
    Poll(x, id, rt, message);
  }

  /** With wake-ups honoured a request the plugin leaves pending is concluded as timed out by the first
      poll after its deadline, at most one polling interval later, whatever is done in between to
      leave it waiting. */
  lemma {:induction false} PendingIsConcluded(w: World, id: nat, status: Status, rt: Rendered, message: string,
                                              gaps: seq<seq<Runs.Op>>)
    requires Sound(w) && status.history != [] && w.store.now <= DeadlineOf(w.cfg, status)
    requires PolledPast(w, id, status, rt, message, gaps)
    ensures TimedOut(Attended(w, id, DeadlineOf(w.cfg, status), message, gaps).store, id,
                     DeadlineOf(w.cfg, status), DeadlineOf(w.cfg, status) + w.cfg.requeue)
    decreases |gaps|
  {
    PollStep(w, id, status, rt, message, gaps);
    var x := Runs.Run(w, gaps[0]);
    if x.store.now <= DeadlineOf(w.cfg, status) {
      PendingIsConcluded(Runs.Perform(x, Runs.Visit(id, Quiet(message))), id, status, rt, message, gaps[1..]);
    }
  }

  // ---------------------------------------------------------------- the end of a grant

  /** The request is granted; application, project, template and siblings leave it alone. */
  ghost predicate Held(cfg: Config, s: Store, ar: Request, rt: Rendered) {
    && StoreOk(s) && Ready(s, ar, rt) && Unopposed(s, ar)
    && ar.status.state == Granted && ar.status.expiresAt.Some? && !ar.deleting
  }

  lemma HeldProceeds(w: World, n: nat, reply: PluginReply, ar: Request, rt: Rendered)
    requires Calm(w, n, reply) && n >= 2 && Held(w.cfg, w.store, ar, rt)
    ensures Reconcile.Reconcile(w, ar.id) == Resolve(Next(Next(w)), ar) && Calm(Next(Next(w)), n - 2, reply)
  {
    assert RequestOk(w.store, ar);
    CalmPause(w, n, reply);
    UnopposedProceeds(Next(w), n - 1, reply, ar);
    assert FromCopy(Next(w), ar) == Proceed(Next(w), ar);
    assert Reconcile.Reconcile(w, ar.id) == FromCopy(Next(w), ar);
  }

  lemma ExpiryVisit(w: World, n: nat, reply: PluginReply, ar: Request, rt: Rendered)
    requires Calm(w, n, reply) && n >= 9 && Held(w.cfg, w.store, ar, rt) && (w.cfg.plugin ==> reply != CallFailed)
    requires ar.status.expiresAt.value < w.store.now
    ensures var t := Reconcile.Reconcile(w, ar.id).w.store;
      && EndsAs(t, ar, Expired, VerdictMessage(w.cfg, reply), HashOf(rt), w.store.now)
      && Gone(t, ProjectKey(ar), RoleOf(ar, rt), ar.spec.user)
  {
    HeldProceeds(w, n, reply, ar, rt);
    var x := Next(Next(w));
    ExpiryIsCarriedOut(x, n - 2, reply, ar, rt);
    var flow := HandlePermission(x, ar);
    FinishKeeps(flow.w, flow.ar, Expired);
    assert Resolve(x, ar).w == flow.w;
  }

  /** Visited no later than `late` after ExpiresAt, which every wake-up of a granted request asks for,
      its user is out of the role by then and the expiry recorded, whatever was done before to leave
      it granted. */
  lemma ExpiryIsMet(w: World, gap: seq<Runs.Op>, turns: seq<Turn>, reply: PluginReply, ar: Request, rt: Rendered,
                    late: nat)
    requires var x := Runs.Run(w, gap);
      && Held(x.cfg, x.store, ar, rt) && (x.cfg.plugin ==> reply != CallFailed)
      && Calm(x.(script := turns), 9, reply)
      && ar.status.expiresAt.value < x.store.now <= ar.status.expiresAt.value + late
    ensures var t := Runs.Run(w, gap + [Runs.Visit(ar.id, turns)]).store;
      && StateIn(t, ar.id, {Expired}) && t.requests[ar.id].status.history != []
      && ar.status.expiresAt.value < Last(t.requests[ar.id].status.history).time <= ar.status.expiresAt.value + late
      && Gone(t, ProjectKey(ar), RoleOf(ar, rt), ar.spec.user)
  {
    var x := Runs.Run(w, gap);
    ExpiryVisit(x.(script := turns), 9, reply, ar, rt);
    RunAppend(w, gap, [Runs.Visit(ar.id, turns)]);
    RunOne(x, Runs.Visit(ar.id, turns));
  }
}
