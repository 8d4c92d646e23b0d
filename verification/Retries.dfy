/** The controller's retried writes of a request: adding and dropping the finalizer, and recording the
    timeout. A conflict is reported only after five attempts, each of which lost to somebody else's write;
    after fewer of them, one that nobody disturbs succeeds. */
module Retries {
  import opened Prelude
  import opened Requests
  import opened Cluster
  import opened Permission
  import opened Reconcile
  import opened Edits

  // ---------------------------------------------------------------- the finalizer

  /** The read of the next attempt finds the request. */
  predicate Found(w: World, id: nat) {
    var (x, read) := Pause(w);
    read.outcome.Succeed? && id in x.store.requests
  }

  /** The request as that read finds it. */
  function Copy(w: World, id: nat): Request
    requires Found(w, id)
  {
    Pause(w).0.store.requests[id]
  }

  /** Between its read and its write somebody else writes the request, and the write reaches the server. */
  predicate WriteRaced(w: World, id: nat) {
    var (y, write) := Pause(Pause(w).0);
    && Found(w, id) && !write.outcome.Refuse?
    && Copy(w, id).id in y.store.requests
    && y.store.requests[Copy(w, id).id].version != Copy(w, id).version
  }

  /** Nobody does, and the write succeeds. */
  predicate WriteUnraced(w: World, id: nat) {
    var (y, write) := Pause(Pause(w).0);
    && Found(w, id) && write.outcome.Succeed?
    && Copy(w, id).id in y.store.requests
    && y.store.requests[Copy(w, id).id].version == Copy(w, id).version
  }

  predicate AllWritesRaced(w: World, id: nat, attempts: nat)
    decreases attempts
  {
    attempts > 0 ==> WriteRaced(w, id) && AllWritesRaced(Others(w, 2), Copy(w, id).id, attempts - 1)
  }

  predicate WriteUnracedAfter(w: World, id: nat, races: nat)
    decreases races
  {
    if races == 0 then WriteUnraced(w, id)
    else WriteRaced(w, id) && WriteUnracedAfter(Others(w, 2), Copy(w, id).id, races - 1)
  }

  lemma {:induction false} AddConflicts(w: World, ar: Request, attempts: nat)
    requires attempts > 0
    ensures var step := AddFinalizer(w, ar, attempts);
      && (step.err == Some(Conflict) <==> AllWritesRaced(w, ar.id, attempts))
      && (step.err == Some(Conflict) ==> step.w == Others(w, 2 * attempts))
    decreases attempts
  {
    OneOrTwoCalls(w);
    if WriteRaced(w, ar.id) && attempts > 1 {
      AddConflicts(Others(w, 2), Copy(w, ar.id).(finalizer := true), attempts - 1);
      OthersCompose(w, 2, 2 * (attempts - 1));
    }
  }

  lemma {:induction false} AddSucceeds(w: World, ar: Request, attempts: nat, races: nat)
    requires races < attempts && WriteUnracedAfter(w, ar.id, races)
    ensures AddFinalizer(w, ar, attempts).err.None?
    decreases races
  {
    OneOrTwoCalls(w);
    if races > 0 { AddSucceeds(Others(w, 2), Copy(w, ar.id).(finalizer := true), attempts - 1, races - 1); }
  }

  /** Adding the finalizer ends in a conflict exactly when five attempts in a row lose to somebody else's
      write, and then ten calls have been made; after fewer, one that nobody disturbs succeeds. */
  lemma AddIsRetried(w: World, ar: Request)
    ensures var step := AddFinalizer(w, ar, ATTEMPTS);
      && (step.err == Some(Conflict) <==> AllWritesRaced(w, ar.id, 5))
      && (step.err == Some(Conflict) ==> step.w == Others(w, 10))
      && ((exists races: nat :: races < 5 && WriteUnracedAfter(w, ar.id, races)) ==> step.err.None?)
  {
    AddConflicts(w, ar, ATTEMPTS);
    if races: nat :| races < 5 && WriteUnracedAfter(w, ar.id, races) { AddSucceeds(w, ar, ATTEMPTS, races); }
  }

  lemma {:induction false} DropConflicts(w: World, ar: Request, attempts: nat)
    requires attempts > 0
    ensures var step := DropFinalizer(w, ar, attempts);
      && (step.err == Some(Conflict) <==> AllWritesRaced(w, ar.id, attempts))
      && (step.err == Some(Conflict) ==> step.w == Others(w, 2 * attempts))
    decreases attempts
  {
    OneOrTwoCalls(w);
    if WriteRaced(w, ar.id) && attempts > 1 {
      DropConflicts(Others(w, 2), Copy(w, ar.id).(finalizer := false), attempts - 1);
      OthersCompose(w, 2, 2 * (attempts - 1));
    }
  }

  lemma {:induction false} DropSucceeds(w: World, ar: Request, attempts: nat, races: nat)
    requires races < attempts && WriteUnracedAfter(w, ar.id, races)
    ensures DropFinalizer(w, ar, attempts).err.None?
    decreases races
  {
    OneOrTwoCalls(w);
    if races > 0 { DropSucceeds(Others(w, 2), Copy(w, ar.id).(finalizer := false), attempts - 1, races - 1); }
  }

  /** The same of dropping it; and a request that is no longer stored needs no write. */
  lemma DropIsRetried(w: World, ar: Request)
    ensures var step := DropFinalizer(w, ar, ATTEMPTS);
      && (step.err == Some(Conflict) <==> AllWritesRaced(w, ar.id, 5))
      && (step.err == Some(Conflict) ==> step.w == Others(w, 10))
      && ((exists races: nat :: races < 5 && WriteUnracedAfter(w, ar.id, races)) ==> step.err.None?)
      && (Pause(w).1.outcome.Succeed? && ar.id !in Pause(w).0.store.requests ==>
            step == Step(Pause(w).0, ar, None))
  {
    DropConflicts(w, ar, ATTEMPTS);
    if races: nat :| races < 5 && WriteUnracedAfter(w, ar.id, races) { DropSucceeds(w, ar, ATTEMPTS, races); }
  }

  // ---------------------------------------------------------------- the timeout

  /** Somebody else has written the request since the copy was read, and the write reaches the server. */
  predicate Stale(w: World, copy: Request) {
    var (x, write) := Pause(w);
    && !write.outcome.Refuse? && copy.id in x.store.requests
    && x.store.requests[copy.id].version != copy.version
  }

  /** Nobody has, and it succeeds. */
  predicate Current(w: World, copy: Request) {
    var (x, write) := Pause(w);
    && write.outcome.Succeed? && copy.id in x.store.requests
    && x.store.requests[copy.id].version == copy.version
  }

  /** So many writes in a row come too late, each of a copy read after the one before. */
  predicate AllStale(w: World, copy: Request, attempts: nat)
    decreases attempts
  {
    attempts > 0 ==>
      && Stale(w, copy)
      && (attempts > 1 ==> Found(Pause(w).0, copy.id))
      && (attempts > 1 ==> AllStale(Others(w, 2), Copy(Pause(w).0, copy.id), attempts - 1))
  }

  predicate CurrentAfter(w: World, copy: Request, races: nat)
    decreases races
  {
    if races == 0 then Current(w, copy)
    else Stale(w, copy) && Found(Pause(w).0, copy.id)
         && CurrentAfter(Others(w, 2), Copy(Pause(w).0, copy.id), races - 1)
  }

  lemma {:induction false} TimeoutConflicts(w: World, ar: Request, attempts: nat)
    requires attempts > 0
    ensures var step := WriteTimeout(w, ar, attempts);
      && (step.err == Some(Conflict) <==> AllStale(w, ar, attempts))
      && (step.err == Some(Conflict) ==> step.w == Others(w, 2 * attempts - 1))
    decreases attempts
  {
    OneOrTwoCalls(w);
    if Stale(w, ar) && attempts > 1 && Found(Pause(w).0, ar.id) {
      TimeoutConflicts(Others(w, 2), Copy(Pause(w).0, ar.id), attempts - 1);
      OthersCompose(w, 2, 2 * (attempts - 1) - 1);
    }
  }

  lemma {:induction false} TimeoutSucceeds(w: World, ar: Request, attempts: nat, races: nat)
    requires races < attempts && CurrentAfter(w, ar, races)
    ensures WriteTimeout(w, ar, attempts).err.None?
    decreases races
  {
    OneOrTwoCalls(w);
    if races > 0 { TimeoutSucceeds(Others(w, 2), Copy(Pause(w).0, ar.id), attempts - 1, races - 1); }
  }

  /** The timeout write ends in a conflict exactly when five writes in a row come too late, after five
      writes and four reads; after fewer, one that comes in time succeeds. */
  lemma TimeoutIsRetried(w: World, ar: Request)
    ensures var step := WriteTimeout(w, ar, ATTEMPTS);
      && (step.err == Some(Conflict) <==> AllStale(w, ar, 5))
      && (step.err == Some(Conflict) ==> step.w == Others(w, 9))
      && ((exists races: nat :: races < 5 && CurrentAfter(w, ar, races)) ==> step.err.None?)
  {
    TimeoutConflicts(w, ar, ATTEMPTS);
    if races: nat :| races < 5 && CurrentAfter(w, ar, races) { TimeoutSucceeds(w, ar, ATTEMPTS, races); }
  }
}
