/** The retried read-edit-patch cycle on a project: it keeps the run sound, loses no outside
    update, and a successful revocation leaves the user out. */
module Edits {
  import opened Prelude
  import opened Templates
  import opened Roles
  import opened Requests
  import opened Cluster
  import opened Permission
  import opened Safety
  import opened Outside
  import opened Writes

  /** A patch leaves the world as other actors left it, or finds the version it carries and
      takes effect. */
  lemma PatchCases(w: World, key: Ref, version: nat, roles: seq<ProjectRole>)
    ensures var (w1, err) := PatchProject(w, key, version, roles);
      var x := Pause(w).0;
      || (w1 == x && err in {Some(Failed), Some(Conflict), Some(NotFound)})
      || (&& key in x.store.projects && x.store.projects[key].version == version
          && err in {None, Some(Failed)}
          && w1 == if x.store.projects[key].roles == roles then x else Commit(x, WithRoles(x.store, key, roles)))
  {
  }

  lemma PauseEditable(w: World, ar: Request, edit: Edit, rt: Rendered, p: Project)
    requires Sound(w) && Loaded(w.store, ar) && Editable(w, ar, edit, rt)
    requires Seen(w.store, ProjectKey(ar), p)
    ensures var x := Pause(w).0;
      && Sound(x) && Continues(w, x, {}) && Loaded(x.store, ar) && Editable(x, ar, edit, rt)
      && Seen(x.store, ProjectKey(ar), p)
  {
    PauseSound(w);
  }

  /** The user is out of the role once a revocation took effect. */
  lemma RevokedIsGone(s: Store, ar: Request, rt: Rendered, roles: seq<ProjectRole>)
    requires RolesAt(s, ProjectKey(ar)) == Edited(RevokeAccess, roles, ar, rt)
    ensures Gone(s, ProjectKey(ar), RoleName(rt.name, ar.spec.app), ar.spec.user)
  {
    RevokeMembership(roles, RoleName(rt.name, ar.spec.app), ar.spec.user, rt);
  }

  lemma PatchSound(w: World, ar: Request, edit: Edit, rt: Rendered, p: Project)
    requires Sound(w) && Loaded(w.store, ar) && Editable(w, ar, edit, rt) && Seen(w.store, ProjectKey(ar), p)
    ensures var (w1, err) := PatchProject(w, ProjectKey(ar), p.version, Edited(edit, p.roles, ar, rt));
      && Sound(w1) && Continues(w, w1, {}) && Loaded(w1.store, ar)
      && (err.None? && edit == RevokeAccess ==>
            Gone(w1.store, ProjectKey(ar), RoleName(rt.name, ar.spec.app), ar.spec.user))
      && err != Some(Panic)
  {
    var key, roles := ProjectKey(ar), Edited(edit, p.roles, ar, rt);
    PauseEditable(w, ar, edit, rt, p);
    PatchCases(w, key, p.version, roles);
    var x, y := Pause(w).0, PatchProject(w, key, p.version, roles).0;
    if key in x.store.projects && x.store.projects[key].version == p.version {
      assert RolesAt(x.store, key) == p.roles;
      PatchCommit(x, ar, edit, rt);
      ContinuesCompose(w, x, Commit(x, WithRoles(x.store, key, roles)), {});
      if edit == RevokeAccess && RolesAt(y.store, key) == roles { RevokedIsGone(y.store, ar, rt, p.roles); }
    }
  }

  lemma ReadProject(w: World, ar: Request, edit: Edit, rt: Rendered)
    requires Sound(w) && Loaded(w.store, ar) && Editable(w, ar, edit, rt)
    ensures var (w1, got) := GetProject(w, ProjectKey(ar));
      && Sound(w1) && Continues(w, w1, {}) && Loaded(w1.store, ar) && Editable(w1, ar, edit, rt)
      && (got.Ok? ==> Seen(w1.store, ProjectKey(ar), got.value) && RolesAt(w1.store, ProjectKey(ar)) == got.value.roles)
      && (got == Err(NotFound) ==> Gone(w1.store, ProjectKey(ar), RoleName(rt.name, ar.spec.app), ar.spec.user))
      && got != Err(Panic)
  {
    PauseSound(w);
    StoreFine(Pause(w).0);
  }

  lemma AttemptSound(w: World, ar: Request, edit: Edit, rt: Rendered)
    requires Sound(w) && Loaded(w.store, ar) && Editable(w, ar, edit, rt)
    ensures var (w1, err) := Attempt(w, ar, edit, Some(rt));
      && Sound(w1) && Continues(w, w1, {}) && Loaded(w1.store, ar)
      && (err.None? && edit == RevokeAccess ==>
            Gone(w1.store, ProjectKey(ar), RoleName(rt.name, ar.spec.app), ar.spec.user))
      && err != Some(Panic)
  {
    ReadProject(w, ar, edit, rt);
    var (w1, got) := GetProject(w, ProjectKey(ar));
    match got
    case Err(e) =>
    case Ok(p) =>
      if !Skips(edit, p.roles, ar, rt) {
        PatchSound(w1, ar, edit, rt, p);
        ContinuesCompose(w, w1, PatchProject(w1, ProjectKey(ar), p.version, Edited(edit, p.roles, ar, rt)).0, {});
      }
  }

  /** Every edit keeps the run sound and changes no request; a revocation that reports success
      leaves no role of that name in the target project holding the user. */
  lemma {:induction false} EditProjectSound(w: World, ar: Request, edit: Edit, rt: Rendered, attempts: nat)
    requires Sound(w) && Loaded(w.store, ar) && Editable(w, ar, edit, rt)
    ensures var (w1, err) := EditProject(w, ar, edit, Some(rt), attempts);
      && Sound(w1) && Continues(w, w1, {}) && Loaded(w1.store, ar)
      && (err.None? && edit == RevokeAccess ==>
            Gone(w1.store, ProjectKey(ar), RoleName(rt.name, ar.spec.app), ar.spec.user))
      && err != Some(Panic)
    decreases attempts
  {
    AttemptSound(w, ar, edit, rt);
    var (w1, err) := Attempt(w, ar, edit, Some(rt));
    if err == Some(Conflict) && attempts > 1 {
      EditProjectSound(w1, ar, edit, rt, attempts - 1);
      ContinuesCompose(w, w1, EditProject(w1, ar, edit, Some(rt), attempts - 1).0, {});
    }
  }

  // ---------------------------------------------------------------- no lost update

  /** The world after that many calls of which only the other actors had any effect. */
  function Others(w: World, calls: nat): World
    decreases calls
  {
    if calls == 0 then w else Others(Pause(w).0, calls - 1)
  }

  /** Nothing has to be written: the project to revoke from is absent, or the roles already are
      what the edit would make of them, or the sync finds its role in sync. */
  predicate NothingToDo(s: Store, ar: Request, edit: Edit, rt: Rendered) {
    var key := ProjectKey(ar);
    if key !in s.projects then edit == RevokeAccess
    else Skips(edit, s.projects[key].roles, ar, rt)
         || Edited(edit, s.projects[key].roles, ar, rt) == s.projects[key].roles
  }

  /** World `y` is `x` untouched, or `x` with the edit applied to the roles stored in `x`. */
  predicate Landed(x: World, y: World, err: Option<Error>, ar: Request, edit: Edit, rt: Rendered) {
    var key := ProjectKey(ar);
    || (y == x && (err.None? ==> NothingToDo(x.store, ar, edit, rt)))
    || (&& key in x.store.projects && err in {None, Some(Failed)}
        && y == Commit(x, WithRoles(x.store, key, Edited(edit, x.store.projects[key].roles, ar, rt))))
  }

  lemma PatchLands(w: World, ar: Request, edit: Edit, rt: Rendered, p: Project)
    requires Seen(Pause(w).0.store, ProjectKey(ar), p)
    ensures var (y, err) := PatchProject(w, ProjectKey(ar), p.version, Edited(edit, p.roles, ar, rt));
      Landed(Pause(w).0, y, err, ar, edit, rt) && (err == Some(Conflict) ==> y == Pause(w).0)
  {
    PatchCases(w, ProjectKey(ar), p.version, Edited(edit, p.roles, ar, rt));
  }

  lemma SeenAgain(w: World, key: Ref)
    requires Sound(w)
    ensures var (w1, got) := GetProject(w, key);
      Sound(w1) && Sound(Pause(w1).0) && (got.Ok? ==> Seen(Pause(w1).0.store, key, got.value))
  {
    PauseSound(w);
    StoreFine(Pause(w).0);
    PauseSound(Pause(w).0);
  }

  lemma OneOrTwoCalls(w: World)
    ensures Others(w, 1) == Pause(w).0
    ensures Others(w, 2) == Pause(Pause(w).0).0
  {
    var x := Pause(w).0;
    var y := Pause(x).0;
    assert Others(x, 0) == x && Others(y, 0) == y;
    assert Others(x, 1) == Others(y, 0);
  }

  lemma AttemptLands(w: World, ar: Request, edit: Edit, rt: Rendered)
    requires Sound(w)
    ensures var (y, err) := Attempt(w, ar, edit, Some(rt));
      && (Landed(Others(w, 1), y, err, ar, edit, rt) || Landed(Others(w, 2), y, err, ar, edit, rt))
      && (err == Some(Conflict) ==> y == Others(w, 2) && Sound(y))
  {
    SeenAgain(w, ProjectKey(ar));
    OneOrTwoCalls(w);
    var (w1, got) := GetProject(w, ProjectKey(ar));
    match got
    case Err(e) =>
    case Ok(p) =>
      if !Skips(edit, p.roles, ar, rt) { PatchLands(w1, ar, edit, rt, p); }
  }

  lemma {:induction false} OthersCompose(w: World, m: nat, n: nat)
    ensures Others(Others(w, m), n) == Others(w, m + n)
    decreases m
  {
    if m > 0 {
      OthersCompose(Pause(w).0, m - 1, n);
      assert m + n > 0 && m + n - 1 == (m - 1) + n;
    }
  }

  /** However other actors change the project between read and patch, the retried cycle ends with
      the world those actors left it, untouched, or with this edit applied to exactly the roles
      stored just before the patch; success means one of the two brought the edit about. */
  lemma {:induction false} NoLostUpdate(w: World, ar: Request, edit: Edit, rt: Rendered, attempts: nat)
    requires Sound(w) && attempts > 0
    ensures var (y, err) := EditProject(w, ar, edit, Some(rt), attempts);
      exists calls: nat :: calls <= 2 * attempts && Landed(Others(w, calls), y, err, ar, edit, rt)
    decreases attempts
  {
    AttemptLands(w, ar, edit, rt);
    var (w1, err1) := Attempt(w, ar, edit, Some(rt));
    if err1 == Some(Conflict) && attempts > 1 {
      NoLostUpdate(w1, ar, edit, rt, attempts - 1);
      var (y, err) := EditProject(w1, ar, edit, Some(rt), attempts - 1);
      var calls: nat :| calls <= 2 * (attempts - 1) && Landed(Others(w1, calls), y, err, ar, edit, rt);
      OthersCompose(w, 2, calls);
      assert Landed(Others(w, 2 + calls), y, err, ar, edit, rt);
    }
  }

  // ---------------------------------------------------------------- five attempts

  /** Between the read and the patch of the next attempt somebody else writes the project: both calls
      reach the server, the project is stored each time, in two versions, and the edit is not one that
      finds nothing to do. */
  predicate Raced(w: World, ar: Request, edit: Edit, rt: Rendered) {
    var (x, read) := Pause(w);
    var (y, write) := Pause(x);
    var key := ProjectKey(ar);
    && read.outcome.Succeed? && !write.outcome.Refuse?
    && key in x.store.projects && key in y.store.projects
    && x.store.projects[key].version != y.store.projects[key].version
    && !Skips(edit, x.store.projects[key].roles, ar, rt)
  }

  /** Both its calls succeed, and nobody else writes the project between them. */
  predicate Unraced(w: World, ar: Request) {
    var (x, read) := Pause(w);
    var (y, write) := Pause(x);
    var key := ProjectKey(ar);
    && read.outcome.Succeed? && write.outcome.Succeed?
    && key in x.store.projects && key in y.store.projects && x.store.projects[key] == y.store.projects[key]
  }

  /** That many attempts in a row, of two calls each, are raced. */
  predicate AllRaced(w: World, attempts: nat, ar: Request, edit: Edit, rt: Rendered)
    decreases attempts
  {
    attempts > 0 ==> Raced(w, ar, edit, rt) && AllRaced(Others(w, 2), attempts - 1, ar, edit, rt)
  }

  /** So many raced attempts in a row, and then one that is not. */
  predicate UnracedAfter(w: World, races: nat, ar: Request, edit: Edit, rt: Rendered)
    decreases races
  {
    if races == 0 then Unraced(w, ar)
    else Raced(w, ar, edit, rt) && UnracedAfter(Others(w, 2), races - 1, ar, edit, rt)
  }

  lemma AttemptConflictsIff(w: World, ar: Request, edit: Edit, rt: Rendered)
    ensures var (y, err) := Attempt(w, ar, edit, Some(rt));
      && (err == Some(Conflict) <==> Raced(w, ar, edit, rt)) && (err == Some(Conflict) ==> y == Others(w, 2))
  {
    OneOrTwoCalls(w);
  }

  lemma {:induction false} RetriedConflict(w: World, ar: Request, edit: Edit, rt: Rendered, attempts: nat)
    requires attempts > 0
    ensures var (y, err) := EditProject(w, ar, edit, Some(rt), attempts);
      && (err == Some(Conflict) <==> AllRaced(w, attempts, ar, edit, rt))
      && (err == Some(Conflict) ==> y == Others(w, 2 * attempts))
    decreases attempts
  {
    AttemptConflictsIff(w, ar, edit, rt);
    var (w1, err1) := Attempt(w, ar, edit, Some(rt));
    if err1 == Some(Conflict) && attempts > 1 {
      RetriedConflict(w1, ar, edit, rt, attempts - 1);
      OthersCompose(w, 2, 2 * (attempts - 1));
    }
  }

  /** An edit ends in a conflict exactly when five attempts in a row have each lost to somebody else's
      write, and then ten calls have been made. */
  lemma ConflictIff(w: World, ar: Request, edit: Edit, rt: Rendered)
    ensures var (y, err) := EditProject(w, ar, edit, Some(rt), ATTEMPTS);
      && (err == Some(Conflict) <==> AllRaced(w, 5, ar, edit, rt)) && (err == Some(Conflict) ==> y == Others(w, 10))
  {
    RetriedConflict(w, ar, edit, rt, ATTEMPTS);
  }

  predicate Succeeds(w: World, ar: Request, edit: Edit, rt: Rendered, attempts: nat) {
    EditProject(w, ar, edit, Some(rt), attempts).1.None?
  }

  lemma RacedRetries(w: World, ar: Request, edit: Edit, rt: Rendered, attempts: nat)
    requires Raced(w, ar, edit, rt) && attempts > 0 && Succeeds(Others(w, 2), ar, edit, rt, attempts)
    ensures Succeeds(w, ar, edit, rt, attempts + 1)
  {
    AttemptConflictsIff(w, ar, edit, rt);
  }

  lemma UnracedAtOnce(w: World, ar: Request, edit: Edit, rt: Rendered, attempts: nat)
    requires Unraced(w, ar)
    ensures Succeeds(w, ar, edit, rt, attempts)
  {
  }

  lemma {:induction false} UnracedInTime(w: World, ar: Request, edit: Edit, rt: Rendered, attempts: nat, races: nat)
    requires races < attempts && UnracedAfter(w, races, ar, edit, rt)
    ensures Succeeds(w, ar, edit, rt, attempts)
    decreases races
  {
    if races == 0 {
      UnracedAtOnce(w, ar, edit, rt, attempts);
    } else {
      UnracedInTime(Others(w, 2), ar, edit, rt, attempts - 1, races - 1);
      RacedRetries(w, ar, edit, rt, attempts - 1);
    }
  }

  /** After fewer than five attempts lost to somebody else's write, one that nobody disturbs reports
      success, and SuccessWrote says what that means. */
  lemma UnracedSucceeds(w: World, ar: Request, edit: Edit, rt: Rendered, races: nat)
    requires races < 5 && UnracedAfter(w, races, ar, edit, rt)
    ensures EditProject(w, ar, edit, Some(rt), ATTEMPTS).1.None?
  {
    UnracedInTime(w, ar, edit, rt, ATTEMPTS, races);
  }

  // ---------------------------------------------------------------- what is written

  /** What the roles of the target project were before an edit and are after it, role by role. */
  predicate Wrote(before: seq<ProjectRole>, after: seq<ProjectRole>, ar: Request, edit: Edit, rt: Rendered) {
    var name := RoleName(rt.name, ar.spec.app);
    match edit
    case GrantAccess => GrantWrites(before, after, name, ar.spec.user, rt)
    case SyncAccess =>
      || (after == before && InSync(before, name, rt, ar.spec.user, ar.status.state == Granted))
      || (if ar.status.state == Granted then GrantWrites(before, after, name, ar.spec.user, rt)
          else SyncWrites(before, after, name, rt))
    case RevokeAccess => RevokeWrites(before, after, name, ar.spec.user, rt)
  }

  lemma EditedWrote(roles: seq<ProjectRole>, ar: Request, edit: Edit, rt: Rendered)
    ensures Wrote(roles, Edited(edit, roles, ar, rt), ar, edit, rt)
  {
    WhatEditsWrite(roles, RoleName(rt.name, ar.spec.app), ar.spec.user, rt);
  }

  lemma LandedWrote(x: World, y: World, ar: Request, edit: Edit, rt: Rendered)
    requires Landed(x, y, None, ar, edit, rt)
    ensures Wrote(RolesAt(x.store, ProjectKey(ar)), RolesAt(y.store, ProjectKey(ar)), ar, edit, rt)
  {
    EditedWrote(RolesAt(x.store, ProjectKey(ar)), ar, edit, rt);
  }

  /** World `y` has what the edit writes into the roles stored after that many calls. */
  predicate WroteAfter(w: World, calls: nat, y: World, ar: Request, edit: Edit, rt: Rendered) {
    Wrote(RolesAt(Others(w, calls).store, ProjectKey(ar)), RolesAt(y.store, ProjectKey(ar)), ar, edit, rt)
  }

  /** An edit that reports success has written into the roles that other actors had left just before,
      role by role, what it is to write. */
  lemma SuccessWrote(w: World, ar: Request, edit: Edit, rt: Rendered)
    requires Sound(w) && EditProject(w, ar, edit, Some(rt), ATTEMPTS).1.None?
    ensures var y := EditProject(w, ar, edit, Some(rt), ATTEMPTS).0;
      exists calls: nat :: calls <= 10 && WroteAfter(w, calls, y, ar, edit, rt)
  {
    NoLostUpdate(w, ar, edit, rt, ATTEMPTS);
    var y := EditProject(w, ar, edit, Some(rt), ATTEMPTS).0;
    var calls: nat :| calls <= 2 * ATTEMPTS && Landed(Others(w, calls), y, None, ar, edit, rt);
    LandedWrote(Others(w, calls), y, ar, edit, rt);
    assert WroteAfter(w, calls, y, ar, edit, rt);
  }

  /** Where a grant or a sync of a granted request landed, its role is in sync and holds the user. */
  lemma LandedInSync(x: World, y: World, ar: Request, edit: Edit, rt: Rendered)
    requires Landed(x, y, None, ar, edit, rt)
    requires edit == GrantAccess || (edit == SyncAccess && ar.status.state == Granted)
    ensures InSync(RolesAt(y.store, ProjectKey(ar)), RoleName(rt.name, ar.spec.app), rt, ar.spec.user, true)
  {
    var key, name := ProjectKey(ar), RoleName(rt.name, ar.spec.app);
    var roles := RolesAt(x.store, key);
    GrantEditIsSyncEdit(roles, name, ar.spec.user, rt);
    GrantEditSyncs(roles, name, ar.spec.user, rt, true);
  }

  /** However it is disturbed, a grant or sync that reports success leaves the role in sync and the
      user in it, so that syncing again writes nothing. */
  lemma SuccessIsInSync(w: World, ar: Request, edit: Edit, rt: Rendered)
    requires Sound(w) && EditProject(w, ar, edit, Some(rt), ATTEMPTS).1.None?
    requires edit == GrantAccess || (edit == SyncAccess && ar.status.state == Granted)
    ensures var roles := RolesAt(EditProject(w, ar, edit, Some(rt), ATTEMPTS).0.store, ProjectKey(ar));
      && InSync(roles, RoleName(rt.name, ar.spec.app), rt, ar.spec.user, true)
      && (ar.status.state == Granted ==> Skips(SyncAccess, roles, ar, rt))
  {
    NoLostUpdate(w, ar, edit, rt, ATTEMPTS);
    var y := EditProject(w, ar, edit, Some(rt), ATTEMPTS).0;
    var calls: nat :| calls <= 2 * ATTEMPTS && Landed(Others(w, calls), y, None, ar, edit, rt);
    LandedInSync(Others(w, calls), y, ar, edit, rt);
  }
}
