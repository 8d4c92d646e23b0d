# Ephemeral access: a verified model

The ephemeral-access extension of Argo CD lends a user a role for a while. A user's request is an
`AccessRequest`; a controller reconciles it: it asks a plugin for leave, puts the user into a role of
the application's `AppProject`, and takes the user out again when the access expires, when the
application moves or disappears, or when the request is deleted. A backend offers roles, finds the
binding that grants one and creates requests.

This project models that behaviour in Dafny and proves what the controller and the backend are for.

## How the model is built

* **The world** (`Cluster.dfy`). A versioned store holds requests, projects, applications, templates
  and the clock. Every API or plugin call first lets other actors do any number of things (time
  passes; requests are created, deleted and edited; applications, templates and projects change) and
  then succeeds, is refused, or takes effect while its answer is lost. The plugin answers anything,
  declared or not, or fails. All of this is a script of turns, so a statement about every script is a
  statement about every interleaving with one reconciliation running at a time, which is how the
  controller is set up. `trail` keeps every store passed through.
* **What the controller does**, twice. `Permission.dfy` and `Reconcile.dfy` say it as functions of the
  world; the theorems are about them. `Objects.dfy`, `Service.dfy` and `Reconciler.dfy` do it the way
  the program does: an `AccessRequest` whose status is changed in place, an `AppProject` whose roles
  are edited in loops, retry loops that read and patch again. Every method is proved equal to its
  function, so a theorem about the function is one about the method.
* **Theorems about runs** (`Safety.dfy`, `Outside.dfy`, `Writes.dfy`, `Edits.dfy`,
  `PermissionSafety.dfy`, `FinalizerSafety.dfy`, `ReconcileSafety.dfy`, `Runs.dfy`). `Safety.Sound` says
  that every store of a run is fine and every step legal; each call, each method and each run keeps it.
  The statements about single requests are read off it, and so is who stands behind every membership
  (`Backing.dfy`).
* **Retries** (`Edits.dfy`, `Retries.dfy`): an edit that somebody else's writes disturb is tried five times,
  loses no update, and ends in a conflict only when all five have lost.
* **At most one request in flight** (`OneInFlight.dfy`, `HazardRuns.dfy`): the exact condition.
* **Revocation** (`Revocation.dfy`, `Membership.dfy`): when it is and when it is not complete, with the
  exact condition over whole reconciliations in which any call may fail but nobody else acts. **Who loses
  a membership** (`Keeping.dfy`): exactly which reconciliations take which member out of a role, and that
  a grant is kept until its ExpiresAt.
* **What a reconciliation leaves alone** (`StillRuns.dfy`), with other actors doing anything that does not
  concern a given request, or nothing at all.
* **What is accomplished when nobody interferes** (`CalmRuns.dfy`, `CalmVisits.dfy`), **deadlines**
  (`Deadlines.dfy`, `Polling.dfy`): pending requests are concluded and expired ones revoked in time, with
  anything done in between that leaves them alone; and **convergence** (`Convergence.dfy`): drifted roles
  are repaired once and for all.
* **The failures do occur** (`Reachability.dfy`, `GrantRuns.dfy`): clean runs from the start that lead to
  each of them.
* **Around it**: the algebra of role edits and its convergence (`Roles.dfy`), the filter on project
  updates (`WatchFilter.dfy`), status history (`Requests.dfy`), template rendering (`Templates.dfy`),
  the backend's orders and bindings (`Sorting.dfy`, `Ordering.dfy`, `Backend.dfy`) and its names
  (`Generator.dfy`).

## What is assumed

* One reconciliation at a time; every read returns what is stored; ids are never used again; nobody but
  the controller writes a request's status or removes its finalizer.
* Where a statement says *clean*: nobody else adds a group to a role whose name starts with
  `ephemeral-`, and a role template keeps its `spec.name`. The evidence of a run records whether this
  held, so nothing else about other actors is assumed.
* A template hash identifies the rendered template.
* The exact conditions on whole reconciliations take the configured request timeout to be no negative
  number.

## Where the program does not do what it says

* The conflict check lets the *newest* of several uninitialised requests through
  (`internal/controller/accessrequest_controller.go:237-241`), where its comment says the older one
  proceeds: `OneInFlight.NewestPasses`.
* A request marked invalid by the conflict check goes on to permission handling in the same
  reconciliation (lines 141-151). A new request then fails to render for its empty target project, but
  one left in `initiated` can be granted beside its rival: `HazardRuns.AtMostOneIffNoHazard` gives the
  exact condition. Requests without a user name are in no index and escape the check.
* A granted request can be concluded, and so never looked at again, with its user still in the role.
  Without failures this happens exactly when its application names no project
  (`internal/controller/service.go:86-94`), or when it is found in conflict (lines 141-151 of the
  controller) and nothing that follows revokes it, grants it again or leaves it pending:
  `Membership.SmoothStrandedIff`. `Membership.StrandedIff` gives the condition with any calls failing
  and any answers lost, `Membership.RivalledStrandedIff` that of a request with a rival, and
  `Reachability.StrandedIsReachable` and `GrantRuns.ProjectlessIsReachable` clean runs from the start
  that end so. In clean runs no other granted request is concluded with its user in the role, and the
  conflict or the empty project is then one that the reconciliation which concludes it has found for that
  very version of it: `Runs.EveryConclusionRevokes`, `Runs.ConcludedByItsOwnFinding`.
* A grant whose patch takes effect while its answer is lost, or whose status write fails, leaves the
  user in the role without a granted request (`internal/controller/service.go:236-253`):
  `Membership.GrantOutcome` says exactly when, `GrantRuns.LostGrantIsReachable` gives a run, and
  `Backing.EveryMemberIsApproved` says that such grants and the two cases before are the only memberships
  without a granted request.
* A granted request can lose its user without being concluded: two requests with the same user, project
  and template name share one membership, and revoking either takes it away from both:
  `Keeping.DispossessedIff` gives the exact condition, `Reachability.DispossessedIsReachable` a run.
* Requests whose templates share a name but not a role description undo each other's syncs for ever:
  `Convergence.QuarrelNeverEnds`. Without such requests syncing comes to an end.
* A plugin status that is none of the declared ones ends in the grant: `CalmVisits.AnswerDecides`.
* The clean-up of a deleted request dereferences a nil template exactly when the request is not
  expired, its target project is stored, and its template is missing or cannot be rendered; the request
  then stays, and its user in the role: `CalmVisits.DeletionPanicsIff`, `ReconcileSafety.PanicsIff` for
  every disturbed run, and `GrantRuns.PanicIsReachable`.
* The order of access bindings is no order at all when an ordinal mixes unnamed bindings with
  differently named ones: `Ordering.OrdinalSortIsPreorder`.

## Model

| member | source | states |
|---|---|---|
| Runs.NoOrphanMembership | internal/controller/accessrequest_controller.go:440-491 | in every store of every clean run, each member of an ephemeral role is backed by a stored request with the finalizer, that target project, role name and user, neither uninitialised nor expired |
| Backing.EveryMemberIsApproved | internal/controller/service.go:199-254 | in every store of every clean run, each member of an ephemeral role is backed by a request that the plugin, if there is one, allowed, and that is granted; or whose grant was overruled by a conflict or an empty project found for that version of it, and not renewed in any store since; or whose grant brought the user in and has not been recorded in any store since |
| Runs.LifeOfARequest | internal/controller/accessrequest_controller.go:88-167 | between any two stores of any run from the start: ExpiresAt, once set, is the same, the history is well-formed, a grant was approved, and a request never found in conflict has only moved up the lifecycle and is final once concluded |
| Runs.RunSound | internal/controller/accessrequest_controller.go:88-167 | any sequence of reconciliations and outside actions, with any API call failing and any plugin answer, keeps every store fine and every step legal |
| Runs.ExpiryIsNeverExtended | api/ephemeral-access/v1alpha1/accessrequest_types.go:165-173 | once set, ExpiresAt is the same in every later store, even across an invalid-then-granted reconciliation |
| Runs.ExpiryIsSetByTheGrant | api/ephemeral-access/v1alpha1/accessrequest_types.go:169-173 | ExpiresAt appears only with a grant, as the time recorded for it plus the requested duration; granted and expired requests always have it |
| Runs.ExpiresInTime | api/ephemeral-access/v1alpha1/accessrequest_types.go:234-240 | in every store of every run from the start, an expired request was recorded as expired at a time later than its ExpiresAt |
| Runs.TimesOutInTime | internal/controller/accessrequest_controller.go:409-433 | in every run from the start, the step that times a request out comes later than the configured timeout, which is not 0, after the last entry of its history |
| Runs.ExpiredAfterRemoval | internal/controller/service.go:298-323 | in a clean run a request becomes expired only when no role of its role name in its target project holds its user any more |
| Runs.EveryConclusionRevokes | internal/controller/accessrequest_controller.go:141-167 | in every clean run, with any calls failing and any answers lost, the step that concludes a granted request leaves its user out of the role, unless that very version of the request was found in conflict or with an empty project, and then it is made invalid |
| Runs.ConcludedByItsOwnFinding | internal/controller/accessrequest_controller.go:141-167 | when it leaves the user in the role, the conflict or the empty project was found by the reconciliation that concludes the request, not by an earlier one |
| Runs.HistoryIsWellFormed | api/ephemeral-access/v1alpha1/accessrequest_types.go:165-192 | the history is empty iff the state is, ends with the current state, never repeats an entry, is in time order, and grows only by appending or by restamping its last entry |
| Runs.LifecycleIsADag | internal/controller/service.go:149-254 | without a conflict the states go up the lifecycle once: requested may repeat, granted ends only in expired or invalid, expired comes only after granted, all but invalid only after initiated |
| Runs.GrantsAreApproved | internal/controller/service.go:686-708 | in every run from the start, a granted request of any store has had a granted, or an undeclared, answer of the plugin to its own grant call, if there is a plugin |
| Runs.GrantedByItsOwnAnswer | internal/controller/service.go:199-254 | every step of a reconciliation that turns its request granted, for the first time or again after a conflict, has had that answer in this reconciliation, not an earlier one |
| Runs.ConcludedIsAbsorbing | internal/controller/accessrequest_controller.go:134-138 | a request stored as denied, expired, invalid or timed out when a reconciliation ends keeps its whole status in every later store of every run |
| Runs.OnlyOverdueIsDeleted | internal/controller/accessrequest_controller.go:304-347 | in every run a request that no other actor deletes stays stored and unmarked until it is concluded and the TTL deadline of its last entry has passed |
| ReconcileSafety.ReconcileSound | internal/controller/accessrequest_controller.go:88-167 | a reconciliation keeps the run sound, changes the status of no other request and of none that was concluded, and dereferences nil at most in the clean-up of a deleted request; PanicsIff says when |
| ReconcileSafety.PanicsIff | internal/controller/accessrequest_controller.go:463-477 | however disturbed, a reconciliation dereferences nil exactly when its reads find a request marked for deletion, with the finalizer and not expired, whose template is not read, missing or broken while its target project is read |
| ReconcileSafety.HandleTTLSound | internal/controller/accessrequest_controller.go:304-329 | the controller itself deletes a request only when it is concluded, a TTL is set and last transition plus TTL has passed, and says so only of one that is then marked or gone |
| ReconcileSafety.HandleConflictSound | internal/controller/accessrequest_controller.go:172-192 | the conflict check changes no status but the request's own and leaves a request that may go on |
| ReconcileSafety.WriteTimeoutSound | internal/controller/accessrequest_controller.go:381-395 | once the timeout has passed, retrying to record it on fresh copies keeps the run sound, changes no other request, and on success has stored the timeout |
| ReconcileSafety.WriteTimeoutStores | internal/controller/accessrequest_controller.go:381-395 | whether it succeeds or not, that write leaves the status that was stored, or a timeout with its message |
| ReconcileSafety.HandleRequestTimeoutSound | internal/controller/accessrequest_controller.go:409-433 | answers true only with the stored request timed out, and otherwise has changed nothing |
| ReconcileSafety.BuildResultSafe | internal/controller/accessrequest_controller.go:248-266 | the ExpiresAt and last-history-entry dereferences are safe in every reachable state |
| FinalizerSafety.HandleFinalizerSound | internal/controller/accessrequest_controller.go:440-491 | changes no status, lets the reconciliation go on only with the finalizer stored, and ends it without error only with the request gone |
| FinalizerSafety.AddFinalizerSound | internal/controller/accessrequest_controller.go:446-455 | on success the in-memory copy is the stored request, with the finalizer |
| FinalizerSafety.CleanupSound | internal/controller/accessrequest_controller.go:466-476 | when the clean-up succeeds, the user of a request that is not expired and has a target is in no role of its name there, so that the finalizer may go |
| FinalizerSafety.DropFinalizerSound | internal/controller/accessrequest_controller.go:479-487 | dropping the finalizer after the clean-up orphans no membership, however often it is retried, and succeeds only with the request gone |
| Retries.AddIsRetried | internal/controller/accessrequest_controller.go:446-455 | adding the finalizer ends in a conflict exactly when five attempts in a row have each lost to somebody else's write, after ten calls; after fewer, one that nobody disturbs succeeds |
| Retries.DropIsRetried | internal/controller/accessrequest_controller.go:479-487 | the same of dropping it; and a request that is no longer stored is dropped with success and without a write |
| Retries.TimeoutIsRetried | internal/controller/accessrequest_controller.go:381-395 | the timeout write ends in a conflict exactly when five writes in a row come too late, after five writes and four reads; after fewer, one that comes in time succeeds |
| PermissionSafety.HandlePermissionSound | internal/controller/service.go:149-254 | whatever goes wrong, permission handling keeps the run sound, changes no other request, and answers exactly the state it leaves stored |
| PermissionSafety.AllowedIsInSync | internal/controller/service.go:210-217 | a granted request that the plugin allows is answered for without error only with its role in sync and its user in it, however disturbed |
| PermissionSafety.ValidateProjectSound | internal/controller/service.go:83-137 | true only for a non-empty project equal to the request's target with nothing changed; false only with the request stored as invalid |
| PermissionSafety.RevokeThenRecord | internal/controller/service.go:298-323 | expiry, project move and missing application are recorded only after the user has left the role |
| PermissionSafety.UpdateStatusSound | internal/controller/service.go:549-562 | a status update moves the stored request along the lifecycle and leaves the copy equal to what is stored |
| Writes.PutStatusSound | internal/controller/service.go:549-562 | a status write succeeds only on the version read; a conflict leaves the stored status the one the copy had |
| Writes.PatchCommit | internal/controller/service.go:435-457 | a project edit made for a loaded, active request orphans nobody |
| Edits.EditProjectSound | internal/controller/service.go:330-360 | every retried edit keeps the run sound and changes no request; a revocation that reports success leaves the user in no role of that name in the target project |
| Edits.NoLostUpdate | internal/controller/service.go:387-416 | whatever others do between read and patch, the retried cycle ends with the world they left untouched, or with this edit applied to exactly the roles stored just before the patch, after at most ten calls |
| Edits.ConflictIff | internal/controller/service.go:336-359 | an edit of a project ends in a conflict exactly when five attempts in a row have each lost to somebody else's write between read and patch; ten calls have been made then, and the world is as the others left it |
| Edits.UnracedSucceeds | internal/controller/service.go:435-457 | after fewer than five attempts lost to somebody else's write, one that nobody disturbs reports success |
| Edits.SuccessWrote | internal/controller/service.go:387-416 | an edit that reports success has written, role by role, what WhatEditsWrite says into the roles that others had left just before; only a sync that finds its role in sync writes nothing |
| Edits.SuccessIsInSync | internal/controller/service.go:428-466 | a grant or sync that reports success leaves the role in sync and the user in it, and a further sync has nothing to write |
| Roles.GrantMembership | internal/controller/service.go:631-665 | a grant makes the user a member of the role and changes no other membership |
| Roles.RevokeMembership | internal/controller/service.go:330-360 | a revocation takes the user out of every role of the name, keeps every other membership, role position and group order, writes the template's description and policies and no token into those roles, and touches no other role |
| Roles.GrantEditIsSyncEdit | internal/controller/service.go:443-447 | adding then syncing policies equals syncing then adding |
| Roles.WhatEditsWrite | internal/controller/service.go:567-665 | role by role, what grant, sync and revocation leave: every role of the name has the template's description and policies, no token, and its groups with the user behind them unless it was one, unchanged, or without the user; every other role is as it was; a grant adds the role, of the user alone, exactly when there was none |
| Prelude.WithoutNext | internal/controller/service.go:575-581 | read from left to right, a group is kept behind those kept before it unless it is the user |
| Roles.AddIsIdempotent | internal/controller/service.go:631-652 | adding a subject twice is adding it once |
| Roles.RemoveUndoesAdd | internal/controller/service.go:567-584 | removing a subject that was absent before its addition restores every role; a role created by the addition stays, empty |
| Roles.AddsCommute | internal/controller/service.go:631-652 | additions of different users commute up to the order of groups |
| Roles.AddAndRemoveCommute | internal/controller/service.go:567-584 | an addition and a removal of different users commute exactly |
| Roles.RemovalsCommute | internal/controller/service.go:567-584 | removals from the roles of a project commute |
| Roles.GrantEditSyncs | internal/controller/service.go:590-609 | after a grant the in-sync test, whose exact meaning is InSyncIff, holds for that template and user |
| Roles.GrantEditKeepsOthersInSync | internal/controller/service.go:590-627 | a sync unsyncs no request with another role name or the same rendered template |
| Roles.SyncConverges | internal/controller/service.go:372-421 | every sync of an out-of-sync request strictly lowers the number of requests out of sync, so the loop of patch, watch and reconcile ends |
| Convergence.SyncVisit | internal/controller/service.go:372-421 | an undisturbed, allowed visit to a granted request makes exactly the sync of its role when the role has drifted, and changes nothing that is stored when it has not |
| Convergence.TourConverges | internal/controller/service.go:372-421 | in any sequence of such visits, where requests with the same role name agree on what the role holds, projects are written at most as often as there were granted requests out of sync; those visited are in sync in the end and no other has gone out of sync |
| Convergence.SettledStaysSettled | internal/controller/service.go:372-421 | once no granted request of the project is out of sync, such visits change nothing that is stored |
| Convergence.QuarrelNeverEnds | internal/controller/service.go:590-609 | of two granted requests with the same role name and different descriptions one is out of sync whatever the roles are |
| WatchFilter.MatchIsPermutation | internal/controller/accessrequest_controller.go:807-826 | on duplicate-free lists the policy and token comparison is equality up to order |
| WatchFilter.InSyncIff | internal/controller/service.go:590-609 | a role without repeated policies is in sync exactly when it exists and every role of its name has the description and, up to order, the policies of the template, no token, and for a granted request its user |
| WatchFilter.IgnoredPairsRoles | internal/controller/accessrequest_controller.go:763-802 | an ignored update pairs every new role with the old role of its name, both ways |
| WatchFilter.FilterSoundness | internal/controller/accessrequest_controller.go:763-802 | ignoring an update gives every request and template the same in-sync answer exactly when no pair of roles of one name hides an element behind a duplicate |
| WatchFilter.FilterOnDuplicateFreeRoles | internal/controller/accessrequest_controller.go:763-777 | with unique names and duplicate-free lists the filter is sound and symmetric |
| WatchFilter.IgnoredIff | internal/controller/accessrequest_controller.go:763-802 | a mere reordering of roles and of their lists never triggers when no two roles agree in name and description; with unique names and no repetition nothing else is ignored |
| OneInFlight.ConflictFound | internal/controller/accessrequest_controller.go:210-244 | a conflict is reported iff the list holds a conflicting request |
| Cluster.SiblingsHold | internal/controller/accessrequest_controller.go:536-555 | the list call finds exactly the stored requests of the namespace, user and application, and none when a part of the key is empty |
| CalmVisits.UnopposedIff | internal/controller/accessrequest_controller.go:210-244 | the check passes exactly when a part of the key is empty or no other stored request of that namespace, user, application and template is requested, granted, or uninitialised and created later |
| CalmVisits.ConflictIsRecorded | internal/controller/accessrequest_controller.go:172-192 | left alone, a request that fails the check is recorded as invalid, with a message about a request that stands in its way |
| OneInFlight.NewestPasses | internal/controller/accessrequest_controller.go:237-241 | among uninitialised requests one is turned away exactly when another was created after it |
| OneInFlight.RivalFound | internal/controller/accessrequest_controller.go:536-555 | a request in flight for the same user, application and role is always found, if user and application are named |
| OneInFlight.CopyKeepsAtMostOne | internal/controller/accessrequest_controller.go:141-151 | a reconciliation of a request outside the hazard keeps at most one request in flight |
| HazardRuns.AtMostOneIffNoHazard | internal/controller/accessrequest_controller.go:141-151 | a reconciliation keeps at most one request in flight, whatever happens in it, exactly when it is not of an initiated request (or a new one without user name) that has a rival, is not being deleted and names its application |
| HazardRuns.CleanIffNoHazard | internal/controller/accessrequest_controller.go:141-151 | the same condition is exact when nobody else may add to an ephemeral role or rename a template |
| Reachability.HazardIsReachable | internal/controller/accessrequest_controller.go:141-151 | a clean run from the start reaches the hazard: a request left initiated by a failing plugin, and a second one granted meanwhile |
| Reachability.GrantedRivalIsReachable | internal/controller/accessrequest_controller.go:141-151 | one more visit grants both: two granted requests for one role, each the other's rival |
| Reachability.StrandedIsReachable | internal/controller/accessrequest_controller.go:141-192 | and one more concludes the first of them, granted and with its user in the role until then, with its user still in the role, all in a clean run from the start |
| Reachability.DispossessedIsReachable | internal/controller/accessrequest_controller.go:463-477 | instead, deleting one of the two takes the user out of the role while the other stays granted |
| GrantRuns.ProjectlessIsReachable | internal/controller/service.go:86-94 | a clean run from the start gives a granted request, its user in the role, whose application has lost its project, and one more visit concludes it with the user still there |
| GrantRuns.PanicIsReachable | internal/controller/accessrequest_controller.go:463-477 | a clean run from the start gives a granted request marked for deletion without its template; its reconciliation dereferences nil and leaves everything as it is |
| GrantRuns.LostGrantIsReachable | internal/controller/service.go:236-254 | a clean run from the start in which the answer of the grant's patch is lost ends with the request denied and its user in the role |
| HazardRuns.RunKeepsAtMostOne | internal/controller/accessrequest_controller.go:141-151 | over every run in which no reconciliation starts on a request that is in the hazard then, at most one request per namespace, user, application and role is requested or granted |
| Revocation.GrantedMadeInvalid | internal/controller/service.go:99-118 | when permission handling, however disturbed, answers that a granted request is invalid, its user is out of the role or its application names no project |
| Revocation.RemovedUnlessProjectEmpty | internal/controller/service.go:86-94 | a granted request that permission handling finds invalid loses its membership exactly when its application does not exist or names a project |
| Revocation.ConflictKeepsMembers | internal/controller/accessrequest_controller.go:172-192 | one instance: a granted request with a rival that the plugin now denies ends denied with its project's roles as they were; RivalledStrandedIff has all |
| Membership.StrandedIff | internal/controller/accessrequest_controller.go:88-167 | with any calls failing, any answers lost and any plugin reply but nobody else acting, the exact condition on which a granted request whose user is in the role ends its reconciliation concluded with the user still there |
| Membership.RivalledStrandedIff | internal/controller/accessrequest_controller.go:141-192 | for a granted request with a rival, exactly which answers and failures after the conflict write do that |
| Membership.SmoothStrandedIff | internal/controller/accessrequest_controller.go:88-167 | when no call fails, it happens exactly when the application names no project, or a conflict is found and the application moved, the template cannot be rendered, or the plugin denies or fails |
| Membership.GrantOutcome | internal/controller/service.go:236-254 | when nobody else acts, a first grant is recorded exactly when the project is read, the patch answered and the status not refused, while the user is in the role as soon as the patch takes effect; with a lost answer the request is denied with its user in the role |
| StillRuns.ReconcileFollows | internal/controller/accessrequest_controller.go:88-167 | a reconciliation that nobody interferes with touches no request but its own, no application or template, adds and drops no project, and leaves the clock |
| StillRuns.ReconcileGoes | internal/controller/accessrequest_controller.go:88-167 | a reconciliation during which other actors do nothing that concerns another request spares that request, its application, template and target project, and brings in no other request for the same |
| Keeping.LostIff | internal/controller/accessrequest_controller.go:88-167 | when nobody interferes and no call fails, a member loses its role in a reconciliation exactly when that reconciliation revokes (clean-up of a request not expired, missing application, project move of a granted request, expiry) and the place is that of its own request |
| Keeping.DispossessedIff | internal/controller/service.go:330-360 | the reconciliation of another request leaves a granted request as it is, and takes its user out of the role exactly when the other has the same place and is revoked |
| Keeping.KeptUntilExpiry | internal/controller/service.go:175-183 | as long as its ExpiresAt has not passed, a granted request in its own project without a conflict stays as it is through its reconciliations, and its user in the role, whatever calls fail and whatever the plugin replies, if nobody else acts |
| CalmVisits.FirstVisit | internal/controller/accessrequest_controller.go:88-167 | left alone, one reconciliation of a new, unopposed request initialises it and does what the plugin answers, or grants it when there is no plugin: the exact request, with status, history and ExpiresAt, and project roles it ends with |
| CalmVisits.InterruptedVisit | internal/controller/service.go:189-205 | left alone but for a plugin that fails, that reconciliation leaves the request initialised and protected, and every project as it was |
| CalmVisits.AnswerDecides | internal/controller/service.go:199-254 | left alone, an initialised request is recorded as denied on denied, as requested on pending, and as granted, with its user added to the role and nothing else changed, on any other answer and without a plugin |
| CalmVisits.ExpiryIsCarriedOut | internal/controller/service.go:175-183 | left alone, a request whose ExpiresAt has passed is recorded as expired, with the plugin's message if there is one, its user out of the role and only the roles of its name written |
| CalmVisits.UnallowedIsLeftAlone | internal/controller/service.go:199-217 | left alone, a granted request that the plugin does not allow at a later visit changes nothing that is stored |
| CalmVisits.FailedGrantIsRecorded | internal/controller/service.go:236-254 | a grant that fails, however disturbed, is then recorded as invalid when the project is gone and as denied otherwise, with the error in its message |
| CalmVisits.DriftIsRepaired | internal/controller/service.go:210-217 | left alone and allowed, a visit to a granted request leaves its role in sync, whatever was done to the role |
| CalmVisits.MissingAppIsCarriedOut | internal/controller/service.go:265-294 | left alone, a request whose application is gone is recorded as invalid, with that message and its user out of the role if it has a target, exactly unless its template cannot be rendered; then nothing is written |
| CalmVisits.ProjectMoveIsCarriedOut | internal/controller/service.go:99-118 | the same for a granted request whose application has moved to another project |
| CalmVisits.MissingProjectIsCarriedOut | internal/controller/service.go:86-136 | left alone, a request whose application names no project, or one that is not stored, is recorded as invalid with the message that says so, and no project is changed |
| CalmVisits.AbsentIsDone | internal/controller/accessrequest_controller.go:88-98 | the reconciliation of a request that is not stored any more ends without error or wake-up after that one read; a failing read ends it with the error |
| CalmVisits.DeletionIsCarriedOut | internal/controller/accessrequest_controller.go:463-490 | left alone, a request marked for deletion goes, and its user leaves the role unless it had expired before; when its clean-up has a project and no template, nothing changes |
| CalmVisits.DeletionPanicsIff | internal/controller/accessrequest_controller.go:463-477 | left alone, its reconciliation dereferences nil exactly when it is not expired, its target project is stored and its template is missing or cannot be rendered, and then everything stays stored as it was |
| CalmVisits.TTLIsCarriedOut | internal/controller/accessrequest_controller.go:304-329 | left alone, a concluded request past its TTL deadline is marked for deletion |
| Deadlines.WakesInTime | internal/controller/accessrequest_controller.go:248-266 | every reconciliation that ends without error on a stored request asks to be woken exactly at expiry, at the TTL deadline, or after the polling interval |
| Polling.PendingIsConcluded | internal/controller/accessrequest_controller.go:409-433 | polled at least every polling interval, with any operations between the polls that find it still waiting, a request the plugin leaves pending is concluded after its deadline and no later than last transition plus timeout plus polling interval |
| Polling.OtherVisitKeepsWaiting | internal/controller/accessrequest_controller.go:88-167 | a visit to another request that is no hazard, with any calls failing, any plugin reply and other actors doing anything in it that does not concern the request, leaves it waiting |
| Polling.EventKeepsWaiting | internal/controller/accessrequest_controller.go:210-244 | so does every single thing other actors do that does not concern it |
| Polling.GapKeepsWaiting | internal/controller/accessrequest_controller.go:88-167 | and so does any run of such visits and actions, which is what may happen between two polls |
| Polling.ExpiryIsMet | internal/controller/service.go:298-323 | a granted request visited within a delay of ExpiresAt, after any operations that leave it granted, has its user out of the role and its expiry recorded within that delay |
| Requests.RecordedHistory | api/ephemeral-access/v1alpha1/accessrequest_types.go:165-192 | recording keeps the history well formed, grows it by at most one entry and ends it with the new state, message and time |
| Requests.CurrentMessageIsLast | api/ephemeral-access/v1alpha1/accessrequest_types.go:213-230 | the by-state lookup of the current state is the last entry |
| Requests.UpdateIsIdempotent | internal/controller/service.go:549-562 | the skip test agrees with the last entry, and holds after recording |
| Requests.LastForFinds | api/ephemeral-access/v1alpha1/accessrequest_types.go:213-220 | the backward search finds an entry iff there is one of the state, and then the latest |
| Templates.SplitJoin | api/ephemeral-access/v1alpha1/roletemplate_types.go:89-100 | joining and splitting at newlines gives a list back exactly when it is non-empty and no line holds a newline |
| Templates.RenderIsPointwise | api/ephemeral-access/v1alpha1/roletemplate_types.go:70-103 | rendering the joined policies equals rendering each alone exactly when there is a policy and no rendered one holds a newline; the role name never changes |
| Templates.RenderFailsIff | api/ephemeral-access/v1alpha1/roletemplate_types.go:70-100 | rendering fails exactly on an empty project, application or namespace, or on a description or policy that does not parse |
| Templates.TextRenders | api/ephemeral-access/v1alpha1/roletemplate_types.go:106-120 | wherever it stands in a text, literal text is kept, and the variables for project, application, namespace and role become the project, the application's name, its namespace, and proj:project:ephemeral-name-namespace-application |
| Templates.RendersTo | api/ephemeral-access/v1alpha1/roletemplate_types.go:70-128 | so for a whole template: a description and policy that hold a variable between two texts are rendered to those texts with its value between, if that is one line; reference and name stay |
| Objects.AccessRequest.UpdateStatusHistory | api/ephemeral-access/v1alpha1/accessrequest_types.go:165-192 | the in-place update gives the status the theorems are about |
| Objects.IsLastHistorySameAsCurrent | api/ephemeral-access/v1alpha1/accessrequest_types.go:195-208 | true exactly when the last entry has the state and message |
| Objects.AccessRequest.GetLastHistory | api/ephemeral-access/v1alpha1/accessrequest_types.go:213-220 | the backward loop finds the most recent entry of the state |
| Objects.AccessRequest.GetLastStatusDetails | api/ephemeral-access/v1alpha1/accessrequest_types.go:224-230 | the message of that entry, or none |
| Objects.AppProject.RemoveSubjectFromRole | internal/controller/service.go:567-584 | the in-place loops make the edit of module Roles |
| Objects.AppProject.UpdateProjectPolicies | internal/controller/service.go:615-627 | the loop makes that edit, which in every role of the name writes the template's description and policies and no token, leaves the groups, and touches no other role |
| Objects.AppProject.AddSubjectInRole | internal/controller/service.go:631-652 | the same for the addition, including the new role |
| Objects.AppProject.AddRoleInProject | internal/controller/service.go:656-665 | appends one role of the name, with the template's description and policies, no token, and the user as its only group |
| Objects.AppProject.IsRoleInSync | internal/controller/service.go:590-609 | true exactly when a role of the name exists and all of them match |
| Objects.MatchRolePoliciesAndTokens | internal/controller/accessrequest_controller.go:807-826 | equal lengths, and every policy and token found in the other list |
| Service.RenderTemplate | api/ephemeral-access/v1alpha1/roletemplate_types.go:70-103 | step-by-step rendering gives the rendered template, with an error exactly on an empty project, application or namespace or a text that does not parse |
| Service.PermissionService.UpdateStatus | internal/controller/service.go:549-562 | skips, or records in place and writes, as the function says |
| Service.PermissionService.GetRenderedRole | internal/controller/service.go:61-72 | reads and renders the template |
| Service.PermissionService.RemoveArgoCDAccess | internal/controller/service.go:330-360 | the retry loop makes the revocation: on success the user is in no role of the name in the target project and the roles stored just before have been written role by role; a conflict is reported exactly after five raced attempts and ten calls |
| Service.PermissionService.EnsureRoleIsSynced | internal/controller/service.go:372-421 | the retry loop makes the sync: on success the roles stored just before have been written role by role, unless they were in sync, and a granted request's role holds the user; a conflict is reported exactly after five raced attempts and ten calls |
| Service.PermissionService.GrantArgoCDAccess | internal/controller/service.go:428-466 | the retry loop makes the grant: granted means the roles stored just before have been written role by role, a missing project means invalid, any other error denied; a conflict is reported exactly after five raced attempts and ten calls |
| Service.PermissionService.HandleAppNotFound | internal/controller/service.go:265-294 | the method does what the function of the theorems says |
| Service.PermissionService.HandleProjectChanged | internal/controller/service.go:99-118 | the same for a project move |
| Service.PermissionService.ValidateProject | internal/controller/service.go:83-137 | the same for validation |
| Service.PermissionService.HandleAccessExpired | internal/controller/service.go:298-323 | the same for expiry |
| Service.PermissionService.Allowed | internal/controller/service.go:686-708 | the same for the plugin call |
| Service.PermissionService.HandlePermission | internal/controller/service.go:149-254 | the method equals the function of the theorems; started on an active request of a sound run it keeps the run sound, changes no other request and answers the state it leaves stored |
| Reconciler.HasRoleIn | internal/controller/accessrequest_controller.go:783-802 | the loop decides by the first role of the same name and description |
| Reconciler.ProjectChangeShouldTriggerReconcile | internal/controller/accessrequest_controller.go:763-777 | the loop is the filter of module WatchFilter; an absent project always triggers |
| Reconciler.ValidateConflict | internal/controller/accessrequest_controller.go:210-244 | the loop with its skips finds the first conflicting request |
| Reconciler.AccessRequestReconciler.HandleFinalizer | internal/controller/accessrequest_controller.go:440-491 | the method does what the function of the theorems says |
| Reconciler.AccessRequestReconciler.HandleTTL | internal/controller/accessrequest_controller.go:304-347 | the same for the TTL |
| Reconciler.AccessRequestReconciler.WriteTimeout | internal/controller/accessrequest_controller.go:381-395 | the same for the retried timeout write |
| Reconciler.AccessRequestReconciler.HandleRequestTimeout | internal/controller/accessrequest_controller.go:361-433 | the same for the request timeout |
| Reconciler.AccessRequestReconciler.HandleConflict | internal/controller/accessrequest_controller.go:172-192 | the same for the conflict check |
| Reconciler.AccessRequestReconciler.Reconcile | internal/controller/accessrequest_controller.go:88-167 | the method equals the function of the theorems, keeps a sound run sound and changes the status of no other request |
| Sorting.SortIsStable | internal/backend/service.go:138-140 | on a total preorder the sort gives an ordered list that keeps equivalent elements in their order |
| Sorting.SortPermutes | internal/backend/service.go:138-140 | the sort gives a permutation under any comparison |
| Sorting.StableOrderIsUnique | internal/backend/service.go:138-140 | any ordered, stable permutation is the same list, so the sorting algorithm does not matter |
| Ordering.CompareTransitive | internal/backend/service.go:368-375 | string comparison is transitive, strictly where either step is strict |
| Ordering.DefaultSortIsPreorder | internal/backend/service.go:383-409 | the order of access requests is a total preorder on every list |
| Ordering.DefaultSortOpposite | internal/backend/service.go:383-409 | it is antisymmetric, and ties exactly on equal importance, ordinal, role name and creation time |
| Ordering.DefaultSortSpelledOut | internal/backend/service.go:64-78 | and it is the order meant: new, initiated and requested requests first, then granted, denied and timed out, invalid, and expired ones; among those the lower ordinal, then the smaller role name, then the newer request |
| Ordering.CompareIsLexicographic | internal/backend/service.go:402-404 | strings compare as in a dictionary: by the first character where they differ, a prefix first |
| Ordering.OrdinalSortSpelledOut | internal/backend/service.go:368-375 | of two bindings the one with the higher ordinal comes first, and of two named ones with the same ordinal the one with the smaller name |
| Ordering.OrdinalSortIsPreorder | internal/backend/service.go:368-375 | the order of access bindings is a total preorder on a list exactly when no ordinal mixes an unnamed binding with differently named ones |
| Backend.ListAccessBindings | internal/backend/service.go:319-333 | every binding of the role in the Argo CD namespace and then in the controller's, as often as it is stored; an error of either call is returned |
| Backend.ListAllAccessBindings | internal/backend/service.go:337-359 | every binding of both namespaces, in that order, as often as it is stored |
| Backend.MatchSubject | internal/backend/service.go:219-226 | true exactly when some subject is one of the groups |
| Backend.GetGrantingAccessBinding | internal/backend/service.go:145-178 | the first binding of the role in those namespaces one of whose subjects is among the groups, none exactly when there is none |
| Backend.GetAccessBindingsForGroups | internal/backend/service.go:183-216 | every granting binding as often as it is listed; when the order is one, higher ordinals first, then smaller names, and stable |
| Backend.NamespaceComesFirst | internal/backend/service.go:319-333 | a granting binding of the Argo CD namespace is preferred to every one of the controller's |
| Backend.OfferedIsGrantable | internal/backend/service.go:145-216 | a role is granted exactly when a binding of it is offered, and by one of those offered; the empty role name alone is never granted |
| Backend.ListAccessRequests | internal/backend/service.go:123-143 | exactly the stored requests of the key; when asked for, in the order spelled out, and those it does not tell apart as they were listed |
| Backend.GetAccessRequestByRole | internal/backend/service.go:99-118 | none exactly when every listed request for the role is denied, expired, invalid or timed out; otherwise one that may stand before all the others, and a granted one only when none is new, initiated or requested |
| Generator.ToMaxLength | internal/backend/generator/generator.go:23-40 | prefixes whose lengths sum to exactly the smaller of the maximum and what there was; at most half of the maximum is kept whole; two longer strings get half each, the first also the odd character |
| Generator.SanitisingIsIdempotent | internal/backend/generator/generator.go:15-20 | the result holds only valid characters, starts alphanumeric, and sanitised names stay as they are |
| Generator.SanitisedNext | internal/backend/generator/generator.go:15-20 | read from left to right, the lower-case form of a character is kept if it is a letter, a digit, or a dash or dot behind a kept one |
| Generator.Lowered | internal/backend/generator/generator.go:16 | ASCII letters in upper case become those in lower case, and the other ASCII characters stay |
| Generator.BeforeAtIsPrefix | internal/backend/service.go:274-275 | the user name is cut at its first at-sign |
| Generator.GetAccessRequestPrefix | internal/backend/service.go:273-290 | the prefix is at most 58 long and shortened only to that: a name of at most 28 is kept whole, two longer ones are cut to 28 each; it uses only valid characters, ends in a dash, and starts alphanumeric exactly when the sanitised user name is non-empty |

## Left out

- Several workers, caches and stale reads: one reconciliation runs at a time and reads what is stored.
- The clock: it moves only at calls, not between two statements, and times are integers rather than
  seconds written to and read from the API, so the two readings of the clock in one status update agree.
- Reconciliation triggers: which events wake the controller is not modelled beyond the filter on
  project updates; runs visit requests in any order.
- Finalizers of others: a request marked for deletion goes with the controller's finalizer.
- Order of list results: requests are listed by ascending id.
- Texts: error messages, and the request's name in a conflict message, are shortened; equality of the
  messages the program compares is kept.
- Generator.ToDNS1123Subdomain: lowering of characters beyond ASCII is any function, and characters
  rather than bytes are counted, which agree on what is left.
- Role template texts are literals and variables; a text that does not parse or run is a broken piece.
- Subjects of a binding, with its condition, are any function of the binding.
- Sums and differences of ordinals and times are mathematical; the overflow of machine integers is not
  modelled.
- Creation times are compared as instants; the location a timestamp carries is not modelled.
- Hashing: the SHA-1 of a template is the template.
- updateStatusWithRetry is not called by the program and is not modelled.
- The HTTP interface, metrics, logging, configuration reading, plugin transport and the user interface.
- Method boundaries: the part of HandlePermission from the expiry check on, and that of Reconcile from
  the conflict check on, are methods of their own, as are the bodies of the retry closures.
