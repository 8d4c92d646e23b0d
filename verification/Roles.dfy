/** The roles of an AppProject and the edits the controller makes to them
    (the role functions of internal/controller/service.go). */
module Roles {
  import opened Prelude
  import opened Templates

  datatype Token = Token(issuedAt: int, expiresAt: int, id: string)

  datatype ProjectRole = ProjectRole(
    name: string,
    description: string,
    policies: seq<string>,
    tokens: seq<Token>,
    groups: seq<string>)

  predicate HasRole(roles: seq<ProjectRole>, name: string) {
    exists i :: 0 <= i < |roles| && roles[i].name == name
  }

  /** Some role called `name` lists `user`. */
  predicate Member(roles: seq<ProjectRole>, name: string, user: string) {
    exists i :: 0 <= i < |roles| && roles[i].name == name && user in roles[i].groups
  }

  // ---------------------------------------------------------------- the three edits

  function RemoveFrom(role: ProjectRole, name: string, user: string): ProjectRole {
    if role.name == name then role.(groups := Without(role.groups, user)) else role
  }

  function RemoveSubject(roles: seq<ProjectRole>, name: string, user: string): (edited: seq<ProjectRole>)
    ensures |edited| == |roles|
  {
    seq(|roles|, i requires 0 <= i < |roles| => RemoveFrom(roles[i], name, user))
  }

  function AddTo(role: ProjectRole, name: string, user: string): ProjectRole {
    if role.name == name && user !in role.groups then role.(groups := role.groups + [user]) else role
  }

  function NewRole(name: string, user: string, rt: Rendered): ProjectRole {
    ProjectRole(name, rt.description, rt.policies, [], [user])
  }

  function AddSubject(roles: seq<ProjectRole>, name: string, user: string, rt: Rendered): (edited: seq<ProjectRole>) {
    var mapped := seq(|roles|, i requires 0 <= i < |roles| => AddTo(roles[i], name, user));
    if HasRole(roles, name) then mapped else mapped + [NewRole(name, user, rt)]
  }

  function SyncRole(role: ProjectRole, name: string, rt: Rendered): ProjectRole {
    if role.name == name then role.(description := rt.description, policies := rt.policies, tokens := []) else role
  }

  function SyncPolicies(roles: seq<ProjectRole>, name: string, rt: Rendered): (edited: seq<ProjectRole>)
    ensures |edited| == |roles|
  {
    seq(|roles|, i requires 0 <= i < |roles| => SyncRole(roles[i], name, rt))
  }

  /** The edit of a grant: the subject first, then the policies. */
  function GrantEdit(roles: seq<ProjectRole>, name: string, user: string, rt: Rendered): seq<ProjectRole> {
    SyncPolicies(AddSubject(roles, name, user, rt), name, rt)
  }

  /** The edit of a sync: the policies first, and the subject only for a granted request. */
  function SyncEdit(roles: seq<ProjectRole>, name: string, user: string, rt: Rendered, granted: bool)
      : seq<ProjectRole>
  {
    var synced := SyncPolicies(roles, name, rt);
    if granted then AddSubject(synced, name, user, rt) else synced
  }

  /** The edit of a revocation. */
  function RevokeEdit(roles: seq<ProjectRole>, name: string, user: string, rt: Rendered): seq<ProjectRole> {
    SyncPolicies(RemoveSubject(roles, name, user), name, rt)
  }

  // ---------------------------------------------------------------- comparison

  predicate Subset<T(==)>(xs: seq<T>, ys: seq<T>) {
    forall i :: 0 <= i < |xs| ==> xs[i] in ys
  }

  predicate MatchPoliciesAndTokens(role: ProjectRole, policies: seq<string>, tokens: seq<Token>) {
    && |role.policies| == |policies|
    && |role.tokens| == |tokens|
    && Subset(role.policies, policies)
    && Subset(role.tokens, tokens)
  }

  predicate RoleInSync(role: ProjectRole, rt: Rendered, user: string, granted: bool) {
    && role.description == rt.description
    && (granted ==> user in role.groups)
    && MatchPoliciesAndTokens(role, rt.policies, [])
  }

  /** Every role called `name` matches the template, and there is one. */
  predicate InSync(roles: seq<ProjectRole>, name: string, rt: Rendered, user: string, granted: bool) {
    && HasRole(roles, name)
    && forall i :: 0 <= i < |roles| && roles[i].name == name ==> RoleInSync(roles[i], rt, user, granted)
  }

  // ---------------------------------------------------------------- what the edits do

  lemma AddKeepsRoles(roles: seq<ProjectRole>, name: string, user: string, rt: Rendered)
    ensures var edited := AddSubject(roles, name, user, rt);
      && |roles| <= |edited| <= |roles| + 1
      && (forall i {:trigger edited[i]} :: 0 <= i < |roles| ==> edited[i] == AddTo(roles[i], name, user))
      && (|edited| == |roles| <==> HasRole(roles, name))
      && (|edited| > |roles| ==> edited[|roles|] == NewRole(name, user, rt))
      && HasRole(edited, name)
  {
    var edited := AddSubject(roles, name, user, rt);
    if HasRole(roles, name) {
      var i :| 0 <= i < |roles| && roles[i].name == name;
      assert edited[i].name == name;
    } else {
      assert edited[|roles|].name == name;
    }
  }

  /** A grant changes no membership but the user's in the named role, and makes the user a
      member there. */
  lemma GrantMembership(roles: seq<ProjectRole>, name: string, user: string, rt: Rendered)
    ensures Member(GrantEdit(roles, name, user, rt), name, user)
    ensures forall n, u :: (n != name || u != user) ==>
              (Member(GrantEdit(roles, name, user, rt), n, u) <==> Member(roles, n, u))
  {
    var added, edited := AddSubject(roles, name, user, rt), GrantEdit(roles, name, user, rt);
    AddKeepsRoles(roles, name, user, rt);
    var k :| 0 <= k < |added| && added[k].name == name;
    assert edited[k].name == name && user in edited[k].groups;
    forall n, u | n != name || u != user
      ensures Member(edited, n, u) <==> Member(roles, n, u)
    {
      if Member(edited, n, u) {
        var i :| 0 <= i < |edited| && edited[i].name == n && u in edited[i].groups;
        assert u in added[i].groups && i < |roles|;
        assert roles[i].name == n && u in roles[i].groups;
      }
      if Member(roles, n, u) {
        var i :| 0 <= i < |roles| && roles[i].name == n && u in roles[i].groups;
        assert edited[i].name == n && u in edited[i].groups;
      }
    }
  }

  /** A revocation leaves no role of that name holding the user. Every other membership
      survives; roles keep their positions, roles of other names are untouched, those of the name
      hold what the template says, and the surviving groups keep their order. */
  lemma RevokeMembership(roles: seq<ProjectRole>, name: string, user: string, rt: Rendered)
    ensures var edited := RevokeEdit(roles, name, user, rt);
      && |edited| == |roles|
      && !Member(edited, name, user)
      && (forall n, u :: (n != name || u != user) ==> (Member(edited, n, u) <==> Member(roles, n, u)))
      && (forall i {:trigger edited[i]} :: 0 <= i < |roles| ==>
            edited[i] ==
              if roles[i].name != name then roles[i]
              else ProjectRole(name, rt.description, rt.policies, [], Without(roles[i].groups, user)))
  {
    var edited := RevokeEdit(roles, name, user, rt);
    forall i | 0 <= i < |roles|
      ensures forall u :: u in Without(roles[i].groups, user) <==> u in roles[i].groups && u != user
    {
      WithoutMembers(roles[i].groups, user);
    }
    forall n, u | n != name || u != user
      ensures Member(edited, n, u) <==> Member(roles, n, u)
    {
      if Member(edited, n, u) {
        var i :| 0 <= i < |edited| && edited[i].name == n && u in edited[i].groups;
        assert roles[i].name == n && u in roles[i].groups;
      }
      if Member(roles, n, u) {
        var i :| 0 <= i < |roles| && roles[i].name == n && u in roles[i].groups;
        assert edited[i].name == n && u in edited[i].groups;
      }
    }
  }

  // ---------------------------------------------------------------- the algebra

  /** Adding before or after syncing the policies gives the same roles, so the edit of a grant
      and the edit of a granted request's sync are one edit. */
  lemma GrantEditIsSyncEdit(roles: seq<ProjectRole>, name: string, user: string, rt: Rendered)
    ensures GrantEdit(roles, name, user, rt) == SyncEdit(roles, name, user, rt, true)
  {
    var synced := SyncPolicies(roles, name, rt);
    AddKeepsRoles(roles, name, user, rt);
    AddKeepsRoles(synced, name, user, rt);
    assert HasRole(roles, name) <==> HasRole(synced, name) by {
      if HasRole(roles, name) {
        var i :| 0 <= i < |roles| && roles[i].name == name;
        assert synced[i].name == name;
      }
      if HasRole(synced, name) {
        var i :| 0 <= i < |synced| && synced[i].name == name;
        assert roles[i].name == name;
      }
    }
    var a, b := GrantEdit(roles, name, user, rt), SyncEdit(roles, name, user, rt, true);
    assert |a| == |b|;
    forall i | 0 <= i < |a| ensures a[i] == b[i] {
      assert a[i] == SyncRole(AddSubject(roles, name, user, rt)[i], name, rt);
    }
  }

  // ---------------------------------------------------------------- role by role

  /** The role is called that, holds the template's description and policies, no token, and these groups. */
  predicate IsWritten(role: ProjectRole, name: string, rt: Rendered, groups: seq<string>) {
    && role.name == name && role.description == rt.description && role.policies == rt.policies
    && role.tokens == [] && role.groups == groups
  }

  /** Role by role, what a grant makes of a project: every role of the name holds what the template
      says, and its groups with the user behind them unless it was one of them; every other role is as
      it was; and where there was no role of the name there is one more, of the user alone. */
  predicate GrantWrites(before: seq<ProjectRole>, after: seq<ProjectRole>, name: string, user: string, rt: Rendered) {
    && |after| == |before| + (if exists i :: 0 <= i < |before| && before[i].name == name then 0 else 1)
    && (forall i :: 0 <= i < |before| && before[i].name != name ==> after[i] == before[i])
    && (forall i :: 0 <= i < |before| && before[i].name == name ==>
          IsWritten(after[i], name, rt,
                if user in before[i].groups then before[i].groups else before[i].groups + [user]))
    && (|after| > |before| ==> IsWritten(after[|before|], name, rt, [user]))
  }

  /** A sync writes the roles of the name and leaves every list of groups as it is. */
  predicate SyncWrites(before: seq<ProjectRole>, after: seq<ProjectRole>, name: string, rt: Rendered) {
    && |after| == |before|
    && (forall i :: 0 <= i < |before| && before[i].name != name ==> after[i] == before[i])
    && (forall i :: 0 <= i < |before| && before[i].name == name ==> IsWritten(after[i], name, rt, before[i].groups))
  }

  /** A revocation writes the roles of the name, too, and takes the user out of their groups. */
  predicate RevokeWrites(before: seq<ProjectRole>, after: seq<ProjectRole>, name: string, user: string, rt: Rendered) {
    && |after| == |before|
    && (forall i :: 0 <= i < |before| && before[i].name != name ==> after[i] == before[i])
    && (forall i :: 0 <= i < |before| && before[i].name == name ==>
          IsWritten(after[i], name, rt, Without(before[i].groups, user)))
  }

  lemma GrantIsWritten(roles: seq<ProjectRole>, name: string, user: string, rt: Rendered)
    ensures GrantWrites(roles, GrantEdit(roles, name, user, rt), name, user, rt)
  {
    var added, edited := AddSubject(roles, name, user, rt), GrantEdit(roles, name, user, rt);
    AddKeepsRoles(roles, name, user, rt);
    forall i | 0 <= i < |added| ensures edited[i] == SyncRole(added[i], name, rt) {
    }
  }

  /** What each edit writes into which role, with nothing else changed. The sync of a granted request
      writes what a grant writes. */
  lemma WhatEditsWrite(roles: seq<ProjectRole>, name: string, user: string, rt: Rendered)
    ensures GrantWrites(roles, GrantEdit(roles, name, user, rt), name, user, rt)
    ensures GrantWrites(roles, SyncEdit(roles, name, user, rt, true), name, user, rt)
    ensures SyncWrites(roles, SyncEdit(roles, name, user, rt, false), name, rt)
    ensures RevokeWrites(roles, RevokeEdit(roles, name, user, rt), name, user, rt)
  {
    GrantIsWritten(roles, name, user, rt);
    GrantEditIsSyncEdit(roles, name, user, rt);
  }

  // ---------------------------------------------------------------- more of the algebra

  lemma AddIsIdempotent(roles: seq<ProjectRole>, name: string, user: string, rt: Rendered)
    ensures var once := AddSubject(roles, name, user, rt); AddSubject(once, name, user, rt) == once
  {
    var once := AddSubject(roles, name, user, rt);
    AddKeepsRoles(roles, name, user, rt);
    AddKeepsRoles(once, name, user, rt);
    var twice := AddSubject(once, name, user, rt);
    forall i | 0 <= i < |once| ensures twice[i] == once[i] {
      if i < |roles| { assert once[i] == AddTo(roles[i], name, user); }
    }
  }

  /** Removing a subject that was added to roles not holding it restores every role there was;
      a role created by the addition stays, with no groups. */
  lemma RemoveUndoesAdd(roles: seq<ProjectRole>, name: string, user: string, rt: Rendered)
    requires !Member(roles, name, user)
    ensures RemoveSubject(AddSubject(roles, name, user, rt), name, user)
         == if HasRole(roles, name) then roles else roles + [NewRole(name, user, rt).(groups := [])]
  {
    var added := AddSubject(roles, name, user, rt);
    AddKeepsRoles(roles, name, user, rt);
    var removed := RemoveSubject(added, name, user);
    forall i | 0 <= i < |roles| ensures removed[i] == roles[i] {
      if roles[i].name == name {
        assert user !in roles[i].groups;
        WithoutMembers(roles[i].groups, user);
        WithoutAppend(roles[i].groups, [user], user);
        assert Without([user], user) == [];
      }
    }
    if !HasRole(roles, name) {
      assert removed[|roles|] == RemoveFrom(NewRole(name, user, rt), name, user);
      assert Without([user], user) == [];
    }
  }

  predicate SameUpToGroupOrder(a: ProjectRole, b: ProjectRole) {
    a.(groups := []) == b.(groups := []) && multiset(a.groups) == multiset(b.groups)
  }

  /** Additions of different users commute up to the order of the groups. */
  lemma AddsCommute(roles: seq<ProjectRole>, name: string, u: string, v: string, rt: Rendered)
    requires u != v
    ensures var uv := AddSubject(AddSubject(roles, name, u, rt), name, v, rt);
      var vu := AddSubject(AddSubject(roles, name, v, rt), name, u, rt);
      |uv| == |vu| && forall i :: 0 <= i < |uv| ==> SameUpToGroupOrder(uv[i], vu[i])
  {
    var a, b := AddSubject(roles, name, u, rt), AddSubject(roles, name, v, rt);
    AddKeepsRoles(roles, name, u, rt);
    AddKeepsRoles(roles, name, v, rt);
    AddKeepsRoles(a, name, v, rt);
    AddKeepsRoles(b, name, u, rt);
    var uv, vu := AddSubject(a, name, v, rt), AddSubject(b, name, u, rt);
    forall i | 0 <= i < |uv| ensures SameUpToGroupOrder(uv[i], vu[i]) {
      assert uv[i] == AddTo(a[i], name, v) && vu[i] == AddTo(b[i], name, u);
      if i < |roles| {
        assert a[i] == AddTo(roles[i], name, u) && b[i] == AddTo(roles[i], name, v);
      }
    }
  }

  /** An addition and a removal of different users commute exactly. */
  lemma AddAndRemoveCommute(roles: seq<ProjectRole>, name: string, u: string, v: string, rt: Rendered)
    requires u != v
    ensures RemoveSubject(AddSubject(roles, name, u, rt), name, v)
         == AddSubject(RemoveSubject(roles, name, v), name, u, rt)
  {
    var removed := RemoveSubject(roles, name, v);
    AddKeepsRoles(roles, name, u, rt);
    AddKeepsRoles(removed, name, u, rt);
    assert HasRole(roles, name) <==> HasRole(removed, name) by {
      if HasRole(roles, name) {
        var i :| 0 <= i < |roles| && roles[i].name == name;
        assert removed[i].name == name;
      }
      if HasRole(removed, name) {
        var i :| 0 <= i < |removed| && removed[i].name == name;
        assert roles[i].name == name;
      }
    }
    var a := RemoveSubject(AddSubject(roles, name, u, rt), name, v);
    var b := AddSubject(removed, name, u, rt);
    forall i | 0 <= i < |a| ensures a[i] == b[i] {
      if i < |roles| {
        WithoutMembers(roles[i].groups, v);
        WithoutAppend(roles[i].groups, [u], v);
      }
      assert Without([u], v) == [u] by { assert [u][1..] == []; }
    }
  }

  lemma {:induction false} WithoutCommutes(groups: seq<string>, u: string, v: string)
    ensures Without(Without(groups, u), v) == Without(Without(groups, v), u)
  {
    if groups != [] {
      WithoutCommutes(groups[1..], u, v);
      var h, t := groups[0], groups[1..];
      WithoutAppend(if h == u then [] else [h], Without(t, u), v);
      WithoutAppend(if h == v then [] else [h], Without(t, v), u);
      assert [h][1..] == [];
    }
  }

  /** Removals commute exactly. */
  lemma RemovalsCommute(roles: seq<ProjectRole>, name: string, u: string, v: string)
    ensures RemoveSubject(RemoveSubject(roles, name, u), name, v)
         == RemoveSubject(RemoveSubject(roles, name, v), name, u)
  {
    forall i | 0 <= i < |roles|
      ensures RemoveFrom(RemoveFrom(roles[i], name, u), name, v) == RemoveFrom(RemoveFrom(roles[i], name, v), name, u)
    {
      WithoutCommutes(roles[i].groups, u, v);
    }
  }

  // ---------------------------------------------------------------- convergence

  /** After a grant (or, by GrantEditIsSyncEdit, a sync) the role is in sync. */
  lemma GrantEditSyncs(roles: seq<ProjectRole>, name: string, user: string, rt: Rendered, granted: bool)
    ensures InSync(GrantEdit(roles, name, user, rt), name, rt, user, granted)
  {
    var added, edited := AddSubject(roles, name, user, rt), GrantEdit(roles, name, user, rt);
    AddKeepsRoles(roles, name, user, rt);
    var k :| 0 <= k < |added| && added[k].name == name;
    assert edited[k].name == name;
    forall i | 0 <= i < |edited| && edited[i].name == name
      ensures RoleInSync(edited[i], rt, user, granted)
    {
      assert edited[i] == SyncRole(added[i], name, rt);
      assert user in added[i].groups;
    }
  }

  /** Syncing one request keeps another in sync that has a different role name or the same
      rendered template. */
  lemma GrantEditKeepsOthersInSync(roles: seq<ProjectRole>, name: string, user: string, rt: Rendered,
                                   name': string, rt': Rendered, user': string, granted': bool)
    requires name' != name || (rt'.description == rt.description && rt'.policies == rt.policies)
    requires InSync(roles, name', rt', user', granted')
    ensures InSync(GrantEdit(roles, name, user, rt), name', rt', user', granted')
  {
    var added, edited := AddSubject(roles, name, user, rt), GrantEdit(roles, name, user, rt);
    AddKeepsRoles(roles, name, user, rt);
    var k :| 0 <= k < |roles| && roles[k].name == name';
    assert edited[k].name == name';
    forall i | 0 <= i < |edited| && edited[i].name == name'
      ensures RoleInSync(edited[i], rt', user', granted')
    {
      assert edited[i] == SyncRole(added[i], name, rt);
      assert added[i].name == name';
      if i < |roles| {
        assert added[i] == AddTo(roles[i], name, user);
        assert roles[i].name == name';
        assert RoleInSync(roles[i], rt', user', granted');
      }
    }
  }

  /** A request to be kept in sync: its role name, rendered template and user. */
  datatype Target = Target(name: string, rt: Rendered, user: string)

  predicate Compatible(targets: seq<Target>) {
    forall i, j :: 0 <= i < |targets| && 0 <= j < |targets| && targets[i].name == targets[j].name ==>
      targets[i].rt.description == targets[j].rt.description && targets[i].rt.policies == targets[j].rt.policies
  }

  function OutOfSync(roles: seq<ProjectRole>, targets: seq<Target>): nat {
    if targets == [] then 0
    else
      var t := targets[0];
      (if InSync(roles, t.name, t.rt, t.user, true) then 0 else 1) + OutOfSync(roles, targets[1..])
  }

  lemma {:induction false} SyncNeverAdds(roles: seq<ProjectRole>, t: Target, targets: seq<Target>)
    requires forall i :: 0 <= i < |targets| && targets[i].name == t.name ==>
               targets[i].rt.description == t.rt.description && targets[i].rt.policies == t.rt.policies
    ensures OutOfSync(GrantEdit(roles, t.name, t.user, t.rt), targets) <= OutOfSync(roles, targets)
  {
    if targets != [] {
      SyncNeverAdds(roles, t, targets[1..]);
      var o := targets[0];
      if InSync(roles, o.name, o.rt, o.user, true) {
        GrantEditKeepsOthersInSync(roles, t.name, t.user, t.rt, o.name, o.rt, o.user, true);
      }
    }
  }

  /** Every sync of an out-of-sync target strictly lowers the number of targets out of sync, so
      the loop patch, watch, reconcile ends. */
  lemma {:induction false} SyncConverges(roles: seq<ProjectRole>, targets: seq<Target>, k: nat)
    requires k < |targets| && Compatible(targets)
    requires !InSync(roles, targets[k].name, targets[k].rt, targets[k].user, true)
    ensures OutOfSync(SyncEdit(roles, targets[k].name, targets[k].user, targets[k].rt, true), targets)
          < OutOfSync(roles, targets)
  {
    var t := targets[k];
    GrantEditIsSyncEdit(roles, t.name, t.user, t.rt);
    if k == 0 {
      GrantEditSyncs(roles, t.name, t.user, t.rt, true);
      SyncNeverAdds(roles, t, targets[1..]);
    } else {
      SyncConverges(roles, targets[1..], k - 1);
      assert targets[1..][k - 1] == t;
      var o := targets[0];
      if InSync(roles, o.name, o.rt, o.user, true) {
        GrantEditKeepsOthersInSync(roles, t.name, t.user, t.rt, o.name, o.rt, o.user, true);
      }
    }
  }
}
