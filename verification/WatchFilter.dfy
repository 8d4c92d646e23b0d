/** The filter on AppProject updates (internal/controller/accessrequest_controller.go, lines
    763-826): when is ignoring an update harmless? */
module WatchFilter {
  import opened Prelude
  import opened Templates
  import opened Roles

  /** The first role of the same name and description decides. */
  predicate HasMatch(roles: seq<ProjectRole>, role: ProjectRole) {
    roles != [] &&
    if roles[0].name == role.name && roles[0].description == role.description then
      && MatchPoliciesAndTokens(roles[0], role.policies, role.tokens)
      && |roles[0].groups| == |role.groups|
      && Subset(roles[0].groups, role.groups)
    else HasMatch(roles[1..], role)
  }

  predicate Triggers(after: seq<ProjectRole>, before: seq<ProjectRole>) {
    |after| != |before| || exists i :: 0 <= i < |before| && !HasMatch(after, before[i])
  }

  predicate NoDuplicates<T(==)>(xs: seq<T>) {
    forall i, j :: 0 <= i < j < |xs| ==> xs[i] != xs[j]
  }

  predicate UniqueNames(roles: seq<ProjectRole>) {
    forall i, j :: 0 <= i < j < |roles| ==> roles[i].name != roles[j].name
  }

  /** Name and description agree and every list of `b` covers the equally long one of `a`. */
  predicate Paired(a: ProjectRole, b: ProjectRole) {
    && a.name == b.name && a.description == b.description
    && MatchPoliciesAndTokens(a, b.policies, b.tokens)
    && |a.groups| == |b.groups| && Subset(a.groups, b.groups)
  }

  // ---------------------------------------------------------------- the pigeonhole step

  lemma {:induction false} Pigeonhole<T>(xs: seq<T>, ys: seq<T>)
    requires NoDuplicates(xs) && |xs| == |ys| && Subset(xs, ys)
    ensures multiset(xs) == multiset(ys)
  {
    if xs != [] {
      var k :| 0 <= k < |ys| && ys[k] == xs[0];
      var rest := ys[..k] + ys[k + 1..];
      assert ys == ys[..k] + [ys[k]] + ys[k + 1..];
      forall i | 0 <= i < |xs[1..]| ensures xs[1..][i] in rest {
        var j :| 0 <= j < |ys| && ys[j] == xs[i + 1];
        assert j != k;
        assert if j < k then rest[j] == ys[j] else rest[j - 1] == ys[j];
      }
      Pigeonhole(xs[1..], rest);
      assert xs == [xs[0]] + xs[1..];
    }
  }

  lemma SameElements<T>(xs: seq<T>, ys: seq<T>)
    requires multiset(xs) == multiset(ys)
    ensures |xs| == |ys| && Subset(xs, ys) && Subset(ys, xs)
  {
    assert |multiset(xs)| == |xs| && |multiset(ys)| == |ys|;
    forall i | 0 <= i < |xs| ensures xs[i] in ys { assert xs[i] in multiset(xs); }
    forall i | 0 <= i < |ys| ensures ys[i] in xs { assert ys[i] in multiset(ys); }
  }

  /** On lists without duplicates the comparison is equality up to order. */
  lemma MatchIsPermutation(role: ProjectRole, policies: seq<string>, tokens: seq<Token>)
    requires NoDuplicates(role.policies) && NoDuplicates(role.tokens)
    ensures MatchPoliciesAndTokens(role, policies, tokens)
        <==> multiset(role.policies) == multiset(policies) && multiset(role.tokens) == multiset(tokens)
  {
    if MatchPoliciesAndTokens(role, policies, tokens) {
      Pigeonhole(role.policies, policies);
      Pigeonhole(role.tokens, tokens);
    }
    if multiset(role.policies) == multiset(policies) && multiset(role.tokens) == multiset(tokens) {
      SameElements(role.policies, policies);
      SameElements(role.tokens, tokens);
    }
  }

  /** So a role is in sync exactly when it exists and every role of its name has the description and, up
      to order, the policies of the template, no token, and for a granted request its user. */
  lemma InSyncIff(roles: seq<ProjectRole>, name: string, rt: Rendered, user: string, granted: bool)
    requires forall i :: 0 <= i < |roles| && roles[i].name == name ==> NoDuplicates(roles[i].policies)
    ensures InSync(roles, name, rt, user, granted) <==>
              && (exists i :: 0 <= i < |roles| && roles[i].name == name)
              && forall i :: 0 <= i < |roles| && roles[i].name == name ==>
                   && roles[i].description == rt.description
                   && multiset(roles[i].policies) == multiset(rt.policies) && roles[i].tokens == []
                   && (granted ==> user in roles[i].groups)
  {
    forall i | 0 <= i < |roles| && roles[i].name == name
      ensures MatchPoliciesAndTokens(roles[i], rt.policies, []) <==>
                multiset(roles[i].policies) == multiset(rt.policies) && roles[i].tokens == []
    {
      if |roles[i].tokens| == 0 { MatchIsPermutation(roles[i], rt.policies, []); }
    }
  }

  // ---------------------------------------------------------------- what a false answer means

  lemma {:induction false} HasMatchFinds(roles: seq<ProjectRole>, role: ProjectRole)
    requires UniqueNames(roles)
    ensures HasMatch(roles, role) <==> exists i :: 0 <= i < |roles| && Paired(roles[i], role)
  {
    if roles != [] {
      HasMatchFinds(roles[1..], role);
      if roles[0].name == role.name && roles[0].description == role.description {
        assert HasMatch(roles, role) <==> Paired(roles[0], role);
      } else {
        if HasMatch(roles[1..], role) {
          var i :| 0 <= i < |roles[1..]| && Paired(roles[1..][i], role);
          assert Paired(roles[i + 1], role);
        }
        if exists i :: 0 <= i < |roles| && Paired(roles[i], role) {
          var i :| 0 <= i < |roles| && Paired(roles[i], role);
          assert Paired(roles[1..][i - 1], role);
        }
      }
    }
  }

  /** An ignored update pairs every new role with the old role of its name. */
  lemma IgnoredPairsRoles(after: seq<ProjectRole>, before: seq<ProjectRole>)
    requires UniqueNames(after) && UniqueNames(before) && !Triggers(after, before)
    ensures forall j :: 0 <= j < |before| ==> exists i :: 0 <= i < |after| && Paired(after[i], before[j])
    ensures forall i :: 0 <= i < |after| ==> exists j :: 0 <= j < |before| && Paired(after[i], before[j])
  {
    forall j | 0 <= j < |before| ensures exists i :: 0 <= i < |after| && Paired(after[i], before[j]) {
      HasMatchFinds(after, before[j]);
    }
    var olds := seq(|before|, j requires 0 <= j < |before| => before[j].name);
    var news := seq(|after|, i requires 0 <= i < |after| => after[i].name);
    forall j | 0 <= j < |olds| ensures olds[j] in news {
      var i :| 0 <= i < |after| && Paired(after[i], before[j]);
      assert news[i] == olds[j];
    }
    Pigeonhole(olds, news);
    SameElements(olds, news);
    forall i | 0 <= i < |after| ensures exists j :: 0 <= j < |before| && Paired(after[i], before[j]) {
      assert news[i] in olds;
      var j :| 0 <= j < |olds| && olds[j] == news[i];
      var i' :| 0 <= i' < |after| && Paired(after[i'], before[j]);
      assert i' == i;
    }
  }

  /** The two roles get the same answer from RoleInSync for every template and user. */
  predicate Interchangeable(a: ProjectRole, b: ProjectRole) {
    a.tokens != [] || (Subset(b.policies, a.policies) && Subset(b.groups, a.groups))
  }

  predicate AllInterchangeable(after: seq<ProjectRole>, before: seq<ProjectRole>) {
    forall i, j :: 0 <= i < |after| && 0 <= j < |before| && after[i].name == before[j].name ==>
      Interchangeable(after[i], before[j])
  }

  ghost predicate SameAnswers(after: seq<ProjectRole>, before: seq<ProjectRole>) {
    forall name, rt, user, granted ::
      InSync(after, name, rt, user, granted) <==> InSync(before, name, rt, user, granted)
  }

  lemma InterchangeableAnswers(a: ProjectRole, b: ProjectRole, rt: Rendered, user: string, granted: bool)
    requires Paired(a, b) && Interchangeable(a, b)
    ensures RoleInSync(a, rt, user, granted) <==> RoleInSync(b, rt, user, granted)
  {
    if RoleInSync(a, rt, user, granted) {
      if user in a.groups {
        var k :| 0 <= k < |a.groups| && a.groups[k] == user;
        assert a.groups[k] in b.groups;
      }
      forall k | 0 <= k < |b.policies| ensures b.policies[k] in rt.policies {
        var m :| 0 <= m < |a.policies| && a.policies[m] == b.policies[k];
        assert a.policies[m] in rt.policies;
      }
    }
    if RoleInSync(b, rt, user, granted) {
      if user in b.groups {
        var k :| 0 <= k < |b.groups| && b.groups[k] == user;
        assert b.groups[k] in a.groups;
      }
      forall k | 0 <= k < |a.policies| ensures a.policies[k] in rt.policies {
        var m :| 0 <= m < |b.policies| && b.policies[m] == a.policies[k];
        assert b.policies[m] in rt.policies;
      }
    }
  }

  lemma UniqueInSync(roles: seq<ProjectRole>, k: nat, rt: Rendered, user: string, granted: bool)
    requires UniqueNames(roles) && k < |roles|
    ensures InSync(roles, roles[k].name, rt, user, granted) <==> RoleInSync(roles[k], rt, user, granted)
  {
    assert HasRole(roles, roles[k].name);
  }

  /** A template, user and state on which two roles that are not interchangeable disagree. */
  lemma Distinguish(a: ProjectRole, b: ProjectRole) returns (rt: Rendered, user: string, granted: bool)
    requires Paired(a, b) && !Interchangeable(a, b)
    ensures RoleInSync(a, rt, user, granted) != RoleInSync(b, rt, user, granted)
  {
    granted := Subset(b.policies, a.policies);
    if granted {
      rt := Rendered(Ref("", ""), "", a.description, b.policies);
      var k :| 0 <= k < |b.groups| && b.groups[k] !in a.groups;
      user := b.groups[k];
    } else {
      rt, user := Rendered(Ref("", ""), "", a.description, a.policies), "";
      var k :| 0 <= k < |b.policies| && b.policies[k] !in a.policies;
      assert !RoleInSync(b, rt, user, granted);
    }
  }

  lemma PairOf(after: seq<ProjectRole>, before: seq<ProjectRole>, name: string) returns (i: nat, j: nat)
    requires UniqueNames(after) && UniqueNames(before) && !Triggers(after, before)
    requires HasRole(after, name) || HasRole(before, name)
    ensures i < |after| && j < |before| && after[i].name == before[j].name == name && Paired(after[i], before[j])
  {
    IgnoredPairsRoles(after, before);
    i :| 0 <= i < |after| && after[i].name == name;
    j :| 0 <= j < |before| && Paired(after[i], before[j]);
  }

  lemma HarmlessThenSame(after: seq<ProjectRole>, before: seq<ProjectRole>, name: string, rt: Rendered,
                         user: string, granted: bool)
    requires UniqueNames(after) && UniqueNames(before) && !Triggers(after, before)
    requires AllInterchangeable(after, before)
    ensures InSync(after, name, rt, user, granted) <==> InSync(before, name, rt, user, granted)
  {
    if HasRole(after, name) || HasRole(before, name) {
      var i, j := PairOf(after, before, name);
      InterchangeableAnswers(after[i], before[j], rt, user, granted);
      UniqueInSync(after, i, rt, user, granted);
      UniqueInSync(before, j, rt, user, granted);
    }
  }

  lemma SameNamePaired(after: seq<ProjectRole>, before: seq<ProjectRole>, i: nat, j: nat)
    requires UniqueNames(after) && UniqueNames(before) && !Triggers(after, before)
    requires i < |after| && j < |before| && after[i].name == before[j].name
    ensures Paired(after[i], before[j])
  {
    assert HasRole(after, after[i].name);
    var k, l := PairOf(after, before, after[i].name);
  }

  lemma HarmfulPair(after: seq<ProjectRole>, before: seq<ProjectRole>, i: nat, j: nat)
      returns (rt: Rendered, user: string, granted: bool)
    requires UniqueNames(after) && UniqueNames(before) && i < |after| && j < |before|
    requires after[i].name == before[j].name && Paired(after[i], before[j]) && !Interchangeable(after[i], before[j])
    ensures InSync(after, after[i].name, rt, user, granted) != InSync(before, after[i].name, rt, user, granted)
  {
    rt, user, granted := Distinguish(after[i], before[j]);
    UniqueInSync(after, i, rt, user, granted);
    UniqueInSync(before, j, rt, user, granted);
  }

  lemma HarmfulThenDifferent(after: seq<ProjectRole>, before: seq<ProjectRole>)
    requires UniqueNames(after) && UniqueNames(before) && !Triggers(after, before)
    requires !AllInterchangeable(after, before)
    ensures !SameAnswers(after, before)
  {
    var i, j :| 0 <= i < |after| && 0 <= j < |before| && after[i].name == before[j].name
      && !Interchangeable(after[i], before[j]);
    SameNamePaired(after, before, i, j);
    var rt, user, granted := HarmfulPair(after, before, i, j);
  }

  /** Ignoring an update is harmless, that is, every request and template gets the same in-sync
      answer before and after it, exactly when every pair of roles of one name is
      interchangeable. */
  lemma FilterSoundness(after: seq<ProjectRole>, before: seq<ProjectRole>)
    requires UniqueNames(after) && UniqueNames(before) && !Triggers(after, before)
    ensures SameAnswers(after, before) <==> AllInterchangeable(after, before)
  {
    if AllInterchangeable(after, before) {
      forall name, rt, user, granted
        ensures InSync(after, name, rt, user, granted) <==> InSync(before, name, rt, user, granted)
      {
        HarmlessThenSame(after, before, name, rt, user, granted);
      }
    } else {
      HarmfulThenDifferent(after, before);
    }
  }

  predicate DuplicateFree(roles: seq<ProjectRole>) {
    forall i :: 0 <= i < |roles| ==>
      NoDuplicates(roles[i].policies) && NoDuplicates(roles[i].tokens) && NoDuplicates(roles[i].groups)
  }

  lemma PairedIsSymmetric(a: ProjectRole, b: ProjectRole)
    requires Paired(a, b)
    requires NoDuplicates(a.policies) && NoDuplicates(a.tokens) && NoDuplicates(a.groups)
    ensures Paired(b, a) && Interchangeable(a, b)
  {
    Pigeonhole(a.policies, b.policies);
    Pigeonhole(a.tokens, b.tokens);
    Pigeonhole(a.groups, b.groups);
    SameElements(a.policies, b.policies);
    SameElements(a.tokens, b.tokens);
    SameElements(a.groups, b.groups);
  }

  /** On lists without duplicates the filter is symmetric and ignoring an update is harmless. */
  lemma FilterOnDuplicateFreeRoles(after: seq<ProjectRole>, before: seq<ProjectRole>)
    requires UniqueNames(after) && UniqueNames(before) && DuplicateFree(after)
    requires !Triggers(after, before)
    ensures SameAnswers(after, before) && !Triggers(before, after)
  {
    IgnoredPairsRoles(after, before);
    forall i, j | 0 <= i < |after| && 0 <= j < |before| && after[i].name == before[j].name
      ensures Interchangeable(after[i], before[j])
    {
      var j' :| 0 <= j' < |before| && Paired(after[i], before[j']);
      assert j' == j;
      PairedIsSymmetric(after[i], before[j]);
    }
    FilterSoundness(after, before);
    forall i | 0 <= i < |after| ensures HasMatch(before, after[i]) {
      var j :| 0 <= j < |before| && Paired(after[i], before[j]);
      PairedIsSymmetric(after[i], before[j]);
      HasMatchFinds(before, after[i]);
    }
  }

  // ---------------------------------------------------------------- what is ignored

  /** The same role but for the order of its lists. */
  predicate Reordered(a: ProjectRole, b: ProjectRole) {
    && a.name == b.name && a.description == b.description
    && multiset(a.policies) == multiset(b.policies) && multiset(a.tokens) == multiset(b.tokens)
    && multiset(a.groups) == multiset(b.groups)
  }

  /** No two roles agree in name and description. */
  predicate Distinct(roles: seq<ProjectRole>) {
    forall i, j :: 0 <= i < j < |roles| ==>
      roles[i].name != roles[j].name || roles[i].description != roles[j].description
  }

  lemma ReorderedIsPaired(a: ProjectRole, b: ProjectRole)
    requires Reordered(a, b)
    ensures Paired(a, b)
  {
    SameElements(a.policies, b.policies);
    SameElements(a.tokens, b.tokens);
    SameElements(a.groups, b.groups);
  }

  lemma {:induction false} ReorderedMatches(roles: seq<ProjectRole>, role: ProjectRole, k: nat)
    requires Distinct(roles) && k < |roles| && Reordered(roles[k], role)
    ensures HasMatch(roles, role)
  {
    if k == 0 {
      ReorderedIsPaired(roles[0], role);
    } else {
      assert roles[1..][k - 1] == roles[k];
      ReorderedMatches(roles[1..], role, k - 1);
    }
  }

  predicate Reappears(roles: seq<ProjectRole>, role: ProjectRole) {
    exists j :: 0 <= j < |roles| && Reordered(roles[j], role)
  }

  /** As many roles as before, and every role from before still there but for the order of its lists. */
  predicate MereReordering(after: seq<ProjectRole>, before: seq<ProjectRole>) {
    |after| == |before| && forall i :: 0 <= i < |before| ==> Reappears(after, before[i])
  }

  /** A mere reordering of roles and of their lists never triggers; when role names are unique and no list
      repeats itself, nothing else is ignored. */
  lemma IgnoredIff(after: seq<ProjectRole>, before: seq<ProjectRole>)
    requires Distinct(after)
    ensures MereReordering(after, before) ==> !Triggers(after, before)
    ensures UniqueNames(after) && UniqueNames(before) && DuplicateFree(after) ==>
              (!Triggers(after, before) <==> MereReordering(after, before))
  {
    if MereReordering(after, before) {
      forall i | 0 <= i < |before| ensures HasMatch(after, before[i]) {
        var j :| 0 <= j < |after| && Reordered(after[j], before[i]);
        ReorderedMatches(after, before[i], j);
      }
    }
    if UniqueNames(after) && UniqueNames(before) && DuplicateFree(after) && !Triggers(after, before) {
      IgnoredPairsRoles(after, before);
      forall i | 0 <= i < |before| ensures Reappears(after, before[i]) {
        var j :| 0 <= j < |after| && Paired(after[j], before[i]);
        Pigeonhole(after[j].policies, before[i].policies);
        Pigeonhole(after[j].tokens, before[i].tokens);
        Pigeonhole(after[j].groups, before[i].groups);
        assert Reordered(after[j], before[i]);
      }
    }
  }
}
