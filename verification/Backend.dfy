/** What the backend offers and grants: access bindings and existing access requests
    (internal/backend/service.go). */
module Backend {
  import opened Prelude
  import opened Requests
  import opened Cluster
  import opened Sorting
  import opened Ordering

  /** The bindings there are, and the namespaces whose list calls fail. */
  datatype Cache = Cache(bindings: seq<Binding>, failing: set<string>)

  /** The subjects of a binding rendered for the application and project at hand; None when its
      condition or a template fails. */
  type Rule = Binding -> Option<seq<string>>

  // ---------------------------------------------------------------- list calls

  function InNamespace(bindings: seq<Binding>, ns: string): seq<Binding> {
    if bindings == [] then []
    else (if bindings[0].ns == ns then [bindings[0]] else []) + InNamespace(bindings[1..], ns)
  }

  /** The role index leaves out bindings without a role. */
  function ForRole(bindings: seq<Binding>, role: string): seq<Binding> {
    if bindings == [] || role == "" then []
    else (if bindings[0].role == role then [bindings[0]] else []) + ForRole(bindings[1..], role)
  }

  function ListAll(cache: Cache, ns: string): Result<seq<Binding>> {
    if ns in cache.failing then Err(Failed) else Ok(InNamespace(cache.bindings, ns))
  }

  function ListRole(cache: Cache, role: string, ns: string): Result<seq<Binding>> {
    if ns in cache.failing then Err(Failed) else Ok(ForRole(InNamespace(cache.bindings, ns), role))
  }

  /** All bindings of the Argo CD namespace, then all of the controller's. */
  function Candidates(cache: Cache, ns: string, home: string): seq<Binding> {
    InNamespace(cache.bindings, ns) + InNamespace(cache.bindings, home)
  }

  predicate Reachable(cache: Cache, ns: string, home: string) {
    ns !in cache.failing && home !in cache.failing
  }

  lemma {:induction false} ForRoleAppend(a: seq<Binding>, b: seq<Binding>, role: string)
    ensures ForRole(a + b, role) == ForRole(a, role) + ForRole(b, role)
  {
    if a == [] {
      assert a + b == b;
    } else {
      ForRoleAppend(a[1..], b, role);
      assert (a + b)[1..] == a[1..] + b;
    }
  }

  lemma {:induction false} ForRoleMembers(bindings: seq<Binding>, role: string)
    ensures forall b :: b in ForRole(bindings, role) <==> b in bindings && role != "" && b.role == role
  {
    if bindings != [] {
      ForRoleMembers(bindings[1..], role);
      assert bindings == [bindings[0]] + bindings[1..];
    }
  }

  /** How often the binding is listed: once for each of the two namespaces that is its own, as often as
      it is stored. */
  ghost function Times(cache: Cache, b: Binding, ns: string, home: string): nat {
    (if b.ns == ns then multiset(cache.bindings)[b] else 0) + (if b.ns == home then multiset(cache.bindings)[b] else 0)
  }

  lemma {:induction false} InNamespaceCount(bindings: seq<Binding>, ns: string, b: Binding)
    ensures multiset(InNamespace(bindings, ns))[b] == if b.ns == ns then multiset(bindings)[b] else 0
  {
    if bindings != [] {
      InNamespaceCount(bindings[1..], ns, b);
      assert bindings == [bindings[0]] + bindings[1..];
    }
  }

  lemma {:induction false} ForRoleCount(bindings: seq<Binding>, role: string, b: Binding)
    ensures multiset(ForRole(bindings, role))[b] == if role != "" && b.role == role then multiset(bindings)[b] else 0
  {
    if bindings != [] {
      ForRoleCount(bindings[1..], role, b);
      assert bindings == [bindings[0]] + bindings[1..];
    }
  }

  lemma CandidateCount(cache: Cache, ns: string, home: string, b: Binding)
    ensures multiset(Candidates(cache, ns, home))[b] == Times(cache, b, ns, home)
  {
    InNamespaceCount(cache.bindings, ns, b);
    InNamespaceCount(cache.bindings, home, b);
  }

  /** Those of the Argo CD namespace stand before those of the controller's. */
  predicate NamespaceFirst(list: seq<Binding>, ns: string, home: string) {
    forall i, j :: 0 <= i < j < |list| && list[j].ns != home ==> list[i].ns == ns
  }

  lemma {:induction false} InNamespaceMembers(bindings: seq<Binding>, ns: string)
    ensures forall b :: b in InNamespace(bindings, ns) <==> b in bindings && b.ns == ns
  {
    if bindings != [] {
      InNamespaceMembers(bindings[1..], ns);
      assert bindings == [bindings[0]] + bindings[1..];
    }
  }

  lemma JoinedInOrder(first: seq<Binding>, second: seq<Binding>, ns: string, home: string)
    requires forall b :: b in first ==> b.ns == ns
    requires forall b :: b in second ==> b.ns == home
    ensures NamespaceFirst(first + second, ns, home)
  {
  }

  lemma RoleCandidates(cache: Cache, role: string, ns: string, home: string)
    ensures NamespaceFirst(ForRole(Candidates(cache, ns, home), role), ns, home)
  {
    var a, b := InNamespace(cache.bindings, ns), InNamespace(cache.bindings, home);
    ForRoleAppend(a, b, role);
    InNamespaceMembers(cache.bindings, ns);
    InNamespaceMembers(cache.bindings, home);
    ForRoleMembers(a, role);
    ForRoleMembers(b, role);
    JoinedInOrder(ForRole(a, role), ForRole(b, role), ns, home);
  }

  method ListAccessBindings(cache: Cache, role: string, ns: string, home: string) returns (got: Result<seq<Binding>>)
    ensures got == if Reachable(cache, ns, home) then Ok(ForRole(Candidates(cache, ns, home), role)) else Err(Failed)
    ensures got.Ok? ==> NamespaceFirst(got.value, ns, home)
    ensures got.Ok? ==> forall b ::
              multiset(got.value)[b] == if role != "" && b.role == role then Times(cache, b, ns, home) else 0
  {
    var namespaced := ListRole(cache, role, ns);
    if namespaced.Err? {
      return namespaced;
    }
    var global := ListRole(cache, role, home);
    if global.Err? {
      return global;
    }
    ForRoleAppend(InNamespace(cache.bindings, ns), InNamespace(cache.bindings, home), role);
    RoleCandidates(cache, role, ns, home);
    forall b
      ensures multiset(ForRole(Candidates(cache, ns, home), role))[b]
           == if role != "" && b.role == role then Times(cache, b, ns, home) else 0
    {
      CandidateCount(cache, ns, home, b);
      ForRoleCount(Candidates(cache, ns, home), role, b);
    }
    return Ok(namespaced.value + global.value);
  }

  method ListAllAccessBindings(cache: Cache, ns: string, home: string) returns (got: Result<seq<Binding>>)
    ensures got == if Reachable(cache, ns, home) then Ok(Candidates(cache, ns, home)) else Err(Failed)
    ensures got.Ok? ==> NamespaceFirst(got.value, ns, home)
    ensures got.Ok? ==> forall b :: multiset(got.value)[b] == Times(cache, b, ns, home)
  {
    var result := [];
    var namespaced := ListAll(cache, ns);
    if namespaced.Err? {
      return namespaced;
    }
    result := result + namespaced.value;
    assert result == namespaced.value;
    var global := ListAll(cache, home);
    if global.Err? {
      return global;
    }
    result := result + global.value;
    InNamespaceMembers(cache.bindings, ns);
    InNamespaceMembers(cache.bindings, home);
    JoinedInOrder(namespaced.value, global.value, ns, home);
    forall b ensures multiset(Candidates(cache, ns, home))[b] == Times(cache, b, ns, home) {
      CandidateCount(cache, ns, home, b);
    }
    return Ok(result);
  }

  // ---------------------------------------------------------------- granting bindings

  predicate Grants(b: Binding, rule: Rule, groups: seq<string>) {
    rule(b).Some? && exists i :: 0 <= i < |rule(b).value| && rule(b).value[i] in groups
  }

  method MatchSubject(subjects: seq<string>, groups: seq<string>) returns (matching: bool)
    ensures matching <==> exists i :: 0 <= i < |subjects| && subjects[i] in groups
  {
    for i := 0 to |subjects|
      invariant forall k :: 0 <= k < i ==> subjects[k] !in groups
    {
      if subjects[i] in groups {
        return true;
      }
    }
    return false;
  }

  function Granting(bindings: seq<Binding>, rule: Rule, groups: seq<string>): seq<Binding> {
    if bindings == [] then []
    else (if Grants(bindings[0], rule, groups) then [bindings[0]] else []) + Granting(bindings[1..], rule, groups)
  }

  lemma {:induction false} GrantingMembers(bindings: seq<Binding>, rule: Rule, groups: seq<string>)
    ensures forall b :: b in Granting(bindings, rule, groups) <==> b in bindings && Grants(b, rule, groups)
  {
    if bindings != [] {
      GrantingMembers(bindings[1..], rule, groups);
      assert bindings == [bindings[0]] + bindings[1..];
    }
  }

  lemma {:induction false} GrantingCount(bindings: seq<Binding>, rule: Rule, groups: seq<string>, b: Binding)
    ensures multiset(Granting(bindings, rule, groups))[b]
         == if Grants(b, rule, groups) then multiset(bindings)[b] else 0
  {
    if bindings != [] {
      GrantingCount(bindings[1..], rule, groups, b);
      assert bindings == [bindings[0]] + bindings[1..];
    }
  }

  lemma {:induction false} GrantingAppend(a: seq<Binding>, b: Binding, rule: Rule, groups: seq<string>)
    ensures Granting(a + [b], rule, groups)
         == Granting(a, rule, groups) + (if Grants(b, rule, groups) then [b] else [])
  {
    if a == [] {
      assert a + [b] == [b] && [b][1..] == [];
    } else {
      GrantingAppend(a[1..], b, rule, groups);
      assert (a + [b])[1..] == a[1..] + [b];
    }
  }

  /** The first granting binding of the list, if there is one. */
  predicate IsGrant(list: seq<Binding>, rule: Rule, groups: seq<string>, found: Option<Binding>) {
    match found
    case None => forall k :: 0 <= k < |list| ==> !Grants(list[k], rule, groups)
    case Some(b) =>
      exists k :: 0 <= k < |list| && list[k] == b && Grants(b, rule, groups)
        && forall j :: 0 <= j < k ==> !Grants(list[j], rule, groups)
  }

  /** A stored binding of the role in one of the two namespaces, one of whose subjects is a group given. */
  predicate Grantable(cache: Cache, role: string, ns: string, home: string, groups: seq<string>, rule: Rule,
                      b: Binding)
  {
    && b in cache.bindings && (b.ns == ns || b.ns == home) && role != "" && b.role == role
    && rule(b).Some? && exists i :: 0 <= i < |rule(b).value| && rule(b).value[i] in groups
  }

  /** Such a binding, or none when there is none. */
  ghost predicate Grantworthy(cache: Cache, role: string, ns: string, home: string, groups: seq<string>, rule: Rule,
                              found: Option<Binding>)
  {
    match found
    case None => forall b :: !Grantable(cache, role, ns, home, groups, rule, b)
    case Some(b) => Grantable(cache, role, ns, home, groups, rule, b)
  }

  lemma GrantMeans(cache: Cache, role: string, ns: string, home: string, groups: seq<string>, rule: Rule,
                   found: Option<Binding>)
    requires IsGrant(ForRole(Candidates(cache, ns, home), role), rule, groups, found)
    ensures Grantworthy(cache, role, ns, home, groups, rule, found)
  {
    InNamespaceMembers(cache.bindings, ns);
    InNamespaceMembers(cache.bindings, home);
    ForRoleMembers(Candidates(cache, ns, home), role);
    var list := ForRole(Candidates(cache, ns, home), role);
    forall b ensures Grantable(cache, role, ns, home, groups, rule, b) ==> b in list && Grants(b, rule, groups) {
    }
  }

  method GetGrantingAccessBinding(cache: Cache, role: string, ns: string, home: string, groups: seq<string>, rule: Rule)
      returns (got: Result<Option<Binding>>)
    ensures got.Err? <==> !Reachable(cache, ns, home)
    ensures got.Ok? ==> IsGrant(ForRole(Candidates(cache, ns, home), role), rule, groups, got.value)
    ensures got.Ok? ==> Grantworthy(cache, role, ns, home, groups, rule, got.value)
  {
    var bindings := ListAccessBindings(cache, role, ns, home);
    if bindings.Err? {
      return Err(bindings.error);
    }
    var list := bindings.value;
    for i := 0 to |list|
      invariant forall j :: 0 <= j < i ==> !Grants(list[j], rule, groups)
    {
      var subjects := rule(list[i]);
      if subjects.None? {
        continue;
      }
      var matching := MatchSubject(subjects.value, groups);
      if matching {
        GrantMeans(cache, role, ns, home, groups, rule, Some(list[i]));
        return Ok(Some(list[i]));
      }
    }
    GrantMeans(cache, role, ns, home, groups, rule, None);
    return Ok(None);
  }

  /** The granting bindings of both namespaces, every one of them as often as it is listed. When
      their order is a total preorder they come ordered, equivalent ones in the order listed. */
  method GetAccessBindingsForGroups(cache: Cache, ns: string, home: string, groups: seq<string>, rule: Rule)
      returns (got: Result<seq<Binding>>)
    ensures got.Err? <==> !Reachable(cache, ns, home)
    ensures got.Ok? ==>
      var granting := Granting(Candidates(cache, ns, home), rule, groups);
      && multiset(got.value) == multiset(granting)
      && (forall b :: multiset(got.value)[b] == if Grants(b, rule, groups) then Times(cache, b, ns, home) else 0)
      && (NamesAgree(granting) ==>
            && (forall i, j :: 0 <= i < j < |got.value| ==> BindingMayPrecede(got.value[i], got.value[j]))
            && SameClasses(granting, got.value, OrdinalSortDesc))
  {
    var bindings := ListAllAccessBindings(cache, ns, home);
    if bindings.Err? {
      return Err(bindings.error);
    }
    var list := bindings.value;
    var allowed := [];
    for i := 0 to |list|
      invariant allowed == Granting(list[..i], rule, groups)
    {
      assert list[..i + 1] == list[..i] + [list[i]];
      GrantingAppend(list[..i], list[i], rule, groups);
      var subjects := rule(list[i]);
      if subjects.None? {
        continue;
      }
      var matching := MatchSubject(subjects.value, groups);
      if matching {
        allowed := allowed + [list[i]];
      }
    }
    assert list[..|list|] == list;
    SortPermutes(allowed, OrdinalSortDesc);
    forall b
      ensures multiset(Granting(list, rule, groups))[b] == if Grants(b, rule, groups) then multiset(list)[b] else 0
    {
      GrantingCount(list, rule, groups, b);
    }
    OrdinalSortIsPreorder(allowed);
    ghost var after := StableSort(allowed, OrdinalSortDesc);
    if NamesAgree(allowed) {
      SortIsStable(allowed, OrdinalSortDesc, allowed);
      forall i, j | 0 <= i < j < |after| ensures BindingMayPrecede(after[i], after[j]) {
        OrdinalSortSpelledOut(after[i], after[j]);
      }
    }
    return Ok(StableSort(allowed, OrdinalSortDesc));
  }

  /** Of a binding found by role, the ones of the Argo CD namespace come first. */
  lemma NamespaceComesFirst(cache: Cache, role: string, ns: string, home: string, rule: Rule, groups: seq<string>,
                            b: Binding)
    requires IsGrant(ForRole(Candidates(cache, ns, home), role), rule, groups, Some(b))
    ensures b in ForRole(InNamespace(cache.bindings, home), role)
         || b in ForRole(InNamespace(cache.bindings, ns), role)
    ensures (exists c :: c in ForRole(InNamespace(cache.bindings, ns), role) && Grants(c, rule, groups)) ==>
              b in ForRole(InNamespace(cache.bindings, ns), role)
  {
    var first := ForRole(InNamespace(cache.bindings, ns), role);
    var second := ForRole(InNamespace(cache.bindings, home), role);
    ForRoleAppend(InNamespace(cache.bindings, ns), InNamespace(cache.bindings, home), role);
    var list := first + second;
    var k :| 0 <= k < |list| && list[k] == b && Grants(b, rule, groups)
      && forall j :: 0 <= j < k ==> !Grants(list[j], rule, groups);
    if c :| c in first && Grants(c, rule, groups) {
      var j :| 0 <= j < |first| && first[j] == c;
      assert list[j] == c;
    }
  }

  predicate HoldsRole(list: seq<Binding>, role: string) {
    exists k :: 0 <= k < |list| && list[k].role == role
  }

  /** Whatever is offered and whatever is found for a role, for the same groups, application and
      project: the role is granted exactly when a binding of the role is offered, and then by one
      of those offered. Only the empty role name is never granted, even when offered. */
  lemma OfferedIsGrantable(cache: Cache, role: string, ns: string, home: string, rule: Rule, groups: seq<string>,
                           offered: seq<Binding>, found: Option<Binding>)
    requires multiset(offered) == multiset(Granting(Candidates(cache, ns, home), rule, groups))
    requires IsGrant(ForRole(Candidates(cache, ns, home), role), rule, groups, found)
    ensures found.Some? <==> role != "" && HoldsRole(offered, role)
    ensures found.Some? ==> found.value in offered && found.value.role == role
  {
    var all := Candidates(cache, ns, home);
    var granting := Granting(all, rule, groups);
    GrantingMembers(all, rule, groups);
    ForRoleMembers(all, role);
    if found.Some? {
      assert found.value in ForRole(all, role);
      AlsoIn(granting, offered, found.value);
    }
    if role != "" && HoldsRole(offered, role) {
      var k :| 0 <= k < |offered| && offered[k].role == role;
      AlsoIn(offered, granting, offered[k]);
      assert offered[k] in ForRole(all, role);
    }
  }

  // ---------------------------------------------------------------- existing access requests

  /** The requests of the key, when `up` says the list call succeeds. Sorted, they stand in the order
      spelled out, and those it does not tell apart in the order listed. */
  method ListAccessRequests(s: Store, up: bool, ns: string, user: string, app: Ref, sorted: bool)
      returns (got: Result<seq<Request>>)
    ensures got.Ok? <==> up
    ensures up ==> multiset(got.value) == multiset(Siblings(s, ns, user, app))
    ensures up ==> forall r :: r in got.value <==> Indexed(s, ns, user, app, r)
    ensures up && sorted ==> forall i, j :: 0 <= i < j < |got.value| ==> MayPrecede(got.value[i], got.value[j])
    ensures up && sorted ==> SameClasses(Siblings(s, ns, user, app), got.value, DefaultSort)
    ensures up && !sorted ==> got.value == Siblings(s, ns, user, app)
  {
    if !up {
      return Err(Failed);
    }
    var list := Siblings(s, ns, user, app);
    forall r ensures r in list <==> Indexed(s, ns, user, app, r) {
      SiblingsHold(s, ns, user, app, r);
    }
    if sorted {
      DefaultSortIsPreorder(list);
      SortIsStable(list, DefaultSort, list);
      SortPermutes(list, DefaultSort);
      ghost var after := StableSort(list, DefaultSort);
      SameMembers(list, after);
      forall i, j | 0 <= i < j < |after| ensures MayPrecede(after[i], after[j]) {
        DefaultSortSpelledOut(after[i], after[j]);
      }
      return Ok(StableSort(list, DefaultSort));
    }
    return Ok(list);
  }

  /** A request for the role that is waiting or granted. */
  predicate Current(r: Request, role: string) {
    r.spec.template.name == role && r.status.state in {Empty, Initiated, Requested, Granted}
  }

  /** None when no request of the key is current for the role; otherwise a current one that may stand
      before all of them. */
  predicate MostImportant(listed: seq<Request>, role: string, found: Option<Request>) {
    match found
    case None => forall r :: r in listed ==> !Current(r, role)
    case Some(f) =>
      && f in listed && Current(f, role)
      && forall r :: r in listed && Current(r, role) ==> MayPrecede(f, r)
  }

  /** A granted request is found only when none of the key waits for the role. */
  method GetAccessRequestByRole(s: Store, up: bool, ns: string, user: string, app: Ref, role: string)
      returns (found: Result<Option<Request>>)
    ensures found.Ok? <==> up
    ensures up ==> MostImportant(Siblings(s, ns, user, app), role, found.value)
    ensures up && found.value.Some? && found.value.value.status.state == Granted ==>
              forall r :: Indexed(s, ns, user, app, r) && r.spec.template.name == role ==>
                r.status.state !in {Empty, Initiated, Requested}
  {
    var got := ListAccessRequests(s, up, ns, user, app, true);
    if got.Err? {
      return Err(got.error);
    }
    var list, listed := got.value, Siblings(s, ns, user, app);
    for i := 0 to |list|
      invariant forall k :: 0 <= k < i ==> !Current(list[k], role)
    {
      if list[i].spec.template.name == role && !Concluded(list[i].status.state) {
        AlsoIn(list, listed, list[i]);
        forall r | r in list && Current(r, role) ensures MayPrecede(list[i], r) {
          var k :| 0 <= k < |list| && list[k] == r;
          DefaultSortSpelledOut(r, r);
          assert k >= i;
        }
        forall r | r in listed && Current(r, role) ensures MayPrecede(list[i], r) {
          AlsoIn(listed, list, r);
        }
        return Ok(Some(list[i]));
      }
    }
    forall r | r in listed ensures !Current(r, role) {
      AlsoIn(listed, list, r);
    }
    return Ok(None);
  }
}
