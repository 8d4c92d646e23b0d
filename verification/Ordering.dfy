/** The two orders of the backend (internal/backend/service.go, lines 64-78 and 352-409): access
    requests by importance, access bindings by ordinal. */
module Ordering {
  import opened Prelude
  import opened Requests
  import opened Sorting

  /** An access binding. Its role is the name of the role template it refers to. */
  datatype Binding = Binding(ns: string, name: string, role: string, ordinal: int, friendly: Option<string>)

  // ---------------------------------------------------------------- strings

  /** Lexicographic comparison. */
  function Compare(a: string, b: string): int {
    if a == "" && b == "" then 0
    else if a == "" then -1
    else if b == "" then 1
    else if a[0] != b[0] then (if a[0] < b[0] then -1 else 1)
    else Compare(a[1..], b[1..])
  }

  lemma {:induction false} CompareOpposite(a: string, b: string)
    ensures Compare(a, b) == -Compare(b, a)
    ensures Compare(a, b) == 0 <==> a == b
  {
    if a != "" && b != "" && a[0] == b[0] {
      CompareOpposite(a[1..], b[1..]);
      assert a == [a[0]] + a[1..] && b == [b[0]] + b[1..];
    }
  }

  lemma {:induction false} CompareTransitive(a: string, b: string, c: string)
    requires Compare(a, b) <= 0 && Compare(b, c) <= 0
    ensures Compare(a, c) <= 0
    ensures Compare(a, b) < 0 || Compare(b, c) < 0 ==> Compare(a, c) < 0
  {
    if a != "" && b != "" && c != "" && a[0] == b[0] == c[0] {
      CompareTransitive(a[1..], b[1..], c[1..]);
    }
  }

  /** Up to the first character where they differ both are the same; there the smaller string ends or has
      the smaller character. */
  predicate DiffersAt(a: string, b: string, k: nat) {
    && k <= |a| && k < |b| && a[..k] == b[..k]
    && (k == |a| || a[k] < b[k])
  }

  predicate Smaller(a: string, b: string) {
    exists k :: 0 <= k <= |a| && DiffersAt(a, b, k)
  }

  lemma {:induction false} NegativeDiffers(a: string, b: string)
    requires Compare(a, b) < 0
    ensures Smaller(a, b)
  {
    if a == "" || a[0] != b[0] {
      assert DiffersAt(a, b, 0);
    } else {
      NegativeDiffers(a[1..], b[1..]);
      var k :| 0 <= k <= |a[1..]| && DiffersAt(a[1..], b[1..], k);
      assert a[..k + 1] == [a[0]] + a[1..][..k] && b[..k + 1] == [b[0]] + b[1..][..k];
      assert DiffersAt(a, b, k + 1);
    }
  }

  lemma {:induction false} DiffersNegative(a: string, b: string, k: nat)
    requires DiffersAt(a, b, k)
    ensures Compare(a, b) < 0
  {
    if k > 0 {
      assert a[..k][0] == b[..k][0] && a[1..][..k - 1] == a[..k][1..] && b[1..][..k - 1] == b[..k][1..];
      DiffersNegative(a[1..], b[1..], k - 1);
    }
  }

  /** The comparison is negative exactly when the first string comes before the second in a dictionary. */
  lemma CompareIsLexicographic(a: string, b: string)
    ensures Compare(a, b) < 0 <==> Smaller(a, b)
    ensures Compare(a, b) == 0 <==> a == b
    ensures Compare(a, b) > 0 <==> Smaller(b, a)
  {
    CompareOpposite(a, b);
    if Compare(a, b) < 0 { NegativeDiffers(a, b); }
    if Compare(b, a) < 0 { NegativeDiffers(b, a); }
    if k :| 0 <= k <= |a| && DiffersAt(a, b, k) { DiffersNegative(a, b, k); }
    if k :| 0 <= k <= |b| && DiffersAt(b, a, k) { DiffersNegative(b, a, k); }
  }

  // ---------------------------------------------------------------- access requests

  function StateOrder(state: State): int {
    match state
    case Empty => 0
    case Initiated => 0
    case Requested => 0
    case Granted => 1
    case Denied => 2
    case Timeout => 2
    case Invalid => 3
    case Expired => 4
  }

  /** Negative when `a` comes first: by state, ordinal, role name, and then the newer one. */
  function DefaultSort(a: Request, b: Request): int {
    if a.status.state != b.status.state && StateOrder(a.status.state) != StateOrder(b.status.state) then
      StateOrder(a.status.state) - StateOrder(b.status.state)
    else if a.spec.ordinal != b.spec.ordinal then a.spec.ordinal - b.spec.ordinal
    else if a.spec.template.name != b.spec.template.name then Compare(a.spec.template.name, b.spec.template.name)
    else if a.created != b.created then (if a.created < b.created then 1 else -1)
    else 0
  }

  lemma DefaultSortOpposite(a: Request, b: Request)
    ensures Opposite(DefaultSort, a, b)
    ensures DefaultSort(a, b) == 0 <==>
              && StateOrder(a.status.state) == StateOrder(b.status.state) && a.spec.ordinal == b.spec.ordinal
              && a.spec.template.name == b.spec.template.name && a.created == b.created
  {
    CompareOpposite(a.spec.template.name, b.spec.template.name);
  }

  lemma DefaultSortChain(a: Request, b: Request, c: Request)
    ensures Chain(DefaultSort, a, b, c)
  {
    var x, y, z := a.spec.template.name, b.spec.template.name, c.spec.template.name;
    CompareOpposite(x, y);
    CompareOpposite(y, z);
    CompareOpposite(x, z);
    if Compare(x, y) <= 0 && Compare(y, z) <= 0 { CompareTransitive(x, y, z); }
  }

  /** The order of access requests is a total preorder on every list. */
  lemma DefaultSortIsPreorder(list: seq<Request>)
    ensures PreorderOn(list, DefaultSort)
  {
    forall a, b | a in list && b in list ensures Opposite(DefaultSort, a, b) {
      DefaultSortOpposite(a, b);
    }
    forall a, b, c | a in list && b in list && c in list ensures Chain(DefaultSort, a, b, c) {
      DefaultSortChain(a, b, c);
    }
  }

  predicate Waiting(state: State) {
    state in {Empty, Initiated, Requested}
  }

  /** Both wait for a decision, or both were turned down, or the states are the same. */
  predicate Alike(a: State, b: State) {
    a == b || (Waiting(a) && Waiting(b)) || (a in {Denied, Timeout} && b in {Denied, Timeout})
  }

  /** In a sorted list `a` may stand before `b`: waiting requests come first, then granted ones, denied
      and timed out ones, invalid ones, and expired ones last; among those alike the lower ordinal,
      then the smaller role name, then the newer request. */
  predicate MayPrecede(a: Request, b: Request) {
    && (Waiting(b.status.state) ==> Waiting(a.status.state))
    && (b.status.state == Granted ==> Waiting(a.status.state) || a.status.state == Granted)
    && (b.status.state in {Denied, Timeout} ==> a.status.state !in {Invalid, Expired})
    && (b.status.state == Invalid ==> a.status.state != Expired)
    && (Alike(a.status.state, b.status.state) ==>
          || a.spec.ordinal < b.spec.ordinal
          || (&& a.spec.ordinal == b.spec.ordinal
              && (|| Smaller(a.spec.template.name, b.spec.template.name)
                  || (a.spec.template.name == b.spec.template.name && a.created >= b.created))))
  }

  /** The order of access requests is the one spelled out. */
  lemma DefaultSortSpelledOut(a: Request, b: Request)
    ensures DefaultSort(a, b) <= 0 <==> MayPrecede(a, b)
  {
    CompareIsLexicographic(a.spec.template.name, b.spec.template.name);
  }

  // ---------------------------------------------------------------- access bindings

  /** Higher ordinals first; equal ordinals by friendly name, if both have one. */
  function OrdinalSortDesc(a: Binding, b: Binding): int {
    if a.ordinal == b.ordinal && a.friendly.Some? && b.friendly.Some? then Compare(a.friendly.value, b.friendly.value)
    else b.ordinal - a.ordinal
  }

  predicate Mixed(a: Binding, b: Binding, c: Binding) {
    a.ordinal == b.ordinal == c.ordinal && a.friendly.None? && b.friendly.Some? && c.friendly.Some?
  }

  /** Bindings of one ordinal either all have a friendly name, or all that have one share it. */
  predicate NamesAgree(list: seq<Binding>) {
    forall a, b, c :: a in list && b in list && c in list && Mixed(a, b, c) ==> b.friendly == c.friendly
  }

  lemma OrdinalSortOpposite(a: Binding, b: Binding)
    ensures Opposite(OrdinalSortDesc, a, b)
  {
    if a.friendly.Some? && b.friendly.Some? { CompareOpposite(a.friendly.value, b.friendly.value); }
  }

  lemma OrdinalSortChain(a: Binding, b: Binding, c: Binding, list: seq<Binding>)
    requires NamesAgree(list) && a in list && b in list && c in list
    ensures Chain(OrdinalSortDesc, a, b, c)
  {
    if a.friendly.Some? && c.friendly.Some? {
      CompareOpposite(a.friendly.value, c.friendly.value);
      if b.friendly.Some? {
        var x, y, z := a.friendly.value, b.friendly.value, c.friendly.value;
        CompareOpposite(x, y);
        CompareOpposite(y, z);
        if Compare(x, y) <= 0 && Compare(y, z) <= 0 { CompareTransitive(x, y, z); }
      }
    }
  }

  /** With an unnamed binding between two differently named ones of the same ordinal, the first
      compares as not before the last although neither differs from the one between. */
  lemma UnnamedBreaksChain(a: Binding, b: Binding, c: Binding)
    requires a.ordinal == b.ordinal == c.ordinal && b.friendly.None? && a.friendly.Some? && c.friendly.Some?
    requires a.friendly != c.friendly
    ensures !Chain(OrdinalSortDesc, a, b, c) || !Chain(OrdinalSortDesc, c, b, a)
  {
    CompareOpposite(a.friendly.value, c.friendly.value);
  }

  /** The order of access bindings is a total preorder on a list exactly when no ordinal mixes an
      unnamed binding with bindings of different names. */
  lemma OrdinalSortIsPreorder(list: seq<Binding>)
    ensures PreorderOn(list, OrdinalSortDesc) <==> NamesAgree(list)
  {
    if NamesAgree(list) {
      forall a, b | a in list && b in list ensures Opposite(OrdinalSortDesc, a, b) {
        OrdinalSortOpposite(a, b);
      }
      forall a, b, c | a in list && b in list && c in list ensures Chain(OrdinalSortDesc, a, b, c) {
        OrdinalSortChain(a, b, c, list);
      }
    } else {
      var b, a, c :| b in list && a in list && c in list && Mixed(b, a, c) && a.friendly != c.friendly;
      UnnamedBreaksChain(a, b, c);
    }
  }

  /** In a sorted list `a` may stand before `b`: the higher ordinal comes first, and of two named bindings
      of one ordinal the smaller name. */
  predicate BindingMayPrecede(a: Binding, b: Binding) {
    || a.ordinal > b.ordinal
    || (&& a.ordinal == b.ordinal
        && (a.friendly.Some? && b.friendly.Some? ==>
              a.friendly == b.friendly || Smaller(a.friendly.value, b.friendly.value)))
  }

  lemma OrdinalSortSpelledOut(a: Binding, b: Binding)
    ensures OrdinalSortDesc(a, b) <= 0 <==> BindingMayPrecede(a, b)
  {
    if a.friendly.Some? && b.friendly.Some? { CompareIsLexicographic(a.friendly.value, b.friendly.value); }
  }
}
