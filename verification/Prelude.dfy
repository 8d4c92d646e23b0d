/** Values shared by every module: optional values and the outcome of an API call. */
module Prelude {

  datatype Option<+T> = None | Some(value: T)

  /** The kinds of API error the controller tells apart. `Panic` is a nil dereference or an
      index out of range, which the controller runtime turns into an error. */
  datatype Error = NotFound | Conflict | Failed | Panic

  datatype Result<+T> = Ok(value: T) | Err(error: Error)

  /** A namespaced name. */
  datatype Ref = Ref(ns: string, name: string)

  /** `xs` with every element equal to `x` dropped, the order of the others kept. */
  function Without(xs: seq<string>, x: string): seq<string> {
    if xs == [] then []
    else (if xs[0] == x then [] else [xs[0]]) + Without(xs[1..], x)
  }

  lemma {:induction false} WithoutAppend(xs: seq<string>, ys: seq<string>, x: string)
    ensures Without(xs + ys, x) == Without(xs, x) + Without(ys, x)
  {
    if xs == [] {
      assert xs + ys == ys;
    } else {
      var head := if xs[0] == x then [] else [xs[0]];
      WithoutAppend(xs[1..], ys, x);
      assert (xs + ys)[1..] == xs[1..] + ys;
      assert (head + Without(xs[1..], x)) + Without(ys, x) == head + (Without(xs[1..], x) + Without(ys, x));
    }
  }

  /** Read from left to right: an element is kept, behind those kept before it, unless it is `x`. */
  lemma WithoutNext(xs: seq<string>, y: string, x: string)
    ensures Without([], x) == []
    ensures Without(xs + [y], x) == if y == x then Without(xs, x) else Without(xs, x) + [y]
  {
    WithoutAppend(xs, [y], x);
    assert [y][1..] == [];
  }

  lemma {:induction false} WithoutMembers(xs: seq<string>, x: string)
    ensures forall y :: y in Without(xs, x) <==> y in xs && y != x
    ensures x !in xs ==> Without(xs, x) == xs
  {
    if xs != [] {
      WithoutMembers(xs[1..], x);
      assert xs == [xs[0]] + xs[1..];
    }
  }
}
