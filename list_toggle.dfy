/**
 * The selection toggle both forms use: when the value is already selected,
 * keep every other entry (`list.filter(item => item !== value)`); otherwise
 * append it (`[...list, value]`).
 */
module ListToggle {

  /** `xs.filter(y => y !== x)`: every occurrence of `x` dropped, the rest kept. */
  function RemoveAll(xs: seq<string>, x: string): (r: seq<string>)
    ensures x !in r
    ensures forall y :: y != x ==> multiset(r)[y] == multiset(xs)[y]
    ensures |r| + multiset(xs)[x] == |xs|
  {
    if xs == [] then []
    else
      var rest := RemoveAll(xs[1..], x);
      assert xs == [xs[0]] + xs[1..];
      if xs[0] == x then rest else [xs[0]] + rest
  }

  /** Filtering a list with no `x` in it gives the same list. */
  lemma {:induction false} RemoveAllAbsent(xs: seq<string>, x: string)
    requires x !in xs
    ensures RemoveAll(xs, x) == xs
  {
    if xs != [] {
      RemoveAllAbsent(xs[1..], x);
    }
  }

  /**
   * Filtering works piece by piece, so the entries that stay keep their
   * original order.
   */
  lemma {:induction false} RemoveAllAppend(a: seq<string>, b: seq<string>, x: string)
    ensures RemoveAll(a + b, x) == RemoveAll(a, x) + RemoveAll(b, x)
  {
    if a == [] {
      assert a + b == b;
    } else {
      assert (a + b)[1..] == a[1..] + b;
      RemoveAllAppend(a[1..], b, x);
    }
  }

  /**
   * The toggle: remove every occurrence of a present value, append an
   * absent one. Membership of `x` flips and nothing else changes.
   */
  function Toggle(xs: seq<string>, x: string): (r: seq<string>)
    ensures (x in r) <==> (x !in xs)
    ensures forall y :: y != x ==> multiset(r)[y] == multiset(xs)[y]
    ensures x in xs ==> |r| < |xs|
    ensures x !in xs ==> r == xs + [x]
    ensures x in xs ==> r == RemoveAll(xs, x)
  {
    if x in xs then
      RemoveAll(xs, x)
    else xs + [x]
  }

  /** Toggling an unselected value twice gives back the original list. */
  lemma ToggleTwiceRestores(xs: seq<string>, x: string)
    requires x !in xs
    ensures Toggle(Toggle(xs, x), x) == xs
  {
    RemoveAllAppend(xs, [x], x);
    RemoveAllAbsent(xs, x);
    assert RemoveAll([x], x) == [];
  }

  /**
   * Toggling a selected value twice leaves one copy of it, moved to the end;
   * so the list comes back only when the value was its single last entry.
   */
  lemma ToggleTwiceMovesToEnd(xs: seq<string>, x: string)
    requires x in xs
    ensures Toggle(Toggle(xs, x), x) == RemoveAll(xs, x) + [x]
  {
  }

}
