/**
 * List operations. The store uses `Array.prototype.filter` and the id-keyed
 * `map` with a shallow merge on its collections; the reversal belongs to the
 * app's recent-expenses list.
 */
module Sequences {

  /** `xs.filter(keep)`: the elements satisfying `keep`, in their original order. */
  function Filter<T(!new)>(xs: seq<T>, keep: T -> bool): (r: seq<T>)
    ensures |r| <= |xs|
    ensures forall x :: x in r <==> x in xs && keep(x)
  {
    if xs == [] then []
    else (if keep(xs[0]) then [xs[0]] else []) + Filter(xs[1..], keep)
  }

  /** Filtering a concatenation filters each part: the survivors keep their relative order. */
  lemma {:induction false} FilterConcat<T(!new)>(a: seq<T>, b: seq<T>, keep: T -> bool)
    ensures Filter(a + b, keep) == Filter(a, keep) + Filter(b, keep)
  {
    if a == [] {
      assert a + b == b;
    } else {
      assert (a + b)[0] == a[0];
      assert (a + b)[1..] == a[1..] + b;
      FilterConcat(a[1..], b, keep);
    }
  }

  /** When every element is kept, filtering changes nothing. */
  lemma {:induction false} FilterKeepsAll<T(!new)>(xs: seq<T>, keep: T -> bool)
    requires forall x :: x in xs ==> keep(x)
    ensures Filter(xs, keep) == xs
  {
    if xs != [] {
      assert forall x :: x in xs[1..] ==> x in xs;
      FilterKeepsAll(xs[1..], keep);
    }
  }

  /** When no element is kept, the result is empty. */
  lemma {:induction false} FilterDropsAll<T(!new)>(xs: seq<T>, keep: T -> bool)
    requires forall x :: x in xs ==> !keep(x)
    ensures Filter(xs, keep) == []
  {
    if xs != [] {
      assert forall x :: x in xs[1..] ==> x in xs;
      FilterDropsAll(xs[1..], keep);
    }
  }

  /**
   * `xs.filter((x) => idOf(x) !== id)`: removes exactly the elements carrying
   * `id`; an id that no element carries leaves the list as it was.
   */
  function DeleteById<T(!new)>(xs: seq<T>, idOf: T -> string, id: string): (r: seq<T>)
    ensures forall x :: x in r <==> x in xs && idOf(x) != id
    ensures (forall x :: x in xs ==> idOf(x) != id) ==> r == xs
    ensures (forall x :: x in xs ==> idOf(x) == id) ==> r == []
  {
    var keep := (x: T) => idOf(x) != id;
    var r := Filter(xs, keep);
    assert (forall x :: x in xs ==> idOf(x) != id) ==> r == xs by {
      if forall x :: x in xs ==> idOf(x) != id { FilterKeepsAll(xs, keep); }
    }
    assert (forall x :: x in xs ==> idOf(x) == id) ==> r == [] by {
      if forall x :: x in xs ==> idOf(x) == id { FilterDropsAll(xs, keep); }
    }
    r
  }

  /** Deleting the same id twice is the same as deleting it once. */
  lemma DeleteByIdIdempotent<T(!new)>(xs: seq<T>, idOf: T -> string, id: string)
    ensures DeleteById(DeleteById(xs, idOf, id), idOf, id) == DeleteById(xs, idOf, id)
  {
  }

  /** Deleting from a concatenation deletes from each part, so the order of the survivors is kept. */
  lemma DeleteByIdConcat<T(!new)>(a: seq<T>, b: seq<T>, idOf: T -> string, id: string)
    ensures DeleteById(a + b, idOf, id) == DeleteById(a, idOf, id) + DeleteById(b, idOf, id)
  {
    FilterConcat(a, b, (x: T) => idOf(x) != id);
  }

  /**
   * `xs.map((x) => idOf(x) === id ? merge(x, patch) : x)`: the same length and
   * order, with the patch applied to exactly the elements carrying `id`.
   */
  function UpdateById<T, P>(xs: seq<T>, idOf: T -> string, id: string, merge: (T, P) -> T, patch: P): (r: seq<T>)
    ensures |r| == |xs|
    ensures forall i :: 0 <= i < |xs| ==> r[i] == if idOf(xs[i]) == id then merge(xs[i], patch) else xs[i]
  {
    if xs == [] then []
    else [if idOf(xs[0]) == id then merge(xs[0], patch) else xs[0]] + UpdateById(xs[1..], idOf, id, merge, patch)
  }

  /** An update for an id that no element carries is a no-op. */
  lemma UpdateByIdAbsent<T, P>(xs: seq<T>, idOf: T -> string, id: string, merge: (T, P) -> T, patch: P)
    requires forall i :: 0 <= i < |xs| ==> idOf(xs[i]) != id
    ensures UpdateById(xs, idOf, id, merge, patch) == xs
  {
  }

  /** Applying the same update twice is the same as applying it once, when the merge itself is idempotent. */
  lemma UpdateByIdIdempotent<T, P>(xs: seq<T>, idOf: T -> string, id: string, merge: (T, P) -> T, patch: P)
    requires forall x :: merge(merge(x, patch), patch) == merge(x, patch)
    ensures UpdateById(UpdateById(xs, idOf, id, merge, patch), idOf, id, merge, patch)
         == UpdateById(xs, idOf, id, merge, patch)
  {
  }

  /** The elements in reverse order. */
  function Reverse<T>(xs: seq<T>): (r: seq<T>)
    ensures |r| == |xs|
    ensures forall i :: 0 <= i < |xs| ==> r[i] == xs[|xs| - 1 - i]
  {
    if xs == [] then [] else Reverse(xs[1..]) + [xs[0]]
  }
}
