/** Sequence helpers shared by the screens: JavaScript's `[...new Set(xs)]` and
    the first position of a value. */
module Lists {

  /** `[...new Set(xs)]`: each value once, at its first occurrence. */
  function Dedup<T(==)>(xs: seq<T>): seq<T>
    decreases |xs|
  {
    if xs == [] then []
    else
      var prev := Dedup(xs[..|xs| - 1]);
      if xs[|xs| - 1] in prev then prev else prev + [xs[|xs| - 1]]
  }

  /** The position of the first occurrence of `x`. */
  function FirstIndex<T(==)>(xs: seq<T>, x: T): (i: nat)
    requires x in xs
    ensures i < |xs| && xs[i] == x && x !in xs[..i]
  {
    if xs[0] == x then 0 else 1 + FirstIndex(xs[1..], x)
  }

  /** The set keeps exactly the values of the list, each once, ordered by where
      they first occur. */
  lemma {:induction false} DedupExact<T>(xs: seq<T>)
    ensures forall x :: x in Dedup(xs) <==> x in xs
    ensures forall i, j | 0 <= i < j < |Dedup(xs)| :: Dedup(xs)[i] != Dedup(xs)[j]
    ensures forall i, j | 0 <= i < j < |Dedup(xs)| :: FirstIndex(xs, Dedup(xs)[i]) < FirstIndex(xs, Dedup(xs)[j])
    decreases |xs|
  {
    if xs != [] {
      var n := |xs| - 1;
      var init := xs[..n];
      DedupExact(init);
      var prev := Dedup(init);
      assert xs == init + [xs[n]];
      forall y | y in init ensures FirstIndex(xs, y) == FirstIndex(init, y) {
        FirstIndexOfPrefix(init, xs[n], y);
      }
      if xs[n] !in prev {
        var r := prev + [xs[n]];
        FirstIndexUnique(xs, xs[n], n);
        forall i, j | 0 <= i < j < |r| ensures r[i] != r[j] && FirstIndex(xs, r[i]) < FirstIndex(xs, r[j]) {
          if j == |r| - 1 {
            assert r[i] in prev;
          }
        }
      }
    }
  }

  /** A position holding `x` with no `x` before it is the first occurrence. */
  lemma FirstIndexUnique<T>(xs: seq<T>, x: T, k: nat)
    requires k < |xs| && xs[k] == x && x !in xs[..k]
    ensures FirstIndex(xs, x) == k
  {
    var a := FirstIndex(xs, x);
    forall i | 0 <= i < a ensures xs[i] != x {
      assert xs[i] == xs[..a][i];
    }
    forall i | 0 <= i < k ensures xs[i] != x {
      assert xs[i] == xs[..k][i];
    }
  }

  lemma FirstIndexOfPrefix<T>(init: seq<T>, last: T, y: T)
    requires y in init
    ensures FirstIndex(init + [last], y) == FirstIndex(init, y)
  {
    var xs := init + [last];
    var b := FirstIndex(init, y);
    assert xs[..b] == init[..b];
    FirstIndexUnique(xs, y, b);
  }
}
