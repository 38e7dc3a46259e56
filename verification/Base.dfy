/** Types shared by every part of the model. */
module Base {

  datatype Option<+T> = None | Some(value: T)

  /** An instant or a duration, counted in nanoseconds unless a module says otherwise. */
  type Time = int

  const MILLISECOND: Time := 1_000_000

  const SECOND: Time := 1_000_000_000

  /** An opaque JSON value: marshalling is taken to be lossless. */
  type Val = int

  function Min(a: int, b: int): int { if a <= b then a else b }

  function Bit(b: bool): nat { if b then 1 else 0 }

  function Max(a: int, b: int): int { if a <= b then b else a }

  /** The row numbers listed by a sequence, as a set. */
  function Elems(s: seq<nat>): set<nat> { set x | x in s }

  ghost predicate Distinct(s: seq<nat>) {
    forall i, j | 0 <= i < j < |s| :: s[i] != s[j]
  }

  lemma {:induction false} DistinctCard(s: seq<nat>)
    requires Distinct(s)
    ensures |Elems(s)| == |s|
  {
    if s == [] {
    } else {
      var n := |s| - 1;
      DistinctCard(s[..n]);
      assert Elems(s) == Elems(s[..n]) + {s[n]};
      assert s[n] !in Elems(s[..n]);
    }
  }

  lemma DistinctConcat(a: seq<nat>, b: seq<nat>)
    requires Distinct(a) && Distinct(b)
    requires forall k | 0 <= k < |b| :: b[k] !in a
    ensures Distinct(a + b)
  {
    forall i, j | 0 <= i < j < |a + b| ensures (a + b)[i] != (a + b)[j] {
      if i < |a| <= j {
        assert (a + b)[i] in a;
      }
    }
  }

  lemma SubsetCard<T>(a: set<T>, b: set<T>)
    requires a <= b
    ensures |a| <= |b|
  {
    assert b == a + (b - a);
  }

  lemma UnionCard<T>(a: set<T>, b: set<T>)
    ensures |a + b| <= |a| + |b|
  {
    assert a + b == a + (b - a);
    SubsetCard(b - a, b);
  }
}
