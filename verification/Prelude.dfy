/** Shared vocabulary: optional values and sums over sequences of weights. */
module Prelude {

  datatype Option<+T> = None | Some(value: T)

  function Max(a: int, b: int): int { if a >= b then a else b }

  function Min(a: int, b: int): int { if a <= b then a else b }

  /** The database's SUM: each law below weighs the rows of a table and sums the weights. */
  function Sum(w: seq<int>): int
  {
    if w == [] then 0 else Sum(w[..|w| - 1]) + w[|w| - 1]
  }

  lemma SumAppend(w: seq<int>, x: int)
    ensures Sum(w + [x]) == Sum(w) + x
  {
    assert (w + [x])[..|w|] == w;
  }

  lemma {:induction false} SumConcat(a: seq<int>, b: seq<int>)
    ensures Sum(a + b) == Sum(a) + Sum(b)
  {
    if b == [] {
      assert a + b == a;
    } else {
      assert (a + b)[..|a + b| - 1] == a + b[..|b| - 1];
      SumConcat(a, b[..|b| - 1]);
    }
  }

  lemma {:induction false} SumUpdate(w: seq<int>, i: nat, x: int)
    requires i < |w|
    ensures Sum(w[i := x]) == Sum(w) - w[i] + x
  {
    var n := |w| - 1;
    if i == n {
      assert w[i := x][..n] == w[..n];
    } else {
      assert w[i := x][..n] == w[..n][i := x];
      SumUpdate(w[..n], i, x);
    }
  }

  lemma {:induction false} SumPointwise(u: seq<int>, v: seq<int>, w: seq<int>)
    requires |u| == |v| == |w|
    requires forall i :: 0 <= i < |w| ==> w[i] == u[i] + v[i]
    ensures Sum(w) == Sum(u) + Sum(v)
  {
    if |w| > 0 {
      var n := |w| - 1;
      SumPointwise(u[..n], v[..n], w[..n]);
    }
  }

  lemma {:induction false} SumMonotone(v: seq<int>, w: seq<int>)
    requires |v| == |w|
    requires forall i :: 0 <= i < |w| ==> v[i] <= w[i]
    ensures Sum(v) <= Sum(w)
  {
    if |w| > 0 {
      var n := |w| - 1;
      SumMonotone(v[..n], w[..n]);
    }
  }

  lemma {:induction false} SumZero(w: seq<int>)
    requires forall i :: 0 <= i < |w| ==> w[i] == 0
    ensures Sum(w) == 0
  {
    if |w| > 0 {
      SumZero(w[..|w| - 1]);
    }
  }

  /** A sum of non-negative weights is zero exactly when every weight is. */
  lemma {:induction false} SumZeroIff(w: seq<int>)
    requires forall i :: 0 <= i < |w| ==> w[i] >= 0
    ensures Sum(w) >= 0
    ensures Sum(w) == 0 <==> forall i :: 0 <= i < |w| ==> w[i] == 0
  {
    if |w| > 0 {
      SumZeroIff(w[..|w| - 1]);
      var front := w[..|w| - 1];
      if Sum(w) == 0 {
        forall i | 0 <= i < |w| ensures w[i] == 0 {
          if i < |front| { assert front[i] == w[i]; }
        }
      } else if forall i :: 0 <= i < |w| ==> w[i] == 0 {
        assert w[|front|] == 0;
        SumZero(w);
      }
    }
  }

  /** Inserting one row anywhere adds exactly its weight. */
  lemma SumInsert(a: seq<int>, x: int, b: seq<int>)
    ensures Sum(a + [x] + b) == Sum(a + b) + x
  {
    SumConcat(a + [x], b);
    SumAppend(a, x);
    SumConcat(a, b);
  }

  /** Of non-negative weights, a prefix and the weight after it never exceed the sum. */
  lemma SumPrefix(w: seq<int>, n: nat)
    requires n < |w|
    requires forall i :: 0 <= i < |w| ==> w[i] >= 0
    ensures Sum(w[..n]) + w[n] <= Sum(w)
  {
    SumAppend(w[..n], w[n]);
    assert w[..n] + [w[n]] == w[..n + 1];
    assert w == w[..n + 1] + w[n + 1..];
    SumConcat(w[..n + 1], w[n + 1..]);
    SumZeroIff(w[n + 1..]);
  }

  /** The prefixes of a run are those of all but its last step, and the run itself. */
  lemma Prefixes<T>(run: seq<T>)
    requires run != []
    ensures run[..|run|] == run
    ensures run[..|run| - 1][..|run| - 1] == run[..|run| - 1]
    ensures forall k {:trigger run[..k]} :: 0 <= k < |run| ==> run[..k] == run[..|run| - 1][..k]
    ensures forall k {:trigger run[..|run| - 1][..k]} :: 0 <= k < |run| ==> run[..k] == run[..|run| - 1][..k]
  {
  }
}
