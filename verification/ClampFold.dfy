/** What GREATEST(count + delta, 0) computes over a whole sequence of updates. */
module ClampFold {
  import opened Tally

  function Clamped(x: int, d: int): int {
    Max(x + d, 0)
  }

  /** How much one clamped update adds beyond its delta. */
  function Clip(x: int, d: int): int {
    Clamped(x, d) - (x + d)
  }

  function Fold(x: int, ds: seq<int>): int
    decreases |ds|
  {
    if ds == [] then x else Fold(Clamped(x, ds[0]), ds[1..])
  }

  function Total(ds: seq<int>): int {
    if ds == [] then 0 else ds[0] + Total(ds[1..])
  }

  /** The largest sum of a suffix, the empty one included. */
  function BestSuffix(ds: seq<int>): int {
    if ds == [] then 0 else Max(Total(ds), BestSuffix(ds[1..]))
  }

  function Clips(x: int, ds: seq<int>): int
    decreases |ds|
  {
    if ds == [] then 0 else Clip(x, ds[0]) + Clips(Clamped(x, ds[0]), ds[1..])
  }

  /** BestSuffix is the maximum it is named after. */
  lemma {:induction false} BestSuffixIsMax(ds: seq<int>)
    ensures exists k :: 0 <= k <= |ds| && BestSuffix(ds) == Total(ds[k..])
    ensures forall k :: 0 <= k <= |ds| ==> Total(ds[k..]) <= BestSuffix(ds)
  {
    if ds == [] {
      assert ds[0..] == [];
    } else {
      BestSuffixIsMax(ds[1..]);
      assert forall k :: 0 <= k < |ds| ==> ds[1..][k..] == ds[k + 1..];
      assert ds[0..] == ds;
      var j :| 0 <= j <= |ds[1..]| && BestSuffix(ds[1..]) == Total(ds[1..][j..]);
      assert Total(ds[j + 1..]) == BestSuffix(ds[1..]);
      forall k | 0 <= k <= |ds| ensures Total(ds[k..]) <= BestSuffix(ds) {
        if k > 0 {
          assert ds[1..][k - 1..] == ds[k..];
        }
      }
    }
  }

  /** The closed form of a run of clamped updates, in whatever order they were applied. */
  lemma {:induction false} FoldIsBestOf(x: int, ds: seq<int>)
    requires 0 <= x
    ensures Fold(x, ds) == Max(x + Total(ds), BestSuffix(ds))
    decreases |ds|
  {
    if ds != [] {
      FoldIsBestOf(Clamped(x, ds[0]), ds[1..]);
    }
  }

  /** The result never falls below the true total, and exceeds it by what was clipped. */
  lemma {:induction false} FoldIsTotalPlusClips(x: int, ds: seq<int>)
    ensures Fold(x, ds) == x + Total(ds) + Clips(x, ds)
    ensures Clips(x, ds) >= 0
    ensures 0 <= x ==> Fold(x, ds) >= 0
    decreases |ds|
  {
    if ds != [] {
      FoldIsTotalPlusClips(Clamped(x, ds[0]), ds[1..]);
    }
  }

  lemma {:induction false} TotalOfSplit(ds: seq<int>, k: nat)
    requires k <= |ds|
    ensures Total(ds) == Total(ds[..k]) + Total(ds[k..])
  {
    if k == 0 {
      assert ds[0..] == ds;
    } else {
      TotalOfSplit(ds[1..], k - 1);
      assert ds[..k][1..] == ds[1..][..k - 1] && ds[1..][k - 1..] == ds[k..];
    }
  }

  /** The counter is exact exactly when no prefix of the updates goes below zero. */
  lemma FoldIsExactIff(x: int, ds: seq<int>)
    requires 0 <= x
    ensures Fold(x, ds) == x + Total(ds) <==> forall k :: 0 <= k <= |ds| ==> 0 <= x + Total(ds[..k])
  {
    FoldIsBestOf(x, ds);
    BestSuffixIsMax(ds);
    forall k | 0 <= k <= |ds| ensures Total(ds) == Total(ds[..k]) + Total(ds[k..]) {
      TotalOfSplit(ds, k);
    }
    var worst :| 0 <= worst <= |ds| && BestSuffix(ds) == Total(ds[worst..]);
    if Fold(x, ds) == x + Total(ds) {
      forall k | 0 <= k <= |ds| ensures 0 <= x + Total(ds[..k]) {
        assert Total(ds[k..]) <= BestSuffix(ds);
      }
    } else {
      assert x + Total(ds[..worst]) < 0;
    }
  }

  lemma {:induction false} FoldOfConcat(x: int, ds: seq<int>, es: seq<int>)
    ensures Fold(x, ds + es) == Fold(Fold(x, ds), es)
    decreases |ds|
  {
    if ds == [] {
      assert ds + es == es;
    } else {
      assert (ds + es)[1..] == ds[1..] + es;
      FoldOfConcat(Clamped(x, ds[0]), ds[1..], es);
    }
  }
}
