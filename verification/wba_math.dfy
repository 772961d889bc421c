/** Integer arithmetic shared by the weighted-benefit-analysis (WBA) slides:
    the sum of a list, the weighted total Σ score·weight of one design,
    the maximum of a list of totals, and the clamping of typed cell values. */
module WbaMath {
  import opened Wrappers

  /** Largest value a weight or score cell accepts. */
  const CellMax := 10

  /** Sum of a list, folded from the left as `xs.reduce((a, b) => a + b, 0)`. */
  function Sum(xs: seq<int>): int
  {
    if |xs| == 0 then 0 else Sum(xs[..|xs| - 1]) + xs[|xs| - 1]
  }

  /** The pointwise products `scores[i] * weights[i]`. */
  function Products(scores: seq<int>, weights: seq<int>): (ps: seq<int>)
    requires |scores| == |weights|
    ensures |ps| == |scores|
    ensures forall i :: 0 <= i < |ps| ==> ps[i] == scores[i] * weights[i]
  {
    seq(|scores|, i requires 0 <= i < |scores| => scores[i] * weights[i])
  }

  /** The WBA total of one design row, Σ row[i]·weights[i], accumulated
      left to right as the slides' `calcTotal` reduce does. */
  function WeightedTotal(row: seq<int>, weights: seq<int>): int
    requires |row| == |weights|
  {
    if |row| == 0 then 0
    else WeightedTotal(row[..|row| - 1], weights[..|row| - 1]) + row[|row| - 1] * weights[|row| - 1]
  }

  /** The weighted total is the sum of the per-need products. */
  lemma {:induction false} WeightedTotalIsSumOfProducts(row: seq<int>, weights: seq<int>)
    requires |row| == |weights|
    ensures WeightedTotal(row, weights) == Sum(Products(row, weights))
  {
    if |row| > 0 {
      var n := |row| - 1;
      WeightedTotalIsSumOfProducts(row[..n], weights[..n]);
      assert Products(row, weights)[..n] == Products(row[..n], weights[..n]);
    }
  }

  /** A cell is in the range the inputs admit after clamping. */
  predicate InCellRange(x: int)
  {
    0 <= x <= CellMax
  }

  predicate AllInCellRange(xs: seq<int>)
  {
    forall i :: 0 <= i < |xs| ==> InCellRange(xs[i])
  }

  /** A five-need weighted total written out term by term, as the slides
      show their worked calculations. */
  lemma WeightedTotalOfFive(row: seq<int>, weights: seq<int>)
    requires |row| == |weights| == 5
    ensures WeightedTotal(row, weights)
         == row[0] * weights[0] + row[1] * weights[1] + row[2] * weights[2]
          + row[3] * weights[3] + row[4] * weights[4]
  {
    var r4, w4 := row[..4], weights[..4];
    var r3, w3 := row[..3], weights[..3];
    var r2, w2 := row[..2], weights[..2];
    var r1, w1 := row[..1], weights[..1];
    assert r4[..3] == r3 && w4[..3] == w3;
    assert r3[..2] == r2 && w3[..2] == w2;
    assert r2[..1] == r1 && w2[..1] == w1;
    assert WeightedTotal(r1, w1) == row[0] * weights[0];
    assert WeightedTotal(r2, w2) == WeightedTotal(r1, w1) + row[1] * weights[1];
    assert WeightedTotal(r3, w3) == WeightedTotal(r2, w2) + row[2] * weights[2];
    assert WeightedTotal(r4, w4) == WeightedTotal(r3, w3) + row[3] * weights[3];
    assert WeightedTotal(row, weights) == WeightedTotal(r4, w4) + row[4] * weights[4];
  }

  lemma CellProductBound(a: int, b: int)
    requires InCellRange(a) && InCellRange(b)
    ensures 0 <= a * b <= CellMax * CellMax
  {
    assert a * b <= a * CellMax;
    assert a * CellMax <= CellMax * CellMax;
  }

  /** With every cell and weight in [0, 10], a row of n needs totals
      somewhere in [0, 100·n]. */
  lemma {:induction false} WeightedTotalBounds(row: seq<int>, weights: seq<int>)
    requires |row| == |weights|
    requires AllInCellRange(row) && AllInCellRange(weights)
    ensures 0 <= WeightedTotal(row, weights) <= CellMax * CellMax * |row|
  {
    if |row| > 0 {
      var n := |row| - 1;
      WeightedTotalBounds(row[..n], weights[..n]);
      CellProductBound(row[n], weights[n]);
    }
  }

  /** Changing one score moves the total by exactly (new − old)·weight. */
  lemma {:induction false} WeightedTotalScoreUpdate(row: seq<int>, weights: seq<int>, k: int, v: int)
    requires |row| == |weights| && 0 <= k < |row|
    ensures WeightedTotal(row[k := v], weights) == WeightedTotal(row, weights) + (v - row[k]) * weights[k]
  {
    var n := |row| - 1;
    if k == n {
      assert row[k := v][..n] == row[..n];
    } else {
      assert row[k := v][..n] == row[..n][k := v];
      WeightedTotalScoreUpdate(row[..n], weights[..n], k, v);
    }
  }

  /** Changing one weight moves the total by exactly score·(new − old). */
  lemma {:induction false} WeightedTotalWeightUpdate(row: seq<int>, weights: seq<int>, k: int, v: int)
    requires |row| == |weights| && 0 <= k < |row|
    ensures WeightedTotal(row, weights[k := v]) == WeightedTotal(row, weights) + row[k] * (v - weights[k])
  {
    var n := |row| - 1;
    if k == n {
      assert weights[k := v][..n] == weights[..n];
    } else {
      assert weights[k := v][..n] == weights[..n][k := v];
      WeightedTotalWeightUpdate(row[..n], weights[..n], k, v);
    }
  }

  /** The executable `calcTotal`: one pass accumulating `sum + s * weights[i]`. */
  method CalcTotal(row: seq<int>, weights: seq<int>) returns (total: int)
    requires |row| == |weights|
    ensures total == Sum(Products(row, weights))
  {
    total := 0;
    var i := 0;
    while i < |row|
      invariant 0 <= i <= |row|
      invariant total == WeightedTotal(row[..i], weights[..i])
    {
      assert row[..i + 1][..i] == row[..i];
      assert weights[..i + 1][..i] == weights[..i];
      total := total + row[i] * weights[i];
      i := i + 1;
    }
    assert row[..i] == row && weights[..i] == weights;
    WeightedTotalIsSumOfProducts(row, weights);
  }

  /** `Math.max(...xs)` on a non-empty list: a member of the list that no
      element exceeds. */
  function MaxOf(xs: seq<int>): (m: int)
    requires |xs| > 0
    ensures m in xs
    ensures forall i :: 0 <= i < |xs| ==> xs[i] <= m
  {
    if |xs| == 1 then xs[0]
    else
      var rest := MaxOf(xs[..|xs| - 1]);
      if xs[|xs| - 1] > rest then xs[|xs| - 1] else rest
  }

  /** A value is the maximum of a list iff it occurs in it and bounds it. */
  lemma MaxOfCharacterised(xs: seq<int>, m: int)
    requires |xs| > 0
    ensures MaxOf(xs) == m <==> (m in xs && forall i :: 0 <= i < |xs| ==> xs[i] <= m)
  {
    if m in xs && forall i :: 0 <= i < |xs| ==> xs[i] <= m {
      var j :| 0 <= j < |xs| && xs[j] == MaxOf(xs);
      var k :| 0 <= k < |xs| && xs[k] == m;
      assert xs[j] <= m && xs[k] <= MaxOf(xs);
    }
  }

  /** The value stored by `updateWeight` / `updateScore`:
      `Math.max(0, Math.min(10, parseInt(val) || 0))`. Both `NaN` and `0`
      are falsy, so `|| 0` turns them into 0. */
  function ClampInput(parsed: Option<int>): (v: int)
    ensures InCellRange(v)
    ensures parsed.None? ==> v == 0
    ensures parsed.Some? && parsed.value < 0 ==> v == 0
    ensures parsed.Some? && parsed.value > CellMax ==> v == CellMax
    ensures parsed.Some? && InCellRange(parsed.value) ==> v == parsed.value
  {
    var n := if parsed.Some? && parsed.value != 0 then parsed.value else 0;
    var capped := if n < CellMax then n else CellMax;
    if 0 < capped then capped else 0
  }

  /** Clamping is idempotent: typing back a stored value stores it again,
      and a value is stored unchanged iff it is already in [0, 10]. */
  lemma ClampInputIdempotent(parsed: Option<int>, x: int)
    ensures ClampInput(Some(ClampInput(parsed))) == ClampInput(parsed)
    ensures ClampInput(Some(x)) == x <==> InCellRange(x)
  {
  }
}
