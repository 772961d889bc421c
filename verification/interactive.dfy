/** The "Try It Yourself" slide: an editable WBA matrix of five weights and
    two design rows, with live totals and a trophy for the best row. */
module Interactive {
  import opened Wrappers
  import opened WbaMath

  /** The slide's state: one weight per need and one score row per design. */
  datatype Matrix = Matrix(weights: seq<int>, scores: seq<seq<int>>)

  /** The matrix at mount. */
  const Initial := Matrix([9, 7, 6, 8, 5], [[8, 6, 7, 5, 9], [6, 9, 5, 8, 4]])

  /** Every row scores every need, and every cell is in [0, 10]. */
  predicate WellFormed(m: Matrix)
  {
    && |m.scores| > 0
    && AllInCellRange(m.weights)
    && forall di :: 0 <= di < |m.scores| ==>
         |m.scores[di]| == |m.weights| && AllInCellRange(m.scores[di])
  }

  /** `allWeightsValid`: every weight in [1, 10]. */
  predicate AllWeightsValid(weights: seq<int>)
  {
    forall i :: 0 <= i < |weights| ==> 1 <= weights[i] <= CellMax
  }

  /** Once weights are clamped to [0, 10], the only way to be invalid is a
      weight of 0. */
  lemma WeightsInvalidIffZero(m: Matrix)
    requires WellFormed(m)
    ensures !AllWeightsValid(m.weights) <==> exists i :: 0 <= i < |m.weights| && m.weights[i] == 0
  {
  }

  /** `totals = scores.map(calcTotal)`. */
  function Totals(m: Matrix): (ts: seq<int>)
    requires WellFormed(m)
    ensures |ts| == |m.scores|
  {
    seq(|m.scores|, di requires 0 <= di < |m.scores| => WeightedTotal(m.scores[di], m.weights))
  }

  /** `maxT = Math.max(...totals)`. */
  function MaxTotal(m: Matrix): int
    requires WellFormed(m)
  {
    MaxOf(Totals(m))
  }

  /** A row gets the trophy when the weights are valid and its total is the
      maximum; the bar chart below the table is only shown when the weights
      are valid and uses the same comparison. */
  predicate IsWinner(m: Matrix, di: int)
    requires WellFormed(m) && 0 <= di < |m.scores|
  {
    AllWeightsValid(m.weights) && Totals(m)[di] == MaxTotal(m)
  }

  /** The total cell of a row: the number, or "—" (`None`) while some
      weight is invalid. */
  function TotalCell(m: Matrix, di: int): (cell: Option<int>)
    requires WellFormed(m) && 0 <= di < |m.scores|
    ensures cell.Some? <==> AllWeightsValid(m.weights)
    ensures cell.Some? ==> cell.value == Sum(Products(m.scores[di], m.weights))
  {
    WeightedTotalIsSumOfProducts(m.scores[di], m.weights);
    if AllWeightsValid(m.weights) then Some(Totals(m)[di]) else None
  }

  /** A row wins iff the weights are valid and no row has a larger total. */
  lemma WinnerIffBest(m: Matrix, di: int)
    requires WellFormed(m) && 0 <= di < |m.scores|
    ensures IsWinner(m, di) <==>
              AllWeightsValid(m.weights)
              && forall dj :: 0 <= dj < |m.scores| ==> Totals(m)[dj] <= Totals(m)[di]
  {
    MaxOfCharacterised(Totals(m), Totals(m)[di]);
  }

  /** With valid weights some row wins; rows with equal totals win together;
      with an invalid weight no row wins. */
  lemma WinnerExistsAndTiesShare(m: Matrix, a: int, b: int)
    requires WellFormed(m) && 0 <= a < |m.scores| && 0 <= b < |m.scores|
    ensures AllWeightsValid(m.weights) ==> exists di :: 0 <= di < |m.scores| && IsWinner(m, di)
    ensures Totals(m)[a] == Totals(m)[b] ==> (IsWinner(m, a) <==> IsWinner(m, b))
    ensures !AllWeightsValid(m.weights) ==> !IsWinner(m, a)
  {
    var ts := Totals(m);
    var j :| 0 <= j < |ts| && ts[j] == MaxOf(ts);
    assert AllWeightsValid(m.weights) ==> IsWinner(m, j);
  }

  /** Every row total of a well-formed matrix lies in [0, 100·n]. */
  lemma RowTotalBounds(m: Matrix, di: int)
    requires WellFormed(m) && 0 <= di < |m.scores|
    ensures 0 <= Totals(m)[di] <= CellMax * CellMax * |m.weights|
  {
    WeightedTotalBounds(m.scores[di], m.weights);
  }

  /** `updateWeight(i, val)`: store the clamped value in weight i only. */
  function UpdateWeight(m: Matrix, i: int, input: Option<int>): (r: Matrix)
    requires WellFormed(m) && 0 <= i < |m.weights|
    ensures WellFormed(r)
    ensures |r.weights| == |m.weights| && r.weights[i] == ClampInput(input)
    ensures forall j :: 0 <= j < |m.weights| && j != i ==> r.weights[j] == m.weights[j]
    ensures r.scores == m.scores
  {
    m.(weights := m.weights[i := ClampInput(input)])
  }

  /** `updateScore(di, si, val)`: store the clamped value in one cell only. */
  function UpdateScore(m: Matrix, di: int, si: int, input: Option<int>): (r: Matrix)
    requires WellFormed(m) && 0 <= di < |m.scores| && 0 <= si < |m.weights|
    ensures WellFormed(r)
    ensures r.weights == m.weights && |r.scores| == |m.scores|
    ensures r.scores[di][si] == ClampInput(input)
    ensures forall dj, sj :: 0 <= dj < |m.scores| && 0 <= sj < |m.weights| && (dj, sj) != (di, si) ==>
              r.scores[dj][sj] == m.scores[dj][sj]
  {
    m.(scores := m.scores[di := m.scores[di][si := ClampInput(input)]])
  }

  /** Editing weight i moves every row's total by score·(new − old weight). */
  lemma UpdateWeightMovesTotals(m: Matrix, i: int, input: Option<int>, di: int)
    requires WellFormed(m) && 0 <= i < |m.weights| && 0 <= di < |m.scores|
    ensures Totals(UpdateWeight(m, i, input))[di]
         == Totals(m)[di] + m.scores[di][i] * (ClampInput(input) - m.weights[i])
  {
    WeightedTotalWeightUpdate(m.scores[di], m.weights, i, ClampInput(input));
  }

  /** Editing one score moves that row's total by (new − old score)·weight
      and leaves every other row's total alone. */
  lemma UpdateScoreMovesOneTotal(m: Matrix, di: int, si: int, input: Option<int>, dj: int)
    requires WellFormed(m) && 0 <= di < |m.scores| && 0 <= si < |m.weights| && 0 <= dj < |m.scores|
    ensures dj == di ==> Totals(UpdateScore(m, di, si, input))[dj]
                         == Totals(m)[dj] + (ClampInput(input) - m.scores[di][si]) * m.weights[si]
    ensures dj != di ==> Totals(UpdateScore(m, di, si, input))[dj] == Totals(m)[dj]
  {
    WeightedTotalScoreUpdate(m.scores[di], m.weights, si, ClampInput(input));
    assert m.scores[di := m.scores[di][si := ClampInput(input)]][di] == m.scores[di][si := ClampInput(input)];
  }

  /** At mount Design A totals 241 and Design B 231, so A alone wins. */
  lemma InitialMatrix()
    ensures WellFormed(Initial)
    ensures Totals(Initial) == [241, 231]
    ensures forall di :: 0 <= di < 2 ==> (IsWinner(Initial, di) <==> di == 0)
  {
    WeightedTotalOfFive(Initial.scores[0], Initial.weights);
    WeightedTotalOfFive(Initial.scores[1], Initial.weights);
    assert Totals(Initial) == [241, 231];
    assert MaxOf([241, 231]) == 241;
  }
}
