/** The "WBA Example" slide: a fixed matrix of five weighted needs and
    three designs, with the best total marked by a trophy. */
module Example {
  import opened WbaMath

  datatype Design = Design(name: string, scores: seq<int>)

  const Weights: seq<int> := [9, 7, 6, 8, 5]

  const Designs: seq<Design> := [
    Design("Design A", [8, 6, 7, 5, 9]),
    Design("Design B", [6, 9, 5, 8, 4]),
    Design("Design C", [9, 4, 8, 6, 7])
  ]

  /** `totals = designs.map(d => calcTotal(d.scores))`. */
  function Totals(): (ts: seq<int>)
    ensures |ts| == |Designs|
  {
    seq(|Designs|, di requires 0 <= di < |Designs| => WeightedTotal(Designs[di].scores, Weights))
  }

  /** `maxTotal = Math.max(...totals)`. */
  function MaxTotal(): int
  {
    MaxOf(Totals())
  }

  /** A design gets the trophy when its total equals the maximum. */
  predicate HasTrophy(di: int)
    requires 0 <= di < |Designs|
  {
    Totals()[di] == MaxTotal()
  }

  /** The slide's worked calculation for Design A is its weighted total. */
  lemma WorkedCalculation()
    ensures WeightedTotal(Designs[0].scores, Weights)
         == (9 * 8) + (7 * 6) + (6 * 7) + (8 * 5) + (5 * 9)
         == 72 + 42 + 42 + 40 + 45
         == 241
  {
    WeightedTotalOfFive(Designs[0].scores, Weights);
  }

  /** Design totals: A = 241, B = 231, C = 240. */
  lemma ExampleTotals()
    ensures Totals() == [241, 231, 240]
  {
    WeightedTotalOfFive(Designs[0].scores, Weights);
    assert WeightedTotal(Designs[0].scores, Weights) == 241;
    WeightedTotalOfFive(Designs[1].scores, Weights);
    assert WeightedTotal(Designs[1].scores, Weights) == 231;
    WeightedTotalOfFive(Designs[2].scores, Weights);
    assert WeightedTotal(Designs[2].scores, Weights) == 240;
  }

  /** The maximum is attained, and a design has the trophy iff no design
      totals more. */
  lemma TrophyIffBest(di: int)
    requires 0 <= di < |Designs|
    ensures exists dj :: 0 <= dj < |Designs| && HasTrophy(dj)
    ensures HasTrophy(di) <==> forall dj :: 0 <= dj < |Designs| ==> Totals()[dj] <= Totals()[di]
  {
    var ts := Totals();
    MaxOfCharacterised(ts, ts[di]);
    var j :| 0 <= j < |ts| && ts[j] == MaxOf(ts);
    assert HasTrophy(j);
  }

  /** With the fixed data Design A alone has the trophy. */
  lemma DesignAOnlyWinner(di: int)
    requires 0 <= di < |Designs|
    ensures HasTrophy(di) <==> di == 0
  {
    ExampleTotals();
    assert MaxOf([241, 231, 240]) == 241;
  }
}
