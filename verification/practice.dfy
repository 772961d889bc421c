/** The practice quiz of the WBA slide deck: a randomly generated round of
    four customer needs, four multiple-choice concept questions, one
    product question per need, one sum question, and a summary. Every
    handler of the quiz is a pure transition on the `Quiz` record. */
module Practice {
  import opened Wrappers
  import opened WbaMath

  /* ── the practice round ─────────────────────────────── */

  const NumNeeds := 4
  const MinWeight := 3
  const MaxWeight := 10
  const MinScore := 2
  const MaxScore := 10

  /** One exercise: weights, scores, their products and the total. */
  datatype Round = Round(weights: seq<int>, scores: seq<int>, products: seq<int>, total: int)

  /** What every generated round satisfies: four needs, weights in
      [3, 10], scores in [2, 10], products = weight·score, total = Σ products. */
  predicate ValidRound(d: Round)
  {
    && |d.weights| == NumNeeds
    && |d.scores| == NumNeeds
    && |d.products| == NumNeeds
    && (forall i :: 0 <= i < NumNeeds ==> MinWeight <= d.weights[i] <= MaxWeight)
    && (forall i :: 0 <= i < NumNeeds ==> MinScore <= d.scores[i] <= MaxScore)
    && (forall i :: 0 <= i < NumNeeds ==> d.products[i] == d.weights[i] * d.scores[i])
    && d.total == Sum(d.products)
  }

  /** `rand(min, max)` is `Math.floor(Math.random() * (max - min + 1)) + min`;
      `draw` is the floored part, an integer in [0, max − min]. */
  function Rand(lo: int, hi: int, draw: int): (r: int)
    requires 0 <= draw <= hi - lo
    ensures lo <= r <= hi
  {
    draw + lo
  }

  /** One draw per need, each fitting `rand(lo, hi)`. */
  predicate DrawsFit(draws: seq<int>, lo: int, hi: int)
  {
    |draws| == NumNeeds && forall i :: 0 <= i < |draws| ==> 0 <= draws[i] <= hi - lo
  }

  /** `generatePracticeData`, with the random draws supplied. */
  function Generate(weightDraws: seq<int>, scoreDraws: seq<int>): (d: Round)
    requires DrawsFit(weightDraws, MinWeight, MaxWeight)
    requires DrawsFit(scoreDraws, MinScore, MaxScore)
    ensures ValidRound(d)
  {
    var weights := seq(NumNeeds, i requires 0 <= i < NumNeeds => Rand(MinWeight, MaxWeight, weightDraws[i]));
    var scores := seq(NumNeeds, i requires 0 <= i < NumNeeds => Rand(MinScore, MaxScore, scoreDraws[i]));
    var products := Products(scores, weights);
    Round(weights, scores, products, Sum(products))
  }

  /** The converse of the generator's bounds: every valid round is
      produced by some choice of draws, so the ranges are exactly [3, 10]
      and [2, 10]. */
  lemma GenerateCoversEveryRound(d: Round)
    requires ValidRound(d)
    ensures exists wd, sd :: DrawsFit(wd, MinWeight, MaxWeight) && DrawsFit(sd, MinScore, MaxScore)
                             && Generate(wd, sd) == d
  {
    var wd := seq(NumNeeds, i requires 0 <= i < NumNeeds => d.weights[i] - MinWeight);
    var sd := seq(NumNeeds, i requires 0 <= i < NumNeeds => d.scores[i] - MinScore);
    var g := Generate(wd, sd);
    assert g.weights == d.weights;
    assert g.scores == d.scores;
    assert g.products == d.products;
  }

  /* ── concept questions ──────────────────────────────── */

  datatype ConceptQuestion = ConceptQuestion(question: string, options: seq<string>, correctIdx: nat)

  const ConceptQuestions: seq<ConceptQuestion> := [
    ConceptQuestion(
      "What does the weight (W) represent in a WBA?",
      ["How much the design costs",
       "How important a customer need is to your team",
       "The number of customer needs",
       "The final score of a design"],
      1),
    ConceptQuestion(
      "If CN₁ has weight 8 and Design A scores 6 on CN₁, what operation do you perform?",
      ["8 + 6 = 14", "8 − 6 = 2", "8 × 6 = 48", "8 ÷ 6 ≈ 1.3"],
      2),
    ConceptQuestion(
      "After calculating W × S for every customer need, what do you do next?",
      ["Pick the largest W × S value",
       "Average all the W × S values",
       "Add (sum) all the W × S values",
       "Subtract the smallest from the largest"],
      2),
    ConceptQuestion(
      "Which design does the WBA say you should typically choose?",
      ["The one your team likes most",
       "The one with the lowest total",
       "The one with the highest total",
       "The one with the most 10-scores"],
      2)
  ]

  /** Every concept question offers four options, one of them correct. */
  lemma ConceptQuestionsWellFormed()
    ensures |ConceptQuestions| == 4
    ensures forall k :: 0 <= k < |ConceptQuestions| ==>
              |ConceptQuestions[k].options| == 4 && ConceptQuestions[k].correctIdx < 4
  {
  }

  /* ── quiz state ─────────────────────────────────────── */

  datatype Phase = Intro | Concept | ProductQuiz | SumQuiz | Complete

  /** The slide's state variables. `userAnswer` and `sumAnswer` hold the
      parsed value of the two text boxes (`None` for empty or non-numeric text). */
  datatype Quiz = Quiz(
    data: Round,
    phase: Phase,
    conceptIdx: nat,
    selectedOption: Option<int>,
    conceptCorrect: Option<bool>,
    conceptErrors: nat,
    currentProductIdx: nat,
    userAnswer: Option<int>,
    sumAnswer: Option<int>,
    productAnswers: seq<int>,
    showHint: bool,
    attempts: nat,
    totalErrors: nat)

  /** The state at mount and after `resetQuiz`: intro, every counter 0. */
  function Fresh(d: Round): Quiz
  {
    Quiz(d, Intro, 0, None, None, 0, 0, None, None, [], false, 0, 0)
  }

  /** What holds of every state the quiz can reach. */
  predicate Inv(q: Quiz)
  {
    && ValidRound(q.data)
    && q.conceptIdx < |ConceptQuestions|
    && q.conceptErrors <= q.totalErrors
    && (q.showHint <==> q.attempts >= 2)
    && match q.phase
       case Intro =>
         q.conceptIdx == 0 && q.conceptErrors == 0 && q.totalErrors == 0
         && q.productAnswers == [] && q.attempts == 0
       case Concept =>
         q.productAnswers == [] && q.attempts == 0
       case ProductQuiz =>
         q.currentProductIdx < NumNeeds && q.productAnswers == q.data.products[..q.currentProductIdx]
       case SumQuiz =>
         q.productAnswers == q.data.products
       case Complete =>
         q.productAnswers == q.data.products
  }

  /** The quiz as mounted: a freshly generated round, in intro. */
  function Mount(weightDraws: seq<int>, scoreDraws: seq<int>): (q: Quiz)
    requires DrawsFit(weightDraws, MinWeight, MaxWeight)
    requires DrawsFit(scoreDraws, MinScore, MaxScore)
    ensures Inv(q) && q.phase == Intro
  {
    Fresh(Generate(weightDraws, scoreDraws))
  }

  /* ── handlers ───────────────────────────────────────── */

  /** The intro's start button: on to the first concept question, with no
      option chosen. The counters are left as they are. */
  function Start(q: Quiz): (r: Quiz)
    ensures r.phase == Concept && r.conceptIdx == 0
    ensures r.selectedOption.None? && r.conceptCorrect.None?
    ensures r.totalErrors == q.totalErrors && r.conceptErrors == q.conceptErrors
    ensures r.productAnswers == q.productAnswers && r.attempts == q.attempts && r.data == q.data
  {
    q.(phase := Concept, conceptIdx := 0, selectedOption := None, conceptCorrect := None)
  }

  /** `handleConceptAnswer`: record the choice and whether it was right;
      a wrong choice counts against both error counters. */
  function HandleConceptAnswer(q: Quiz, optionIdx: int): (r: Quiz)
    requires q.conceptIdx < |ConceptQuestions|
    ensures r.selectedOption == Some(optionIdx)
    ensures r.conceptCorrect == Some(optionIdx == ConceptQuestions[q.conceptIdx].correctIdx)
    ensures r.conceptCorrect == Some(true) ==>
              r.conceptErrors == q.conceptErrors && r.totalErrors == q.totalErrors
    ensures r.conceptCorrect == Some(false) ==>
              r.conceptErrors == q.conceptErrors + 1 && r.totalErrors == q.totalErrors + 1
    ensures r.phase == q.phase && r.conceptIdx == q.conceptIdx && r.data == q.data
    ensures r.productAnswers == q.productAnswers && r.attempts == q.attempts && r.showHint == q.showHint
  {
    var correct := optionIdx == ConceptQuestions[q.conceptIdx].correctIdx;
    if correct then
      q.(selectedOption := Some(optionIdx), conceptCorrect := Some(true))
    else
      q.(selectedOption := Some(optionIdx), conceptCorrect := Some(false),
         conceptErrors := q.conceptErrors + 1, totalErrors := q.totalErrors + 1)
  }

  /** An option button's click: disabled once the answer is shown. */
  function OptionClick(q: Quiz, optionIdx: int): (r: Quiz)
    requires q.conceptIdx < |ConceptQuestions|
    ensures q.conceptCorrect.Some? ==> r == q
    ensures q.conceptCorrect.None? ==> r == HandleConceptAnswer(q, optionIdx)
  {
    if q.conceptCorrect.Some? then q else HandleConceptAnswer(q, optionIdx)
  }

  /** `handleConceptContinue`: after a right answer go to the next
      question, or after the last one to the first product question;
      after a wrong answer clear the choice and ask the same question again. */
  function HandleConceptContinue(q: Quiz): (r: Quiz)
    ensures r.totalErrors == q.totalErrors && r.conceptErrors == q.conceptErrors && r.data == q.data
    ensures q.conceptCorrect != Some(true) ==>
              r.phase == q.phase && r.conceptIdx == q.conceptIdx
              && r.selectedOption.None? && r.conceptCorrect.None?
              && r.productAnswers == q.productAnswers && r.attempts == q.attempts
    ensures q.conceptCorrect == Some(true) && q.conceptIdx < |ConceptQuestions| - 1 ==>
              r.phase == q.phase && r.conceptIdx == q.conceptIdx + 1
              && r.selectedOption.None? && r.conceptCorrect.None?
              && r.productAnswers == q.productAnswers && r.attempts == q.attempts
    ensures q.conceptCorrect == Some(true) && q.conceptIdx >= |ConceptQuestions| - 1 ==>
              r.phase == ProductQuiz && r.currentProductIdx == 0 && r.productAnswers == []
              && r.attempts == 0 && !r.showHint && r.userAnswer.None? && r.conceptIdx == q.conceptIdx
  {
    if q.conceptCorrect == Some(true) then
      if q.conceptIdx < |ConceptQuestions| - 1 then
        q.(conceptIdx := q.conceptIdx + 1, selectedOption := None, conceptCorrect := None)
      else
        q.(phase := ProductQuiz, currentProductIdx := 0, userAnswer := None,
           productAnswers := [], showHint := false, attempts := 0)
    else
      q.(selectedOption := None, conceptCorrect := None)
  }

  /** What a wrong product or sum answer does: stay put, count one more
      error and one more attempt, and show the hint from the second wrong
      try on (when the attempts before this one were at least 1). */
  predicate IsMistake(q: Quiz, r: Quiz)
  {
    && r.phase == q.phase && r.currentProductIdx == q.currentProductIdx
    && r.productAnswers == q.productAnswers && r.data == q.data
    && r.conceptIdx == q.conceptIdx && r.conceptErrors == q.conceptErrors
    && r.totalErrors == q.totalErrors + 1 && r.attempts == q.attempts + 1
    && (r.showHint <==> q.showHint || q.attempts >= 1)
  }

  function WrongAnswer(q: Quiz): (r: Quiz)
    ensures IsMistake(q, r)
  {
    q.(totalErrors := q.totalErrors + 1, attempts := q.attempts + 1,
       showHint := if q.attempts >= 1 then true else q.showHint)
  }

  /** The product box holds `products[i]` for the current question. Past the
      last need `products[i]` is `undefined`, which no parsed number equals. */
  predicate ProductRight(q: Quiz)
  {
    q.currentProductIdx < |q.data.products| && q.userAnswer == Some(q.data.products[q.currentProductIdx])
  }

  /** `checkProduct`: a right product is appended to the confirmed answers
      and the quiz moves to the next need, or to the sum after the last. */
  function CheckProduct(q: Quiz): (r: Quiz)
    ensures ProductRight(q) ==>
              && r.productAnswers == q.productAnswers + [q.data.products[q.currentProductIdx]]
              && r.attempts == 0 && !r.showHint && r.userAnswer.None?
              && r.totalErrors == q.totalErrors && r.conceptErrors == q.conceptErrors
              && r.data == q.data && r.conceptIdx == q.conceptIdx
              && (q.currentProductIdx < |q.data.weights| - 1 ==>
                    r.phase == q.phase && r.currentProductIdx == q.currentProductIdx + 1)
              && (q.currentProductIdx >= |q.data.weights| - 1 ==>
                    r.phase == SumQuiz && r.currentProductIdx == q.currentProductIdx && r.sumAnswer.None?)
    ensures !ProductRight(q) ==> IsMistake(q, r)
  {
    if ProductRight(q) then
      var answered := q.(productAnswers := q.productAnswers + [q.data.products[q.currentProductIdx]],
                         showHint := false, attempts := 0);
      if q.currentProductIdx < |q.data.weights| - 1 then
        answered.(currentProductIdx := q.currentProductIdx + 1, userAnswer := None)
      else
        answered.(phase := SumQuiz, userAnswer := None, sumAnswer := None)
    else
      WrongAnswer(q)
  }

  /** `checkSum`: only the exact total completes the quiz. */
  function CheckSum(q: Quiz): (r: Quiz)
    ensures q.sumAnswer == Some(q.data.total) ==>
              && r.phase == Complete && r.totalErrors == q.totalErrors && r.attempts == q.attempts
              && r.showHint == q.showHint && r.productAnswers == q.productAnswers
              && r.data == q.data && r.conceptIdx == q.conceptIdx && r.conceptErrors == q.conceptErrors
    ensures q.sumAnswer != Some(q.data.total) ==> IsMistake(q, r)
  {
    if q.sumAnswer == Some(q.data.total) then q.(phase := Complete) else WrongAnswer(q)
  }

  datatype QuizKey = Enter | OtherKey

  /** `handleKeyDown` of the two answer boxes: Enter checks the answer of
      the phase on screen; any other key does nothing here. */
  function HandleKeyDown(q: Quiz, key: QuizKey): (r: Quiz)
    ensures key == Enter && q.phase == ProductQuiz ==> r == CheckProduct(q)
    ensures key == Enter && q.phase == SumQuiz ==> r == CheckSum(q)
    ensures key == OtherKey || q.phase !in {ProductQuiz, SumQuiz} ==> r == q
  {
    if key == Enter then
      if q.phase == ProductQuiz then CheckProduct(q)
      else if q.phase == SumQuiz then CheckSum(q)
      else q
    else q
  }

  /** `resetQuiz`: a new round and every counter back to 0, in intro. */
  function ResetQuiz(q: Quiz, weightDraws: seq<int>, scoreDraws: seq<int>): Quiz
    requires DrawsFit(weightDraws, MinWeight, MaxWeight)
    requires DrawsFit(scoreDraws, MinScore, MaxScore)
  {
    Fresh(Generate(weightDraws, scoreDraws))
  }

  /** From any state, a reset lands in intro with every counter 0, no
      confirmed product, the hint hidden and a valid new round. */
  lemma ResetQuizStartsOver(q: Quiz, weightDraws: seq<int>, scoreDraws: seq<int>)
    requires DrawsFit(weightDraws, MinWeight, MaxWeight)
    requires DrawsFit(scoreDraws, MinScore, MaxScore)
    ensures var r := ResetQuiz(q, weightDraws, scoreDraws);
            && Inv(r) && r.phase == Intro
            && r.conceptIdx == 0 && r.conceptErrors == 0 && r.currentProductIdx == 0
            && r.attempts == 0 && r.totalErrors == 0 && r.productAnswers == [] && !r.showHint
            && r.data == Generate(weightDraws, scoreDraws)
  {
  }

  /* ── derived values shown on screen ─────────────────── */

  /** `totalSteps`: four concept questions, one product per need, one sum. */
  function TotalSteps(q: Quiz): nat
  {
    |ConceptQuestions| + |q.data.weights| + 1
  }

  /** `completedSteps`, the numerator of the progress bar. */
  function CompletedSteps(q: Quiz): nat
  {
    match q.phase
    case Intro => 0
    case Concept => q.conceptIdx
    case ProductQuiz => |ConceptQuestions| + |q.productAnswers|
    case SumQuiz => |ConceptQuestions| + |q.data.weights|
    case Complete => TotalSteps(q)
  }

  /** The progress bar: nine steps, empty at intro, full exactly when complete. */
  lemma ProgressBounds(q: Quiz)
    requires Inv(q)
    ensures TotalSteps(q) == 9
    ensures 0 <= CompletedSteps(q) <= TotalSteps(q)
    ensures q.phase == Intro ==> CompletedSteps(q) == 0
    ensures CompletedSteps(q) == TotalSteps(q) <==> q.phase == Complete
  {
  }

  datatype Tier = Perfect | Great | GotIt

  /** The summary's verdict from `totalErrors` (concept errors included). */
  function TierOf(totalErrors: nat): (t: Tier)
    ensures t == Perfect <==> totalErrors == 0
    ensures t == Great <==> 1 <= totalErrors <= 3
    ensures t == GotIt <==> totalErrors > 3
  {
    if totalErrors == 0 then Perfect else if totalErrors <= 3 then Great else GotIt
  }

  /** The XP badge of each tier. */
  function Xp(t: Tier): (xp: int)
    ensures xp in {100, 75, 50}
    ensures t == Perfect <==> xp == 100
    ensures t == Great <==> xp == 75
    ensures t == GotIt <==> xp == 50
  {
    match t
    case Perfect => 100
    case Great => 75
    case GotIt => 50
  }

  /** Fewer errors never earn less XP. */
  lemma XpMonotone(e1: nat, e2: nat)
    requires e1 <= e2
    ensures Xp(TierOf(e2)) <= Xp(TierOf(e1))
  {
  }

  /** The product hint `w × floor(s / 2)`: a partial product strictly below
      the answer, which the rest `w × (s − floor(s / 2))` completes. */
  function ProductHint(q: Quiz): (partial: int)
    requires Inv(q) && q.phase == ProductQuiz
    ensures 0 <= partial < q.data.products[q.currentProductIdx]
    ensures partial + q.data.weights[q.currentProductIdx]
                      * (q.data.scores[q.currentProductIdx] - q.data.scores[q.currentProductIdx] / 2)
            == q.data.products[q.currentProductIdx]
  {
    var w := q.data.weights[q.currentProductIdx];
    var s := q.data.scores[q.currentProductIdx];
    HalfProductBelow(w, s);
    w * (s / 2)
  }

  lemma HalfProductBelow(w: int, s: int)
    requires w >= 1 && s >= 1
    ensures 0 <= w * (s / 2) < w * s
    ensures w * (s / 2) + w * (s - s / 2) == w * s
  {
    var h := s / 2;
    assert 0 <= h < s;
    MulSplit(w, s, h);
    MulAtLeast(w, s - h);
    MulAtLeast(w, h + 1);
  }

  lemma MulSplit(w: int, a: int, b: int)
    ensures w * b + w * (a - b) == w * a
  {
  }

  lemma MulAtLeast(w: int, k: int)
    requires w >= 1 && k >= 1
    ensures w * k >= w
  {
  }

  /** The sum hint's running totals p0 + p1 and p0 + p1 + p2; adding the
      last product to the second gives the answer. */
  function SumHint(q: Quiz): (partials: (int, int))
    requires Inv(q) && q.phase == SumQuiz
    ensures partials.1 + q.productAnswers[3] == q.data.total
    ensures partials.1 == partials.0 + q.productAnswers[2]
  {
    var pa := q.productAnswers;
    SumOfFour(pa);
    (pa[0] + pa[1], pa[0] + pa[1] + pa[2])
  }

  lemma SumOfFour(xs: seq<int>)
    requires |xs| == 4
    ensures Sum(xs) == xs[0] + xs[1] + xs[2] + xs[3]
  {
    assert xs[..3][..2] == xs[..2] && xs[..2][..1] == xs[..1] && xs[..1][..0] == [];
    assert Sum(xs[..1]) == xs[0];
    assert Sum(xs[..2]) == xs[0] + xs[1];
    assert Sum(xs[..3]) == xs[0] + xs[1] + xs[2];
  }

  /* ── the slide as a whole ───────────────────────────── */

  /** A user action on the slide. */
  datatype Event =
    | StartClicked
    | OptionClicked(option: int)
    | ContinueClicked
    | ProductTyped(value: Option<int>)
    | SumTyped(value: Option<int>)
    | CheckProductClicked
    | CheckSumClicked
    | KeyPressed(key: QuizKey)
    | ResetClicked(weightDraws: seq<int>, scoreDraws: seq<int>)

  /** A reset comes with draws that fit `rand`. */
  predicate EventFits(e: Event)
  {
    e.ResetClicked? ==>
      DrawsFit(e.weightDraws, MinWeight, MaxWeight) && DrawsFit(e.scoreDraws, MinScore, MaxScore)
  }

  predicate EventsFit(es: seq<Event>)
  {
    forall k :: 0 <= k < |es| ==> EventFits(es[k])
  }

  /** One event, acting only when its control is on screen in the current
      phase: start in intro; options and continue in the concept phase
      (continue once an answer is shown); the product box and its button in
      the product phase; the sum box and its button in the sum phase; the
      reset button on the summary. */
  function Step(q: Quiz, e: Event): (r: Quiz)
    requires q.conceptIdx < |ConceptQuestions| && EventFits(e)
    ensures r.conceptIdx < |ConceptQuestions|
  {
    match e
    case StartClicked =>
      if q.phase == Intro then Start(q) else q
    case OptionClicked(o) =>
      if q.phase == Concept then OptionClick(q, o) else q
    case ContinueClicked =>
      if q.phase == Concept && q.conceptCorrect.Some? then HandleConceptContinue(q) else q
    case ProductTyped(v) =>
      if q.phase == ProductQuiz then q.(userAnswer := v) else q
    case SumTyped(v) =>
      if q.phase == SumQuiz then q.(sumAnswer := v) else q
    case CheckProductClicked =>
      if q.phase == ProductQuiz then CheckProduct(q) else q
    case CheckSumClicked =>
      if q.phase == SumQuiz then CheckSum(q) else q
    case KeyPressed(k) =>
      HandleKeyDown(q, k)
    case ResetClicked(wd, sd) =>
      if q.phase == Complete then ResetQuiz(q, wd, sd) else q
  }

  /** Every event keeps the invariant. */
  lemma StepKeepsInv(q: Quiz, e: Event)
    requires Inv(q) && EventFits(e)
    ensures Inv(Step(q, e))
  {
    match e
    case ResetClicked(wd, sd) =>
      if q.phase == Complete {
        ResetQuizStartsOver(q, wd, sd);
      }
    case CheckProductClicked =>
      CheckProductKeepsInv(q);
    case KeyPressed(k) =>
      CheckProductKeepsInv(q);
    case _ =>
  }

  lemma CheckProductKeepsInv(q: Quiz)
    requires Inv(q)
    ensures q.phase == ProductQuiz ==> Inv(CheckProduct(q))
  {
    var i := q.currentProductIdx;
    if q.phase == ProductQuiz && ProductRight(q) {
      assert q.data.products[..i + 1] == q.data.products[..i] + [q.data.products[i]];
      assert q.data.products[..NumNeeds] == q.data.products;
    }
  }

  /** A sequence of events applied in order. */
  function Run(q: Quiz, es: seq<Event>): (r: Quiz)
    requires q.conceptIdx < |ConceptQuestions| && EventsFit(es)
    ensures r.conceptIdx < |ConceptQuestions|
    decreases |es|
  {
    if |es| == 0 then q else Run(Step(q, es[0]), es[1..])
  }

  /** Every state reached from a state satisfying the invariant, the
      mounted quiz among them, satisfies it. */
  lemma {:induction false} RunKeepsInv(q: Quiz, es: seq<Event>)
    requires Inv(q) && EventsFit(es)
    ensures Inv(Run(q, es))
    decreases |es|
  {
    if |es| > 0 {
      StepKeepsInv(q, es[0]);
      RunKeepsInv(Step(q, es[0]), es[1..]);
    }
  }

  /** Along any event other than a reset, progress and the error count never
      go down. */
  lemma StepMonotone(q: Quiz, e: Event)
    requires Inv(q) && EventFits(e) && !e.ResetClicked?
    ensures CompletedSteps(Step(q, e)) >= CompletedSteps(q)
    ensures Step(q, e).totalErrors >= q.totalErrors
  {
  }

  /** The same along any run without resets. */
  lemma {:induction false} RunMonotone(q: Quiz, es: seq<Event>)
    requires Inv(q) && EventsFit(es) && forall k :: 0 <= k < |es| ==> !es[k].ResetClicked?
    ensures CompletedSteps(Run(q, es)) >= CompletedSteps(q)
    ensures Run(q, es).totalErrors >= q.totalErrors
    decreases |es|
  {
    if |es| > 0 {
      StepMonotone(q, es[0]);
      StepKeepsInv(q, es[0]);
      RunMonotone(Step(q, es[0]), es[1..]);
    }
  }

  /** The summary is entered only from the sum question with the exact total. */
  lemma CompleteOnlyFromCorrectSum(q: Quiz, e: Event)
    requires Inv(q) && EventFits(e) && q.phase != Complete
    ensures Step(q, e).phase == Complete <==>
              q.phase == SumQuiz && q.sumAnswer == Some(q.data.total)
              && (e == CheckSumClicked || e == KeyPressed(Enter))
  {
  }

  /** A wrong answer, product or sum, never advances the quiz. */
  lemma WrongAnswerNeverAdvances(q: Quiz, e: Event)
    requires Inv(q) && EventFits(e)
    requires e == CheckProductClicked || e == CheckSumClicked || e == KeyPressed(Enter)
    requires q.phase == ProductQuiz ==> !ProductRight(q)
    requires q.phase == SumQuiz ==> q.sumAnswer != Some(q.data.total)
    ensures Step(q, e).phase == q.phase
    ensures Step(q, e).currentProductIdx == q.currentProductIdx
    ensures Step(q, e).productAnswers == q.productAnswers
    ensures CompletedSteps(Step(q, e)) == CompletedSteps(q)
  {
  }
}
