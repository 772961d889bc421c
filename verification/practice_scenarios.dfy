/** Runs of the practice quiz: every answer right, a slip then the right
    answer, and the worked round weights [8, 6, 7, 9], scores [5, 9, 3, 4]
    (products [40, 54, 21, 36], total 151). */
module PracticeScenarios {
  import opened Wrappers
  import opened WbaMath
  import opened Practice

  /** Two events, then the rest of the run. */
  lemma RunTwoThen(q: Quiz, e1: Event, e2: Event, rest: seq<Event>)
    requires q.conceptIdx < |ConceptQuestions| && EventFits(e1) && EventFits(e2) && EventsFit(rest)
    ensures EventsFit([e1, e2] + rest)
    ensures Run(q, [e1, e2] + rest) == Run(Step(Step(q, e1), e2), rest)
  {
    var es := [e1, e2] + rest;
    assert es[0] == e1 && es[1..][0] == e2 && es[1..][1..] == rest;
    assert forall k :: 0 <= k < |es| ==> es[k] == if k == 0 then e1 else if k == 1 then e2 else rest[k - 2];
  }

  /** Running a concatenation is running the parts in turn. */
  lemma {:induction false} RunAppend(q: Quiz, a: seq<Event>, b: seq<Event>)
    requires q.conceptIdx < |ConceptQuestions| && EventsFit(a) && EventsFit(b)
    ensures EventsFit(a + b)
    ensures Run(q, a + b) == Run(Run(q, a), b)
    decreases |a|
  {
    assert forall k :: 0 <= k < |a + b| ==> (a + b)[k] == if k < |a| then a[k] else b[k - |a|];
    if |a| == 0 {
      assert a + b == b;
    } else {
      assert (a + b)[1..] == a[1..] + b;
      RunAppend(Step(q, a[0]), a[1..], b);
    }
  }

  /** The right option and continue, for concept question k onwards. */
  function RightConceptEvents(k: nat): (es: seq<Event>)
    ensures EventsFit(es) && forall j :: 0 <= j < |es| ==> !es[j].ResetClicked?
    decreases |ConceptQuestions| - k
  {
    if k >= |ConceptQuestions| then []
    else [OptionClicked(ConceptQuestions[k].correctIdx), ContinueClicked] + RightConceptEvents(k + 1)
  }

  /** The right product typed and checked, for need i onwards. */
  function RightProductEvents(d: Round, i: nat): (es: seq<Event>)
    ensures EventsFit(es) && forall j :: 0 <= j < |es| ==> !es[j].ResetClicked?
    decreases |d.products| - i
  {
    if i >= |d.products| then []
    else [ProductTyped(Some(d.products[i])), CheckProductClicked] + RightProductEvents(d, i + 1)
  }

  /** Picking the right option and continuing moves to the next concept
      question, or after the last one to the first product question,
      without counting an error. */
  lemma RightConceptAnswer(q: Quiz)
    requires Inv(q) && q.phase == Concept && q.conceptCorrect.None?
    ensures var r := Step(Step(q, OptionClicked(ConceptQuestions[q.conceptIdx].correctIdx)), ContinueClicked);
            && Inv(r) && r.totalErrors == q.totalErrors && r.data == q.data
            && (q.conceptIdx < 3 ==> r.phase == Concept && r.conceptIdx == q.conceptIdx + 1 && r.conceptCorrect.None?)
            && (q.conceptIdx == 3 ==> r.phase == ProductQuiz && r.currentProductIdx == 0)
  {
    var e := OptionClicked(ConceptQuestions[q.conceptIdx].correctIdx);
    StepKeepsInv(q, e);
    StepKeepsInv(Step(q, e), ContinueClicked);
  }

  /** Typing the right product and checking it moves on without an error. */
  lemma RightProductAnswer(q: Quiz)
    requires Inv(q) && q.phase == ProductQuiz
    ensures var r := Step(Step(q, ProductTyped(Some(q.data.products[q.currentProductIdx]))), CheckProductClicked);
            && Inv(r) && r.totalErrors == q.totalErrors && r.data == q.data && r.attempts == 0
            && (q.currentProductIdx < 3 ==> r.phase == ProductQuiz && r.currentProductIdx == q.currentProductIdx + 1)
            && (q.currentProductIdx == 3 ==> r.phase == SumQuiz)
  {
    var e := ProductTyped(Some(q.data.products[q.currentProductIdx]));
    StepKeepsInv(q, e);
    StepKeepsInv(Step(q, e), CheckProductClicked);
  }

  /** Answering every remaining concept question right reaches the first
      product question with the error count untouched. */
  lemma {:induction false} ConceptsAllRight(q: Quiz)
    requires Inv(q) && q.phase == Concept && q.conceptCorrect.None?
    ensures var r := Run(q, RightConceptEvents(q.conceptIdx));
            && Inv(r) && r.phase == ProductQuiz && r.currentProductIdx == 0
            && r.totalErrors == q.totalErrors && r.data == q.data
    decreases |ConceptQuestions| - q.conceptIdx
  {
    var k := q.conceptIdx;
    var e := OptionClicked(ConceptQuestions[k].correctIdx);
    RightConceptAnswer(q);
    var r := Step(Step(q, e), ContinueClicked);
    RunTwoThen(q, e, ContinueClicked, RightConceptEvents(k + 1));
    if k < |ConceptQuestions| - 1 {
      ConceptsAllRight(r);
    } else {
      assert RightConceptEvents(k + 1) == [];
    }
  }

  /** Answering every remaining product right reaches the sum question
      with the error count untouched. */
  lemma {:induction false} ProductsAllRight(q: Quiz)
    requires Inv(q) && q.phase == ProductQuiz
    ensures var r := Run(q, RightProductEvents(q.data, q.currentProductIdx));
            Inv(r) && r.phase == SumQuiz && r.totalErrors == q.totalErrors && r.data == q.data
    decreases NumNeeds - q.currentProductIdx
  {
    var i := q.currentProductIdx;
    var e := ProductTyped(Some(q.data.products[i]));
    RightProductAnswer(q);
    var r := Step(Step(q, e), CheckProductClicked);
    RunTwoThen(q, e, CheckProductClicked, RightProductEvents(q.data, i + 1));
    if i < NumNeeds - 1 {
      ProductsAllRight(r);
    } else {
      assert RightProductEvents(q.data, i + 1) == [];
    }
  }

  /** Every answer right, from the start button to the total. */
  function PerfectEvents(d: Round): (es: seq<Event>)
    ensures EventsFit(es)
  {
    [StartClicked] + RightConceptEvents(0) + RightProductEvents(d, 0)
    + [SumTyped(Some(d.total)), CheckSumClicked]
  }

  /** From a fresh round through the concept questions without a slip. */
  lemma PerfectStart(d: Round)
    requires ValidRound(d)
    ensures var r := Run(Fresh(d), [StartClicked] + RightConceptEvents(0));
            && Inv(r) && r.phase == ProductQuiz && r.currentProductIdx == 0
            && r.totalErrors == 0 && r.data == d
  {
    var q0 := Fresh(d);
    var q1 := Step(q0, StartClicked);
    StepKeepsInv(q0, StartClicked);
    ConceptsAllRight(q1);
    assert ([StartClicked] + RightConceptEvents(0))[1..] == RightConceptEvents(0);
  }

  /** From the sum question, the right total completes the quiz. */
  lemma RightSum(q: Quiz)
    requires Inv(q) && q.phase == SumQuiz
    ensures var r := Run(q, [SumTyped(Some(q.data.total)), CheckSumClicked]);
            r.phase == Complete && r.totalErrors == q.totalErrors
  {
    RunTwoThen(q, SumTyped(Some(q.data.total)), CheckSumClicked, []);
    assert [SumTyped(Some(q.data.total)), CheckSumClicked] + [] == [SumTyped(Some(q.data.total)), CheckSumClicked];
  }

  /** For every round, a learner who answers everything right reaches the
      summary with no error and the top tier. */
  lemma PerfectRun(d: Round)
    requires ValidRound(d)
    ensures var q := Run(Fresh(d), PerfectEvents(d));
            q.phase == Complete && q.totalErrors == 0 && TierOf(q.totalErrors) == Perfect
  {
    var q0 := Fresh(d);
    var a := [StartClicked] + RightConceptEvents(0);
    var c := RightProductEvents(d, 0);
    var e := [SumTyped(Some(d.total)), CheckSumClicked];
    PerfectStart(d);
    var q2 := Run(q0, a);
    ProductsAllRight(q2);
    var q3 := Run(q2, c);
    RightSum(q3);
    RunAppend(q0, a, c);
    RunAppend(q0, a + c, e);
    assert PerfectEvents(d) == a + c + e;
  }

  /** A wrong product followed by the right one: one error, then the next
      question with the attempt counter back at 0 and the hint hidden. */
  lemma WrongThenRightProduct(q: Quiz, wrong: Option<int>)
    requires Inv(q) && q.phase == ProductQuiz && q.currentProductIdx < NumNeeds - 1
    requires wrong != Some(q.data.products[q.currentProductIdx])
    ensures var r1 := Step(Step(q, ProductTyped(wrong)), CheckProductClicked);
            var r2 := Step(Step(r1, ProductTyped(Some(q.data.products[q.currentProductIdx]))), CheckProductClicked);
            && r1.phase == ProductQuiz && r1.currentProductIdx == q.currentProductIdx
            && r2.phase == ProductQuiz && r2.currentProductIdx == q.currentProductIdx + 1
            && r2.totalErrors == q.totalErrors + 1 && r2.attempts == 0 && !r2.showHint
  {
  }

  /** A wrong total followed by the right one: the summary is reached only
      on the second check, with one more error. */
  lemma WrongThenRightSum(q: Quiz, wrong: Option<int>)
    requires Inv(q) && q.phase == SumQuiz
    requires wrong != Some(q.data.total)
    ensures var r1 := Step(Step(q, SumTyped(wrong)), CheckSumClicked);
            var r2 := Step(Step(r1, SumTyped(Some(q.data.total))), CheckSumClicked);
            && r1.phase == SumQuiz && r2.phase == Complete
            && r2.totalErrors == q.totalErrors + 1
  {
  }

  /** After a right product the box is empty, so pressing Enter again
      submits nothing parseable and counts as a wrong answer on the next
      question. */
  lemma RepeatedConfirmCountsAsWrong(q: Quiz)
    requires Inv(q) && q.phase == ProductQuiz && q.currentProductIdx < NumNeeds - 1
    ensures var r1 := Step(Step(q, ProductTyped(Some(q.data.products[q.currentProductIdx]))), CheckProductClicked);
            var r2 := Step(r1, KeyPressed(Enter));
            && r2.phase == ProductQuiz && r2.currentProductIdx == q.currentProductIdx + 1
            && r2.totalErrors == q.totalErrors + 1 && r2.attempts == 1
  {
  }

  /* ── the worked round ───────────────────────────────── */

  const WorkedRound := Round([8, 6, 7, 9], [5, 9, 3, 4], [40, 54, 21, 36], 151)

  /** The worked round is a valid round, drawn by these draws. */
  lemma WorkedRoundDrawn()
    ensures ValidRound(WorkedRound)
    ensures Generate([5, 3, 4, 6], [3, 7, 1, 2]) == WorkedRound
  {
    SumOfFour(WorkedRound.products);
    var d := Generate([5, 3, 4, 6], [3, 7, 1, 2]);
    assert d.weights == [8, 6, 7, 9];
    assert d.scores == [5, 9, 3, 4];
    assert d.products == [40, 54, 21, 36];
  }

  /** The worked round answered perfectly: the right options 1, 2, 2, 2,
      the products 40, 54, 21, 36, then the total 151, with no error. */
  lemma WorkedRoundPerfect()
    ensures PerfectEvents(WorkedRound)
         == [StartClicked,
             OptionClicked(1), ContinueClicked, OptionClicked(2), ContinueClicked,
             OptionClicked(2), ContinueClicked, OptionClicked(2), ContinueClicked,
             ProductTyped(Some(40)), CheckProductClicked, ProductTyped(Some(54)), CheckProductClicked,
             ProductTyped(Some(21)), CheckProductClicked, ProductTyped(Some(36)), CheckProductClicked,
             SumTyped(Some(151)), CheckSumClicked]
    ensures Run(Fresh(WorkedRound), PerfectEvents(WorkedRound)).phase == Complete
    ensures Run(Fresh(WorkedRound), PerfectEvents(WorkedRound)).totalErrors == 0
  {
    WorkedRoundDrawn();
    WorkedRoundEvents();
    PerfectRun(WorkedRound);
  }

  lemma WorkedRoundEvents()
    ensures PerfectEvents(WorkedRound)
         == [StartClicked,
             OptionClicked(1), ContinueClicked, OptionClicked(2), ContinueClicked,
             OptionClicked(2), ContinueClicked, OptionClicked(2), ContinueClicked,
             ProductTyped(Some(40)), CheckProductClicked, ProductTyped(Some(54)), CheckProductClicked,
             ProductTyped(Some(21)), CheckProductClicked, ProductTyped(Some(36)), CheckProductClicked,
             SumTyped(Some(151)), CheckSumClicked]
  {
    RightConceptEventsValue();
    assert RightProductEvents(WorkedRound, 0)
        == [ProductTyped(Some(40)), CheckProductClicked, ProductTyped(Some(54)), CheckProductClicked,
            ProductTyped(Some(21)), CheckProductClicked, ProductTyped(Some(36)), CheckProductClicked];
  }

  lemma RightConceptEventsValue()
    ensures RightConceptEvents(0)
         == [OptionClicked(1), ContinueClicked, OptionClicked(2), ContinueClicked,
             OptionClicked(2), ContinueClicked, OptionClicked(2), ContinueClicked]
  {
    assert ConceptQuestions[0].correctIdx == 1;
    assert ConceptQuestions[1].correctIdx == 2;
    assert ConceptQuestions[2].correctIdx == 2;
    assert ConceptQuestions[3].correctIdx == 2;
  }
}
