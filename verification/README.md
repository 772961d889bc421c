# WBA slide deck — a Dafny model

This project models the logic inside a classroom slide deck on customer needs and
Weighted Benefit Analysis (WBA). A WBA scores each design against weighted customer
needs. A design's total is Σ score·weight over the needs, and the best total wins.

The model covers five pieces:

- **The practice quiz** (`Practice`, `PracticeScenarios`). A round of four needs is
  generated from supplied random draws. The learner then moves through five phases:
  - intro;
  - four multiple-choice concept questions;
  - one product question per need;
  - one sum question;
  - a summary with a tier and an XP badge.

  Every handler is a pure transition on one `Quiz` record. The model also covers:
  - `Step`, which dispatches each user event only when its control is on screen;
  - the progress bar;
  - the two hints;
  - reset.
- **WBA arithmetic** (`WbaMath`). This holds the weighted total, the maximum of the
  totals, and the clamping of typed cell values to [0, 10].
- **The "Try It Yourself" matrix** (`Interactive`). This covers editable weights and
  scores, the validity gate on weights, live totals and the winner rule.
  `src/App.tsx` carries an identical inline copy of this slide (lines 1393-1426). It
  is modelled once.
- **The fixed "WBA Example" slide** (`Example`). This has three designs, their
  totals, the trophy and the worked calculation. `src/App.tsx` carries an identical
  inline copy of this slide too (lines 1118-1127).
- **The deck shell** (`Navigation`) and **the mascot** (`Mascot`). The shell covers
  the bounds-guarded `goTo`, keyboard stepping, the Previous/Next buttons, the nav
  dots and the "n / 10" counter. The mascot covers the per-slide tip table, the tip
  cycler, dismissal and the reset on a slide change.

Some inputs are modelled abstractly:

- **Text boxes.** Text typed into a box is modelled by what `parseInt` makes of it:
  `Option<int>`, where `None` stands for `NaN`.
- **Randomness.** `Math.floor(Math.random() * (max - min + 1))` is a parameter
  `draw` in [0, max − min].
- **The mascot's 800 ms delay.** The timer is the explicit event `DelayElapsed`.

The mascot is modelled as a stand-alone component. Its props (slide type and slide
index) arrive as events. The slide deck in `src/App.tsx` does not mount it.

Two slide lists exist. The presentation's list in `src/constants/theme.ts` (lines
32-43) has `"wba-practice"`, the practice quiz, as its ninth slide. The deck that
`src/App.tsx` builds for itself (lines 10-21) has `"wba-interactive"` in that place,
so the practice quiz is not shown in that deck. `Navigation` models the `src/App.tsx`
deck.

Some behaviours of the code are easy to misread; the model follows the code:

- **A repeated confirm counts as an error.** After a correct product the answer box
  is cleared. Pressing Enter again submits `NaN` against the next product and counts
  as a wrong answer (`PracticeScenarios.RepeatedConfirmCountsAsWrong`).
- **Tier thresholds.** The summary tier is: 0 errors, top; 1–3 errors, middle; more
  than 3, baseline.
- **The hint.** The hint appears on the second and later consecutive wrong tries.
- **The start button.** It does not itself reset the error counters. They are
  provably 0 whenever the quiz is in intro (`Practice.Inv`).
- **Mascot tip keys.** Every slide type of the presentation's list has its own two
  tips (`Mascot.EveryPresentationSlideHasTwoTips`). The tip table has no entry for
  `"wba-interactive"`. So if the mascot were mounted in the `src/App.tsx` deck, that
  slide alone would show the fallback tip (`Mascot.DeckSlidesTips`).

## Model

| member | source | states |
|---|---|---|
| Practice.Generate | src/components/slides/WBAPracticeSlide.tsx:31-40 | For any draws in range the round has exactly 4 needs, weights in [3, 10], scores in [2, 10], products[i] = weight·score and total = Σ products |
| Practice.Rand | src/components/slides/WBAPracticeSlide.tsx:32-33 | `rand(min, max)` lands in [min, max] for every admissible draw |
| Practice.GenerateCoversEveryRound | src/components/slides/WBAPracticeSlide.tsx:31-40 | Conversely, every round with those bounds is produced by some draws, so the ranges are exact |
| Practice.ConceptQuestionsWellFormed | src/components/slides/WBAPracticeSlide.tsx:51-102 | There are four concept questions, each with four options and a correct index among them |
| Practice.Mount | src/components/slides/WBAPracticeSlide.tsx:119-137 | The mounted quiz is in intro and satisfies the reachable-state invariant (valid round, hint iff two or more attempts, confirmed products a prefix of the products) |
| Practice.Start | src/components/slides/WBAPracticeSlide.tsx:434-440 | Start goes to the first concept question with no option chosen and leaves the counters and the round unchanged |
| Practice.HandleConceptAnswer | src/components/slides/WBAPracticeSlide.tsx:148-161 | Records the choice and whether it matches the correct index; a wrong choice adds exactly one to both the concept and the total error count, a right one adds nothing; phase, question and products are untouched |
| Practice.OptionClick | src/components/slides/WBAPracticeSlide.tsx:548-549 | Once the answer is shown, further option clicks change nothing |
| Practice.HandleConceptContinue | src/components/slides/WBAPracticeSlide.tsx:163-183 | After a wrong answer, the same question with the choice cleared; after a right one, the next question, or after the last one the first product question with no answers, 0 attempts and the hint hidden; errors unchanged |
| Practice.WrongAnswer | src/components/slides/WBAPracticeSlide.tsx:204-209 | A mistake keeps phase, index and confirmed answers, adds exactly one error and one attempt, and shows the hint iff it was shown or there was an earlier attempt |
| Practice.CheckProduct | src/components/slides/WBAPracticeSlide.tsx:187-210 | A right product appends exactly products[i], resets attempts and hint, clears the box and moves to need i+1 or, after the last need, to the sum question; anything else (NaN included) is a mistake |
| Practice.CheckSum | src/components/slides/WBAPracticeSlide.tsx:212-223 | Only the exact total completes the quiz, with every counter unchanged; anything else is a mistake |
| Practice.HandleKeyDown | src/components/slides/WBAPracticeSlide.tsx:242-252 | Enter checks the product only in the product phase and the sum only in the sum phase; otherwise nothing happens |
| Practice.ResetQuizStartsOver | src/components/slides/WBAPracticeSlide.tsx:225-240 | Reset lands in intro with every counter 0, no confirmed products, the hint hidden, the invariant restored and the new round being the generated one |
| Practice.ProgressBounds | src/components/slides/WBAPracticeSlide.tsx:292-300 | There are 9 steps; completed steps stay in [0, 9], are 0 in intro and reach 9 exactly in the summary |
| Practice.TierOf | src/components/slides/WBAPracticeSlide.tsx:1087-1101 | The tier is top iff there are no errors, middle iff 1 to 3, baseline iff more than 3 |
| Practice.Xp | src/components/slides/WBAPracticeSlide.tsx:1150-1154 | The badge is 100 exactly for the top tier, 75 exactly for the middle tier and 50 exactly for the baseline tier |
| Practice.XpMonotone | src/components/slides/WBAPracticeSlide.tsx:1150-1154 | Fewer errors never earn less XP |
| Practice.ProductHint | src/components/slides/WBAPracticeSlide.tsx:925-929 | The hint's partial product w·⌊s/2⌋ is non-negative, strictly below the answer, and w·(s − ⌊s/2⌋) completes it, so the hint never gives the answer away |
| Practice.SumHint | src/components/slides/WBAPracticeSlide.tsx:1045-1050 | The running totals of the sum hint add up: the second is the first plus the third product, and adding the last product gives the round's total |
| Practice.Step | src/components/slides/WBAPracticeSlide.tsx:373-1194 | Every event keeps the concept index inside the question list |
| Practice.StepKeepsInv | src/components/slides/WBAPracticeSlide.tsx:148-252 | Every event preserves the invariant: confirmed products are products[..i] in the product phase and all products afterwards, hint iff two or more attempts, concept errors within total errors |
| Practice.CheckProductKeepsInv | src/components/slides/WBAPracticeSlide.tsx:187-203 | Checking a product keeps the confirmed answers a prefix of the products |
| Practice.RunKeepsInv | src/components/slides/WBAPracticeSlide.tsx:148-252 | Every state reachable by any event sequence satisfies the invariant |
| Practice.StepMonotone | src/components/slides/WBAPracticeSlide.tsx:292-300 | No event except reset lowers the progress or the error count |
| Practice.RunMonotone | src/components/slides/WBAPracticeSlide.tsx:292-300 | Along any run without reset, progress and error count never decrease |
| Practice.CompleteOnlyFromCorrectSum | src/components/slides/WBAPracticeSlide.tsx:212-216 | The summary is entered iff the quiz is at the sum question, the box holds the exact total and the user checks it |
| Practice.WrongAnswerNeverAdvances | src/components/slides/WBAPracticeSlide.tsx:204-222 | A wrong product or sum leaves phase, index, confirmed answers and progress unchanged |
| PracticeScenarios.RunAppend | src/components/slides/WBAPracticeSlide.tsx:148-252 | Running two event sequences one after the other is running their concatenation |
| PracticeScenarios.RightConceptAnswer | src/components/slides/WBAPracticeSlide.tsx:148-183 | The right option and continue move to the next question, or from the last to the first product, with no new error |
| PracticeScenarios.RightProductAnswer | src/components/slides/WBAPracticeSlide.tsx:187-203 | Typing and checking the right product moves on with no new error and attempts back at 0 |
| PracticeScenarios.ConceptsAllRight | src/components/slides/WBAPracticeSlide.tsx:163-183 | Answering all remaining concept questions right reaches the first product question with the error count unchanged |
| PracticeScenarios.ProductsAllRight | src/components/slides/WBAPracticeSlide.tsx:187-203 | Answering all remaining products right reaches the sum question with the error count unchanged |
| PracticeScenarios.PerfectRun | src/components/slides/WBAPracticeSlide.tsx:1087-1101 | For every valid round, answering everything right from intro reaches the summary with 0 errors and the top tier |
| PracticeScenarios.WrongThenRightProduct | src/components/slides/WBAPracticeSlide.tsx:187-210 | One wrong product then the right one: exactly one more error, then the next need with attempts 0 and the hint hidden |
| PracticeScenarios.WrongThenRightSum | src/components/slides/WBAPracticeSlide.tsx:212-223 | One wrong total then the right one: the summary on the second check, with exactly one more error |
| PracticeScenarios.RepeatedConfirmCountsAsWrong | src/components/slides/WBAPracticeSlide.tsx:196-198 | After a right product the box is cleared, so Enter again counts as a wrong answer on the next need |
| PracticeScenarios.WorkedRoundDrawn | src/components/slides/WBAPracticeSlide.tsx:31-40 | The round with weights [8, 6, 7, 9] and scores [5, 9, 3, 4] is valid and generated by the draws [5, 3, 4, 6] and [3, 7, 1, 2]; its products are [40, 54, 21, 36], total 151 |
| PracticeScenarios.WorkedRoundPerfect | src/components/slides/WBAPracticeSlide.tsx:148-223 | On that round, the all-right event list is the 19 clicks (options 1, 2, 2, 2; products 40, 54, 21, 36; total 151), and it reaches the summary with no error |
| WbaMath.Products | src/components/slides/WBAPracticeSlide.tsx:37 | One product per need, products[i] = scores[i]·weights[i] |
| WbaMath.WeightedTotalIsSumOfProducts | src/components/slides/WBAInteractiveSlide.tsx:21-22 | The left-to-right accumulation Σ s·weights[i] equals the sum of the per-need products |
| WbaMath.CalcTotal | src/components/slides/WBAInteractiveSlide.tsx:21-22 | The one-pass `calcTotal` loop returns the sum of the per-need products |
| WbaMath.WeightedTotalBounds | src/components/slides/WBAInteractiveSlide.tsx:21-22 | With every weight and score in [0, 10], a row of n needs totals between 0 and 100·n |
| WbaMath.WeightedTotalScoreUpdate | src/components/slides/WBAInteractiveSlide.tsx:34-41 | Changing one score moves the total by exactly (new − old)·weight |
| WbaMath.WeightedTotalWeightUpdate | src/components/slides/WBAInteractiveSlide.tsx:26-33 | Changing one weight moves the total by exactly score·(new − old) |
| WbaMath.WeightedTotalOfFive | src/components/slides/WBAExampleSlide.tsx:22-23 | A five-need total is the five products added term by term |
| WbaMath.MaxOf | src/components/slides/WBAInteractiveSlide.tsx:24 | `Math.max(...totals)` is one of the totals and no total exceeds it |
| WbaMath.MaxOfCharacterised | src/components/slides/WBAInteractiveSlide.tsx:24 | A value is the maximum iff it occurs in the list and bounds every element |
| WbaMath.ClampInput | src/components/slides/WBAInteractiveSlide.tsx:27 | The stored value is in [0, 10]; NaN and negatives store 0, values above 10 store 10, values in range are stored as typed |
| WbaMath.ClampInputIdempotent | src/components/slides/WBAInteractiveSlide.tsx:35 | Clamping a stored value again changes nothing, and a value survives clamping iff it is in [0, 10] |
| Interactive.WeightsInvalidIffZero | src/components/slides/WBAInteractiveSlide.tsx:20 | Once weights are clamped, they are invalid iff some weight is 0 |
| Interactive.TotalCell | src/components/slides/WBAInteractiveSlide.tsx:253 | A row's total cell shows a number iff all weights are in [1, 10] ("—" otherwise), and the number is the sum of the row's products |
| Interactive.WinnerIffBest | src/components/slides/WBAInteractiveSlide.tsx:190 | A row is marked winner iff the weights are valid and no row totals more |
| Interactive.WinnerExistsAndTiesShare | src/components/slides/WBAInteractiveSlide.tsx:276-280 | With valid weights some row wins, rows with equal totals win together, and with an invalid weight no row wins |
| Interactive.RowTotalBounds | src/components/slides/WBAInteractiveSlide.tsx:21-23 | Every row total of the matrix lies in [0, 100·n] |
| Interactive.UpdateWeight | src/components/slides/WBAInteractiveSlide.tsx:26-33 | Only weight i changes, to the clamped value; the matrix stays well formed and the scores are untouched |
| Interactive.UpdateScore | src/components/slides/WBAInteractiveSlide.tsx:34-41 | Only cell (di, si) changes, to the clamped value; every other cell and all weights are untouched |
| Interactive.UpdateWeightMovesTotals | src/components/slides/WBAInteractiveSlide.tsx:26-33 | Editing weight i moves each row's total by its score i times the change of weight |
| Interactive.UpdateScoreMovesOneTotal | src/components/slides/WBAInteractiveSlide.tsx:34-41 | Editing one score moves only that row's total, by the change of score times the weight |
| Interactive.InitialMatrix | src/components/slides/WBAInteractiveSlide.tsx:8-12 | At mount Design A totals 241 and Design B 231, so A alone is the winner |
| Example.WorkedCalculation | src/components/slides/WBAExampleSlide.tsx:282-283 | Design A's total is (9·8)+(7·6)+(6·7)+(8·5)+(5·9) = 72+42+42+40+45 = 241 |
| Example.ExampleTotals | src/components/slides/WBAExampleSlide.tsx:16-24 | The three totals are A = 241, B = 231, C = 240 |
| Example.TrophyIffBest | src/components/slides/WBAExampleSlide.tsx:150 | The maximum is attained by some design, and a design has the trophy iff no design totals more |
| Example.DesignAOnlyWinner | src/components/slides/WBAExampleSlide.tsx:16-25 | With the fixed data Design A alone has the trophy |
| Navigation.GoTo | src/App.tsx:1858-1863 | An index in [0, 10) is accepted, even the current one, and bumps `animKey` by one; any other index changes nothing |
| Navigation.KeyDown | src/App.tsx:1868-1879 | Keys typed into an input and other keys are ignored; ArrowRight/Space step forward and ArrowLeft back, and at the first or last slide the outward step changes nothing |
| Navigation.ButtonsDisabledExactlyAtEdges | src/App.tsx:1985-2011 | Previous is disabled iff its step would be ignored (first slide), Next iff its step would be ignored (last slide) |
| Navigation.StepAcceptedOrIgnored | src/App.tsx:1855-1879 | Every navigation event either leaves the state alone or is an accepted step that bumps `animKey` by one, keeping the slide in range |
| Navigation.RunStaysInRange | src/App.tsx:1855-1863 | After any events the slide stays in [0, 10) and `animKey` grew by at most one per event |
| Navigation.SlideName | src/App.tsx:2007 | The name table has one entry per slide, so the shown name is always one of the names |
| Navigation.DotCounts | src/App.tsx:1919-1933 | There are 10 dots, exactly one current, `currentSlide` visited and the rest upcoming; dot i is current iff i = currentSlide and visited iff i < currentSlide |
| Navigation.DotCountsUpTo | src/App.tsx:1919-1933 | Among the first len dots, one is current when the current slide is among them, min(len, current) are visited and the rest upcoming |
| Navigation.NatToString | src/App.tsx:1942 | The decimal rendering is a non-empty digit string that reads back as the number, with no leading zero |
| Navigation.CounterShowsPosition | src/App.tsx:1941-1943 | The counter reads back as the one-based position followed by " / 10" |
| Navigation.InitialCounter | src/test/App.test.tsx:18 | The deck opens on the title slide, the counter reads "1 / 10" and there are 10 dots |
| Mascot.TipsFor | src/components/Mascot.tsx:61 | The tip list is never empty: a listed slide type gets its own two tips, any other type the single fallback tip |
| Mascot.EveryPresentationSlideHasTwoTips | src/constants/theme.ts:32-43 | Every slide type of the presentation's list is a key of the tip table with exactly two tips, so the fallback is never shown for it |
| Mascot.DeckSlidesTips | src/components/Mascot.tsx:5-46 | Over the `src/App.tsx` deck's slide types, a type has its own tips iff it is not "wba-interactive", which would get the fallback |
| Mascot.Enter | src/components/Mascot.tsx:64-72 | New props reset to hidden, not dismissed, tip 0 and face FACES[slideIndex mod 6] |
| Mascot.PropsChangeResets | src/components/Mascot.tsx:64-72 | From any state, props that differ from the current ones restart the mascot |
| Mascot.CycleTip | src/components/Mascot.tsx:74-81 | A tap advances to the next tip and its face while one is left, and otherwise dismisses; the tip index stays in range and the face stays FACES[(slideIndex + tipIndex) mod 6] |
| Mascot.CurrentTip | src/components/Mascot.tsx:121 | The tip shown is one of the slide's tips |
| Mascot.LabelMatchesTap | src/components/Mascot.tsx:131 | While shown, the label says "tap for more →" iff a tap advances and "tap to dismiss" iff a tap dismisses |
| Mascot.Step | src/components/Mascot.tsx:64-83 | Every event keeps the tip index in range and the face rule |
| Mascot.Run | src/components/Mascot.tsx:64-83 | After any sequence of events, each taken with its effects run, the tip index is in range and the face is FACES[(slideIndex + tipIndex) mod 6] |
| Mascot.FaceTapDismisses | src/components/Mascot.tsx:150 | Tapping the face dismisses the mascot from any tip, and it is no longer drawn |
| Mascot.DismissedUntilSlideChange | src/components/Mascot.tsx:83 | Once dismissed the mascot stays dismissed and hidden through any events until new props arrive |
| Mascot.TwoTapsDismiss | src/components/Mascot.tsx:74-81 | On a listed slide, after the delay the first tap shows the second tip with the next face and the second tap dismisses |

## Left out

- Confetti (`src/components/Confetti.tsx`) and the quiz's `confettiCount` are left out: they are particle physics on floating point and animation frames.
- Timers are left out or turned into events. This covers `FadeIn`, `StaggerList`, the step animations and the quiz's 500 ms "shake". The mascot's 800 ms delay is the event `DelayElapsed`, and a change of props before it fires is a `PropsChanged` event.
- `useIsMobile` is left out: it reads `window.matchMedia` and only changes styling.
- The static content slides are left out: title, customer needs, examples, weighting rule, needs table, what is a WBA, steps and takeaways. They are markup with no logic.
- The percentages `total / maxT * 100` and `w / 10 * 100` are left out: they are floating point and only size bars. The first divides by zero when every total is 0.
- `Practice.Rand`: `Math.random` is not modelled; the integer it yields after flooring is a parameter with its range as precondition.
- `WbaMath.ClampInput`: `parseInt` string semantics are not modelled. The parsed value is an input `Option<int>`, with `None` for `NaN`; for example, "40abc" parses as 40.
- Mascot.Step: the `PropsChanged` event merges two things into one step: the render with the new props and the reset effect that follows it. In the source, that render briefly pairs the new tip list with the old `tipIndex` and face. `Mascot.Run`'s invariant is therefore stated only for the states after the effect has run.
- Practice.Step: its own contract states only that the question index stays in range; what each event does to the quiz is stated by the handlers' contracts and by `Practice.StepKeepsInv`, `Practice.StepMonotone` and `Practice.CompleteOnlyFromCorrectSum`.
- Styles, hover highlighting, DOM events, `preventDefault` and window listeners are left out: they are presentation.
- Swipe navigation is left out: `src/App.tsx` registers no swipe handler.
- The concept questions' explanation texts are left out: they are display-only strings.
- The `slideComponents` map is left out: it only picks which component renders each slide type.
