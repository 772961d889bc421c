/** The mascot: a per-slide speech bubble that cycles through its tips
    and can be dismissed, reset whenever the slide changes. */
module Mascot {
  import Navigation

  const FallbackTip := "Keep going — you're doing great!"

  /** The tips per slide type. */
  const MascotTips: map<string, seq<string>> := map[
    "title" := [
      "Hey there! I'm Benny the Bull 🐂 — I'll help you learn WBA!",
      "Use the arrows or swipe to navigate. Let's go!"],
    "what-are-cn" := [
      "Customer needs = what your client actually wants!",
      "Think: what would make the stakeholder say 'perfect!'?"],
    "cn-examples" := [
      "These are placeholders — YOUR needs will be unique!",
      "Talk to your stakeholders to figure out what matters."],
    "weighting-rule" := [
      "Remember: 10 = super important, 1 = meh.",
      "These weights are just examples! Yours will be different."],
    "cn-table" := [
      "Pro tip: always justify your weights!",
      "If someone asks 'why 8?', you should have a good answer."],
    "what-is-wba" := [
      "WBA = your team's secret weapon for picking designs!",
      "It's math + judgment. Best of both worlds!"],
    "wba-steps" := [
      "Multiply then sum — that's the whole trick!",
      "W × S for each need, then add 'em up! 🧮"],
    "wba-example" := [
      "Hover the columns to see the math in action!",
      "The trophy 🏆 goes to the highest total."],
    "wba-practice" := [
      "You got this! Start with the concepts, then crunch numbers!",
      "No calculators — it's more fun this way! 😄"],
    "key-takeaways" := [
      "You made it! Now go build an awesome WBA! 🎉",
      "Remember: the WBA is a tool, not a dictator."]
  ]

  const Faces: seq<string> := ["🐂", "😄", "🤓", "💪", "🎯", "🧠"]

  /** `MASCOT_TIPS[slideType] || [fallback]`: a listed type gets its own
      tips, any other type the single fallback tip; never empty. */
  function TipsFor(slideType: string): (tips: seq<string>)
    ensures |tips| >= 1
    ensures slideType in MascotTips ==> tips == MascotTips[slideType] && |tips| == 2
    ensures slideType !in MascotTips ==> tips == [FallbackTip]
  {
    if slideType in MascotTips then MascotTips[slideType] else [FallbackTip]
  }

  /** The slide types of the presentation's slide list, in order. */
  const PresentationSlides: seq<string> := [
    "title", "what-are-cn", "cn-examples", "weighting-rule", "cn-table",
    "what-is-wba", "wba-steps", "wba-example", "wba-practice", "key-takeaways"
  ]

  /** Every slide of the presentation's list has its own two tips, so the
      fallback is never shown for it. */
  lemma EveryPresentationSlideHasTwoTips(i: int)
    requires 0 <= i < |PresentationSlides|
    ensures PresentationSlides[i] in MascotTips
    ensures TipsFor(PresentationSlides[i]) == MascotTips[PresentationSlides[i]]
    ensures |TipsFor(PresentationSlides[i])| == 2 && TipsFor(PresentationSlides[i]) != [FallbackTip]
  {
  }

  /** The deck assembled in the app shell lists "wba-interactive" where the
      presentation's list has "wba-practice". The shell does not mount the
      mascot; if it did, that slide alone would get the fallback tip. */
  lemma DeckSlidesTips(i: int)
    requires 0 <= i < |Navigation.Slides|
    ensures Navigation.Slides[i] in MascotTips <==> Navigation.Slides[i] != "wba-interactive"
    ensures Navigation.Slides[i] == "wba-interactive" ==> TipsFor(Navigation.Slides[i]) == [FallbackTip]
  {
  }

  /** The component's props and state. */
  datatype State = State(slideType: string, slideIndex: nat,
                         visible: bool, dismissed: bool, tipIndex: nat, face: string)

  /** The face shown with tip k on slide i. */
  function FaceAt(slideIndex: nat, tipIndex: nat): string
  {
    Faces[(slideIndex + tipIndex) % |Faces|]
  }

  /** The tip index points into the slide's tips, and the face follows the
      slide and tip indices. */
  predicate Inv(s: State)
  {
    s.tipIndex < |TipsFor(s.slideType)| && s.face == FaceAt(s.slideIndex, s.tipIndex)
  }

  /** The reset effect run for new props: hidden, not dismissed, first tip,
      face chosen by the slide index. */
  function Enter(slideType: string, slideIndex: nat): (s: State)
    ensures Inv(s) && !s.visible && !s.dismissed && s.tipIndex == 0
    ensures s.face == Faces[slideIndex % |Faces|]
  {
    State(slideType, slideIndex, false, false, 0, Faces[slideIndex % |Faces|])
  }

  /** Nothing is drawn while dismissed or before the show delay elapses. */
  predicate Rendered(s: State)
  {
    !s.dismissed && s.visible
  }

  /** `cycleTip`: advance to the next tip and face, or dismiss after the
      last tip. */
  function CycleTip(s: State): (r: State)
    requires Inv(s)
    ensures Inv(r)
    ensures s.tipIndex < |TipsFor(s.slideType)| - 1 ==>
              r == s.(tipIndex := s.tipIndex + 1, face := FaceAt(s.slideIndex, s.tipIndex + 1))
    ensures s.tipIndex == |TipsFor(s.slideType)| - 1 ==> r == s.(dismissed := true)
  {
    var tips := TipsFor(s.slideType);
    if s.tipIndex < |tips| - 1 then
      s.(tipIndex := s.tipIndex + 1, face := Faces[(s.slideIndex + s.tipIndex + 1) % |Faces|])
    else
      s.(dismissed := true)
  }

  /** The tip on screen. */
  function CurrentTip(s: State): (tip: string)
    requires Inv(s)
    ensures tip in TipsFor(s.slideType)
  {
    TipsFor(s.slideType)[s.tipIndex]
  }

  /** The hint under the tip. */
  function Label(s: State): string
  {
    if s.tipIndex < |TipsFor(s.slideType)| - 1 then "tap for more →" else "tap to dismiss"
  }

  /** While rendered, the label promises more exactly when a bubble tap
      advances rather than dismisses. */
  lemma LabelMatchesTap(s: State)
    requires Inv(s) && Rendered(s)
    ensures Label(s) == "tap for more →" <==> !Step(s, BubbleTapped).dismissed
    ensures Label(s) == "tap to dismiss" <==> Step(s, BubbleTapped).dismissed
  {
  }

  /** What can happen to the mascot. New props re-run the reset effect only
      when they differ from the current ones; `PropsChanged` is the new
      props together with that effect, so the one render in between, with
      new props and old state, is not a state of the model. The bubble and
      the face can only be tapped while rendered. */
  datatype Event = PropsChanged(slideType: string, slideIndex: nat) | DelayElapsed | BubbleTapped | FaceTapped

  function Step(s: State, e: Event): (r: State)
    requires Inv(s)
    ensures Inv(r)
  {
    match e
    case PropsChanged(t, i) => if t == s.slideType && i == s.slideIndex then s else Enter(t, i)
    case DelayElapsed => s.(visible := true)
    case BubbleTapped => if Rendered(s) then CycleTip(s) else s
    case FaceTapped => if Rendered(s) then s.(dismissed := true) else s
  }

  function Run(s: State, es: seq<Event>): (r: State)
    requires Inv(s)
    ensures Inv(r)
    decreases |es|
  {
    if |es| == 0 then s else Run(Step(s, es[0]), es[1..])
  }

  predicate NoSlideChange(es: seq<Event>)
  {
    forall k :: 0 <= k < |es| ==> !es[k].PropsChanged?
  }

  /** Once dismissed, the mascot stays dismissed until new props arrive. */
  lemma {:induction false} DismissedUntilSlideChange(s: State, es: seq<Event>)
    requires Inv(s) && s.dismissed && NoSlideChange(es)
    ensures Run(s, es).dismissed && !Rendered(Run(s, es))
    decreases |es|
  {
    if |es| > 0 {
      assert NoSlideChange(es[1..]) by {
        forall k | 0 <= k < |es[1..]| ensures !es[1..][k].PropsChanged? {
          assert es[1..][k] == es[k + 1];
        }
      }
      DismissedUntilSlideChange(Step(s, es[0]), es[1..]);
    }
  }

  /** Tapping the face dismisses the mascot whatever tip it shows. */
  lemma FaceTapDismisses(s: State)
    requires Inv(s) && Rendered(s)
    ensures Step(s, FaceTapped).dismissed && !Rendered(Step(s, FaceTapped))
  {
  }

  /** On a listed slide, after the show delay, the first tap shows the
      second tip with the next face and the second tap dismisses. */
  lemma TwoTapsDismiss(t: string, i: nat)
    requires t in MascotTips
    ensures var s1 := Step(Step(Enter(t, i), DelayElapsed), BubbleTapped);
            Rendered(s1) && s1.tipIndex == 1 && s1.face == Faces[(i + 1) % |Faces|]
            && CurrentTip(s1) == MascotTips[t][1]
            && Step(s1, BubbleTapped).dismissed
  {
  }

  /** New props always restart the mascot, from any state. */
  lemma PropsChangeResets(s: State, t: string, i: nat)
    requires Inv(s) && (t != s.slideType || i != s.slideIndex)
    ensures Step(s, PropsChanged(t, i)) == Enter(t, i)
  {
  }
}
