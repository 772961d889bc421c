/** The deck shell: ten slides, a bounds-guarded `goTo`, keyboard
    stepping, the Previous/Next buttons, the nav dots and the counter. */
module Navigation {

  /** The slide types in deck order (each slide's id equals its type). */
  const Slides: seq<string> := [
    "title", "what-are-cn", "cn-examples", "weighting-rule", "cn-table",
    "what-is-wba", "wba-steps", "wba-example", "wba-interactive", "key-takeaways"
  ]

  /** The human-readable name shown under each slide and on each dot. */
  const SlideNames: seq<string> := [
    "Title", "What Are Customer Needs?", "Examples", "Weighting Needs",
    "Customer Needs Table", "What Is a WBA?", "WBA Steps", "WBA Example",
    "Try It Yourself", "Key Takeaways"
  ]

  /** `currentSlide` and the `animKey` that remounts the slide on every
      accepted navigation. */
  datatype Nav = Nav(currentSlide: int, animKey: nat)

  const Init := Nav(0, 0)

  predicate Valid(n: Nav)
  {
    0 <= n.currentSlide < |Slides|
  }

  /** `goTo(idx)`: in-range indices are accepted (even the current one) and
      bump `animKey`; anything else is ignored. */
  function GoTo(n: Nav, idx: int): (r: Nav)
    ensures 0 <= idx < |Slides| ==> r.currentSlide == idx && r.animKey == n.animKey + 1
    ensures !(0 <= idx < |Slides|) ==> r == n
    ensures Valid(n) ==> Valid(r)
  {
    if 0 <= idx < |Slides| then Nav(idx, n.animKey + 1) else n
  }

  datatype Key = ArrowRight | ArrowLeft | Space | OtherKey

  /** The window keydown handler. Keys typed into an input are ignored;
      ArrowRight and Space step forward, ArrowLeft steps back. */
  function KeyDown(n: Nav, key: Key, targetIsInput: bool): (r: Nav)
    ensures Valid(n) ==> Valid(r)
    ensures targetIsInput || key == OtherKey ==> r == n
    ensures Valid(n) && !targetIsInput && (key == ArrowRight || key == Space) ==>
              r == if n.currentSlide + 1 < |Slides| then Nav(n.currentSlide + 1, n.animKey + 1) else n
    ensures Valid(n) && !targetIsInput && key == ArrowLeft ==>
              r == if 0 < n.currentSlide then Nav(n.currentSlide - 1, n.animKey + 1) else n
  {
    if targetIsInput then n
    else if key == ArrowRight || key == Space then GoTo(n, n.currentSlide + 1)
    else if key == ArrowLeft then GoTo(n, n.currentSlide - 1)
    else n
  }

  predicate PrevDisabled(n: Nav)
  {
    n.currentSlide == 0
  }

  predicate NextDisabled(n: Nav)
  {
    n.currentSlide == |Slides| - 1
  }

  /** On a valid state each boundary button is disabled exactly when the
      step it would take falls outside the deck, i.e. when `goTo` would
      ignore it. */
  lemma ButtonsDisabledExactlyAtEdges(n: Nav)
    requires Valid(n)
    ensures PrevDisabled(n) <==> GoTo(n, n.currentSlide - 1) == n
    ensures NextDisabled(n) <==> GoTo(n, n.currentSlide + 1) == n
  {
  }

  /** What the user can do in the shell. A disabled button emits no click. */
  datatype NavEvent = KeyPressed(key: Key, targetIsInput: bool) | DotClicked(i: int) | PrevClicked | NextClicked

  function Step(n: Nav, e: NavEvent): Nav
  {
    match e
    case KeyPressed(key, targetIsInput) => KeyDown(n, key, targetIsInput)
    case DotClicked(i) => GoTo(n, i)
    case PrevClicked => if PrevDisabled(n) then n else GoTo(n, n.currentSlide - 1)
    case NextClicked => if NextDisabled(n) then n else GoTo(n, n.currentSlide + 1)
  }

  function Run(n: Nav, es: seq<NavEvent>): Nav
    decreases |es|
  {
    if |es| == 0 then n else Run(Step(n, es[0]), es[1..])
  }

  /** Every step either leaves the state alone or is an accepted `goTo`,
      which keeps the slide in range and bumps `animKey` by one. */
  lemma StepAcceptedOrIgnored(n: Nav, e: NavEvent)
    requires Valid(n)
    ensures Valid(Step(n, e))
    ensures Step(n, e) == n || Step(n, e).animKey == n.animKey + 1
  {
  }

  /** From a valid state any event sequence keeps `currentSlide` in range,
      and `animKey` grows by at most one per event. */
  lemma {:induction false} RunStaysInRange(n: Nav, es: seq<NavEvent>)
    requires Valid(n)
    ensures Valid(Run(n, es))
    ensures n.animKey <= Run(n, es).animKey <= n.animKey + |es|
    decreases |es|
  {
    if |es| > 0 {
      StepAcceptedOrIgnored(n, es[0]);
      RunStaysInRange(Step(n, es[0]), es[1..]);
    }
  }

  /** The name under the slide; the two tables have the same length, so the
      lookup is always in bounds. */
  function SlideName(n: Nav): (name: string)
    requires Valid(n)
    ensures name in SlideNames && |SlideNames| == |Slides|
  {
    SlideNames[n.currentSlide]
  }

  /** Nav-dot colouring. */
  datatype DotKind = Current | Visited | Upcoming

  function DotKindOf(i: int, current: int): DotKind
  {
    if i == current then Current else if i < current then Visited else Upcoming
  }

  /** One dot per slide. */
  function Dots(n: Nav): (ds: seq<DotKind>)
    ensures |ds| == |Slides|
  {
    DotsUpTo(|Slides|, n.currentSlide)
  }

  function DotsUpTo(len: nat, current: int): (ds: seq<DotKind>)
    ensures |ds| == len
  {
    seq(len, i => DotKindOf(i, current))
  }

  function Count(ds: seq<DotKind>, k: DotKind): nat
  {
    if |ds| == 0 then 0 else Count(ds[..|ds| - 1], k) + (if ds[|ds| - 1] == k then 1 else 0)
  }

  function Min(a: int, b: int): int { if a <= b then a else b }

  /** Among the first `len` dots: one current dot if the current slide is
      among them, the dots before it visited, the rest upcoming. */
  lemma {:induction false} DotCountsUpTo(len: nat, current: nat)
    ensures Count(DotsUpTo(len, current), Current) == (if current < len then 1 else 0)
    ensures Count(DotsUpTo(len, current), Visited) == Min(len, current)
    ensures Count(DotsUpTo(len, current), Upcoming) == len - Min(len, current + 1)
  {
    if len > 0 {
      assert DotsUpTo(len, current)[..len - 1] == DotsUpTo(len - 1, current);
      DotCountsUpTo(len - 1, current);
    }
  }

  /** On a valid state: ten dots, exactly one current, `currentSlide`
      visited and the remaining ones upcoming; dot i is current iff
      i == currentSlide and visited iff i < currentSlide. */
  lemma DotCounts(n: Nav)
    requires Valid(n)
    ensures |Dots(n)| == 10
    ensures Count(Dots(n), Current) == 1
    ensures Count(Dots(n), Visited) == n.currentSlide
    ensures Count(Dots(n), Upcoming) == |Slides| - 1 - n.currentSlide
    ensures forall i :: 0 <= i < |Slides| ==>
              (Dots(n)[i] == Current <==> i == n.currentSlide)
              && (Dots(n)[i] == Visited <==> i < n.currentSlide)
  {
    DotCountsUpTo(|Slides|, n.currentSlide);
  }

  /** Decimal rendering of a natural number. */
  predicate IsDigits(s: string)
  {
    forall i :: 0 <= i < |s| ==> '0' <= s[i] <= '9'
  }

  function DigitsValue(s: string): nat
    requires IsDigits(s)
  {
    if |s| == 0 then 0 else DigitsValue(s[..|s| - 1]) * 10 + (s[|s| - 1] as int - '0' as int)
  }

  function NatToString(x: nat): (s: string)
    ensures |s| >= 1 && IsDigits(s) && DigitsValue(s) == x
    ensures s[0] == '0' ==> x == 0
  {
    if x < 10 then ["0123456789"[x]]
    else
      var prefix := NatToString(x / 10);
      var s := prefix + ["0123456789"[x % 10]];
      assert s[..|s| - 1] == prefix;
      s
  }

  /** `{currentSlide + 1} / {slides.length}`. */
  function Counter(n: Nav): string
    requires Valid(n)
  {
    NatToString(n.currentSlide + 1) + " / " + NatToString(|Slides|)
  }

  /** The counter reads back as the one-based position followed by " / 10". */
  lemma CounterShowsPosition(n: Nav)
    requires Valid(n)
    ensures var c := Counter(n);
            |c| >= 6 && c[|c| - 5..] == " / 10"
            && IsDigits(c[..|c| - 5]) && DigitsValue(c[..|c| - 5]) == n.currentSlide + 1
  {
    var c := Counter(n);
    assert NatToString(|Slides|) == "10";
    assert c[..|c| - 5] == NatToString(n.currentSlide + 1);
  }

  /** The deck opens on the title slide with the counter at "1 / 10". */
  lemma InitialCounter()
    ensures Valid(Init) && Slides[Init.currentSlide] == "title"
    ensures Counter(Init) == "1 / 10"
    ensures |Dots(Init)| == 10
  {
  }
}
