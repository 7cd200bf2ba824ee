/**
 * The home-page hero carousel (src/components/home/hero-slider.tsx): the
 * `currentIndex` and `isPaused` state cells, the modular next/previous formulas, and
 * the guards that decide whether autoplay runs and which controls render.
 */
module HeroSlider {
  import opened Wrappers

  datatype Slide = Slide(id: string, desktopImage: string, mobileImage: string, alt: string, link: string)

  /** JavaScript's `a % b` for b > 0: the remainder truncates toward zero, so it has the sign of `a`. */
  function JsRem(a: int, b: int): int
    requires b > 0
  {
    if a >= 0 then a % b else -((-a) % b)
  }

  /** `(prev + 1) % slides.length`: the following slide, wrapping from the last to the first. */
  function Next(i: int, n: int): (r: int)
    requires n > 0
    ensures 0 <= i < n ==> 0 <= r < n
    ensures 0 <= i < n - 1 ==> r == i + 1
    ensures i == n - 1 ==> r == 0
  {
    JsRem(i + 1, n)
  }

  /** `(prev - 1 + slides.length) % slides.length`: the preceding slide, wrapping from the first to the last. */
  function Prev(i: int, n: int): (r: int)
    requires n > 0
    ensures 0 <= i < n ==> 0 <= r < n
    ensures 0 < i < n ==> r == i - 1
    ensures i == 0 ==> r == n - 1
  {
    JsRem(i - 1 + n, n)
  }

  /** Going forward then back, or back then forward, returns to the same slide. */
  lemma NextPrevInverse(i: int, n: int)
    requires 0 <= i < n
    ensures Prev(Next(i, n), n) == i
    ensures Next(Prev(i, n), n) == i
  {
  }

  /** The slide reached after k calls of `goToNext`. */
  function Advance(i: int, n: int, k: nat): int
    requires n > 0
  {
    if k == 0 then i else Next(Advance(i, n, k - 1), n)
  }

  lemma {:induction false} AdvanceInRange(i: int, n: int, k: nat)
    requires 0 <= i < n
    ensures 0 <= Advance(i, n, k) < n
  {
    if k > 0 {
      AdvanceInRange(i, n, k - 1);
    }
  }

  lemma {:induction false} AdvanceWithoutWrap(i: int, n: int, k: nat)
    requires 0 <= i && i + k < n
    ensures Advance(i, n, k) == i + k
  {
    if k > 0 {
      AdvanceWithoutWrap(i, n, k - 1);
    }
  }

  lemma {:induction false} AdvanceSplits(i: int, n: int, a: nat, b: nat)
    requires n > 0
    ensures Advance(i, n, a + b) == Advance(Advance(i, n, a), n, b)
  {
    if b > 0 {
      AdvanceSplits(i, n, a, b - 1);
    }
  }

  /** n calls of `goToNext` on n slides come back to the starting slide. */
  lemma FullCycle(i: int, n: int)
    requires 0 <= i < n
    ensures Advance(i, n, n) == i
  {
    AdvanceSplits(i, n, n - i - 1, i + 1);
    AdvanceWithoutWrap(i, n, n - i - 1);
    assert Advance(n - 1, n, 1) == 0;
    AdvanceSplits(n - 1, n, 1, i);
    AdvanceWithoutWrap(0, n, i);
  }

  class Slider {
    const slides: seq<Slide>
    var currentIndex: int
    var isPaused: bool

    /** The index names a slide whenever there is one. */
    predicate Valid()
      reads this
    {
      |slides| > 0 ==> 0 <= currentIndex < |slides|
    }

    constructor (slides: seq<Slide>)
      ensures this.slides == slides && currentIndex == 0 && !isPaused && Valid()
    {
      this.slides := slides;
      currentIndex, isPaused := 0, false;
    }

    /** The autoplay interval exists only while not paused and with more than one slide. */
    predicate AutoplayRunning()
      reads this
    {
      !isPaused && |slides| > 1
    }

    /** The arrows and the indicator dots render only with more than one slide. */
    predicate ShowsNavigation()
    {
      |slides| > 1
    }

    /** The slide on screen; with no slides the component renders nothing. */
    function Rendered(): (r: Option<Slide>)
      requires Valid()
      reads this
      ensures r.Some? <==> |slides| > 0
      ensures r.Some? ==> r.value == slides[currentIndex]
    {
      if |slides| == 0 then None else Some(slides[currentIndex])
    }

    /** The indices the indicator dots pass to `goToSlide`. */
    function IndicatorTargets(): (r: seq<int>)
      ensures |r| == (if ShowsNavigation() then |slides| else 0)
      ensures forall k :: 0 <= k < |r| ==> r[k] == k && 0 <= r[k] < |slides|
    {
      if ShowsNavigation() then seq(|slides|, k => k) else []
    }

    /** The "next" arrow, and each tick of the autoplay interval. */
    method GoToNext()
      requires |slides| > 0
      modifies this
      ensures currentIndex == Next(old(currentIndex), |slides|)
      ensures isPaused == old(isPaused)
      ensures old(Valid()) ==> Valid()
    {
      currentIndex := JsRem(currentIndex + 1, |slides|);
    }

    /** The "previous" arrow. */
    method GoToPrev()
      requires |slides| > 0
      modifies this
      ensures currentIndex == Prev(old(currentIndex), |slides|)
      ensures isPaused == old(isPaused)
      ensures old(Valid()) ==> Valid()
    {
      currentIndex := JsRem(currentIndex - 1 + |slides|, |slides|);
    }

    /** `goToSlide(index)` stores the index without a bounds check. */
    method GoToSlide(index: int)
      modifies this
      ensures currentIndex == index && isPaused == old(isPaused)
      ensures Valid() <==> (|slides| > 0 ==> 0 <= index < |slides|)
    {
      currentIndex := index;
    }

    /** One tick of the autoplay interval, which exists only while autoplay runs. */
    method AutoplayTick()
      requires AutoplayRunning()
      modifies this
      ensures currentIndex == Next(old(currentIndex), |slides|)
      ensures isPaused == old(isPaused)
      ensures old(Valid()) ==> Valid()
    {
      GoToNext();
    }

    method MouseEnter()
      modifies this
      ensures isPaused && currentIndex == old(currentIndex)
      ensures !AutoplayRunning()
    {
      isPaused := true;
    }

    method MouseLeave()
      modifies this
      ensures !isPaused && currentIndex == old(currentIndex)
      ensures AutoplayRunning() <==> |slides| > 1
    {
      isPaused := false;
    }
  }

  /** Clicking any indicator dot leaves the slider on a real slide. */
  method ClickIndicator(slider: Slider, k: nat)
    requires k < |slider.IndicatorTargets()|
    modifies slider
    ensures slider.Valid() && slider.currentIndex == k
    ensures slider.isPaused == old(slider.isPaused)
  {
    slider.GoToSlide(slider.IndicatorTargets()[k]);
  }
}
