// The three swipeable carousels of the public pages (tariffs, the "inside"
// months and the roadmap). Each page keeps a bounded slide index, moves it
// with modular next/prev steps behind an animation guard, and offers
// boundary-checked arrow keys, navigation buttons and touch swipes. The
// mechanism is the same on all three pages; it is modelled once as
// Carousel.Slider, and the page-specific parts follow in their own modules.

module Carousel {
  import opened Wrappers

  datatype Direction = Left | Right
  datatype Key = ArrowLeft | ArrowRight | OtherKey

  /** A pending setTimeout callback, in the order the browser will run it. */
  datatype Timer =
    | StepDone(target: int)   // the 400 ms end of a next/prev animation
    | SwipeDone(target: int)  // the 300 ms index update of a successful swipe
    | Release                 // the 200/300 ms end of a swipe animation

  /** The index after a "next" step: (i + 1) % n. */
  function Forward(i: int, n: int): (r: int)
    requires 0 <= i < n
    ensures 0 <= r < n
    ensures i < n - 1 ==> r == i + 1
    ensures i == n - 1 ==> r == 0
  {
    (i + 1) % n
  }

  /** The index after a "prev" step: (i - 1 + n) % n. */
  function Backward(i: int, n: int): (r: int)
    requires 0 <= i < n
    ensures 0 <= r < n
    ensures i > 0 ==> r == i - 1
    ensures i == 0 ==> r == n - 1
  {
    (i - 1 + n) % n
  }

  /** Next and prev undo each other. */
  lemma ForwardBackward(i: int, n: int)
    requires 0 <= i < n
    ensures Backward(Forward(i, n), n) == i
    ensures Forward(Backward(i, n), n) == i
  {
  }

  /** Where an arrow key moves the index: never past either end, never wrapping. */
  function KeyTarget(key: Key, i: int, n: int): (r: Option<int>)
    requires 0 <= i < n
    ensures r.Some? ==> 0 <= r.value < n
    ensures r == Some(i - 1) <==> key == ArrowLeft && i > 0
    ensures r == Some(i + 1) <==> key == ArrowRight && i < n - 1
    ensures r.None? <==> !((key == ArrowLeft && i > 0) || (key == ArrowRight && i < n - 1))
  {
    if key == ArrowLeft && i > 0 then Some(Backward(i, n))
    else if key == ArrowRight && i < n - 1 then Some(Forward(i, n))
    else None
  }

  /** The left button is rendered only on a slide ArrowLeft can leave. */
  predicate LeftShown(i: int)
  {
    i > 0
  }

  /** The right button is rendered only on a slide ArrowRight can leave. */
  predicate RightShown(i: int, n: int)
  {
    i < n - 1
  }

  /** A button is visible exactly when the arrow key in its direction moves. */
  lemma ButtonsMatchKeys(i: int, n: int)
    requires 0 <= i < n
    ensures LeftShown(i) <==> KeyTarget(ArrowLeft, i, n).Some?
    ensures RightShown(i, n) <==> KeyTarget(ArrowRight, i, n).Some?
  {
  }

  function Abs(x: real): real
  {
    if x < 0.0 then -x else x
  }

  function Max(a: real, b: real): real
  {
    if a < b then b else a
  }

  /**
   * shouldTrigger: the offset beats max(50, 15% of the screen width), or the
   * "velocity" (which is the same absolute offset) beats 20. Since the first
   * threshold is always at least 50, the swipe fires exactly when the offset
   * is more than 20 pixels either way, whatever the screen width.
   */
  function ShouldTrigger(offset: real, width: real): (r: bool)
    ensures r <==> Abs(offset) > 20.0
  {
    Abs(offset) > Max(50.0, width * 0.15) || Abs(offset) > 20.0
  }

  /** The slide a fired swipe moves to: a drag to the right goes back, to the left goes on. */
  function SwipeTarget(offset: real, i: int, n: int): (r: Option<int>)
    requires 0 <= i < n
    ensures r.Some? ==> 0 <= r.value < n
    ensures r == Some(i - 1) <==> offset > 0.0 && i > 0
    ensures r == Some(i + 1) <==> offset < 0.0 && i < n - 1
    ensures r.None? <==> !((offset > 0.0 && i > 0) || (offset < 0.0 && i < n - 1))
  {
    if offset > 0.0 && i > 0 then Some(i - 1)
    else if offset < 0.0 && i < n - 1 then Some(i + 1)
    else None
  }

  /** A swipe to the right does what ArrowLeft does, a swipe to the left what ArrowRight does. */
  lemma SwipeMatchesKeys(offset: real, i: int, n: int)
    requires 0 <= i < n
    ensures offset > 0.0 ==> SwipeTarget(offset, i, n) == KeyTarget(ArrowLeft, i, n)
    ensures offset < 0.0 ==> SwipeTarget(offset, i, n) == KeyTarget(ArrowRight, i, n)
    ensures offset == 0.0 ==> SwipeTarget(offset, i, n).None?
  {
  }

  /** The drag offset, limited to 30% of the screen width either way. */
  function Clamp(dx: real, width: real): (r: real)
    requires width >= 0.0
    ensures Abs(r) <= width * 0.3
    ensures -(width * 0.3) <= dx <= width * 0.3 ==> r == dx
    ensures dx > width * 0.3 ==> r == width * 0.3
    ensures dx < -(width * 0.3) ==> r == -(width * 0.3)
  {
    var maxOffset := width * 0.3;
    Max(-maxOffset, if maxOffset < dx then maxOffset else dx)
  }

  /** The progress bar width in percent for slide i of total. */
  function Progress(i: int, total: int): (r: real)
    requires 0 <= i < total
    ensures 0.0 < r <= 100.0
    ensures r >= 100.0 <==> i == total - 1
  {
    ((i + 1) as real / total as real) * 100.0
  }

  /** The timer queues one user action can leave behind. */
  predicate WellFormed(pending: seq<Timer>, n: int)
  {
    || pending == []
    || pending == [Release]
    || (|pending| == 1 && pending[0].StepDone? && 0 <= pending[0].target < n)
    || (|pending| == 2 && pending[0].SwipeDone? && pending[1] == Release && 0 <= pending[0].target < n)
  }

  class Slider {
    const count: int
    /** Whether completed next/prev steps bump the key of the main button (the roadmap does). */
    const bumpsKey: bool
    var index: int
    var currentSlide: int
    var nextSlide: Option<int>
    var direction: Option<Direction>
    var animating: bool
    var swipeActive: bool
    var horizontal: bool
    var startX: real
    var startY: real
    var offset: real
    var buttonKey: nat
    var pending: seq<Timer>

    ghost predicate Valid()
      reads this
    {
      && count > 0
      && 0 <= index < count
      // the effect that copies the index into currentSlide has always run
      && currentSlide == index
      && (nextSlide.Some? ==> 0 <= nextSlide.value < count)
      && WellFormed(pending, count)
      // the animation flag is up exactly while a timer is still to run
      && (animating <==> pending != [])
      // between animations no second slide is shown
      && ((pending == [] || pending == [Release]) ==> nextSlide.None? && direction.None?)
      // a next/prev step has already moved the index; its timer only ends the animation
      && ((|pending| == 1 && pending[0].StepDone?) ==>
            pending[0].target == index && nextSlide == Some(index) && direction.Some?)
      // a swipe moves the index only when its timer runs
      && ((|pending| == 2 && pending[0].SwipeDone?) ==>
            nextSlide == Some(pending[0].target) && direction.Some?
            && (pending[0].target == index - 1 || pending[0].target == index + 1))
    }

    /** Component mount: the first slide, nothing animating. */
    constructor(n: int, bumps: bool)
      requires n > 0
      ensures Valid()
      ensures count == n && bumpsKey == bumps
      ensures index == 0 && currentSlide == 0 && nextSlide.None? && direction.None?
      ensures !animating && !swipeActive && !horizontal && offset == 0.0 && buttonKey == 0
    {
      count := n;
      bumpsKey := bumps;
      index := 0;
      currentSlide := 0;
      nextSlide := None;
      direction := None;
      animating := false;
      swipeActive := false;
      horizontal := false;
      startX := 0.0;
      startY := 0.0;
      offset := 0.0;
      buttonKey := 0;
      pending := [];
    }

    /** nextTariff / nextMonth / nextStep: a wrapping step forward behind the animation guard. */
    method Next()
      requires Valid()
      modifies this
      ensures Valid()
      ensures old(animating) ==> unchanged(this)
      ensures !old(animating) ==>
        && index == Forward(old(index), count)
        && animating && direction == Some(Right) && nextSlide == Some(index)
        && pending == [StepDone(index)]
        && currentSlide == index && buttonKey == old(buttonKey)
        && swipeActive == old(swipeActive) && horizontal == old(horizontal)
        && startX == old(startX) && startY == old(startY) && offset == old(offset)
    {
      if animating {
        return;
      }
      index := Forward(index, count);
      // the index-to-slide effect runs right after this render
      currentSlide := index;
      animating := true;
      direction := Some(Right);
      nextSlide := Some(index);
      pending := [StepDone(index)];
    }

    /** prevTariff / prevMonth / prevStep: a wrapping step back behind the animation guard. */
    method Prev()
      requires Valid()
      modifies this
      ensures Valid()
      ensures old(animating) ==> unchanged(this)
      ensures !old(animating) ==>
        && index == Backward(old(index), count)
        && animating && direction == Some(Left) && nextSlide == Some(index)
        && pending == [StepDone(index)]
        && currentSlide == index && buttonKey == old(buttonKey)
        && swipeActive == old(swipeActive) && horizontal == old(horizontal)
        && startX == old(startX) && startY == old(startY) && offset == old(offset)
    {
      if animating {
        return;
      }
      index := Backward(index, count);
      currentSlide := index;
      animating := true;
      direction := Some(Left);
      nextSlide := Some(index);
      pending := [StepDone(index)];
    }

    /** The keydown listener: arrows move one slide and never wrap round. */
    method KeyDown(key: Key)
      requires Valid()
      modifies this
      ensures Valid()
      ensures (old(animating) || KeyTarget(key, old(index), count).None?) ==> unchanged(this)
      ensures !old(animating) && KeyTarget(key, old(index), count).Some? ==>
        && index == KeyTarget(key, old(index), count).value
        && animating && pending == [StepDone(index)]
        && direction == Some(if key == ArrowLeft then Left else Right)
      ensures old(index) - 1 <= index <= old(index) + 1
    {
      if animating {
        return;
      }
      if key == ArrowLeft && index > 0 {
        Prev();
      } else if key == ArrowRight && index < count - 1 {
        Next();
      }
    }

    /** handleTouchStart: remember where the finger went down. */
    method TouchStart(x: real, y: real)
      requires Valid()
      modifies this
      ensures Valid()
      ensures old(animating) ==> unchanged(this)
      ensures !old(animating) ==>
        && swipeActive && !horizontal && offset == 0.0 && startX == x && startY == y
        && index == old(index) && currentSlide == old(currentSlide) && nextSlide == old(nextSlide)
        && direction == old(direction) && animating == old(animating)
        && pending == old(pending) && buttonKey == old(buttonKey)
    {
      if animating {
        return;
      }
      startX := x;
      startY := y;
      swipeActive := true;
      offset := 0.0;
      horizontal := false;
    }

    /**
     * handleTouchMove: a move more than 20 pixels sideways and 1.5 times more
     * horizontal than vertical marks the gesture horizontal. From then on (the
     * handler reads the flag as of the previous move) the slide follows the
     * finger, limited to 30% of the screen width.
     */
    method TouchMove(x: real, y: real, width: real)
      requires Valid()
      requires width >= 0.0
      modifies this
      ensures Valid()
      ensures (!old(swipeActive) || old(animating)) ==> unchanged(this)
      ensures old(swipeActive) && !old(animating) ==>
        var dx := x - startX;
        var dy := y - startY;
        var sideways := Abs(dx) > Abs(dy) * 1.5 && Abs(dx) > 20.0;
        && horizontal == (old(horizontal) || sideways)
        && offset == (if old(horizontal) || sideways then Clamp(dx, width) else old(offset))
        && index == old(index) && currentSlide == old(currentSlide) && nextSlide == old(nextSlide)
        && direction == old(direction) && animating == old(animating) && swipeActive == old(swipeActive)
        && startX == old(startX) && startY == old(startY)
        && pending == old(pending) && buttonKey == old(buttonKey)
    {
      if !swipeActive || animating {
        return;
      }
      var dx := x - startX;
      var dy := y - startY;
      var isHorizontal := Abs(dx) > Abs(dy) * 1.5;
      var wasHorizontal := horizontal;
      if isHorizontal && Abs(dx) > 20.0 {
        horizontal := true;
      }
      if wasHorizontal || (isHorizontal && Abs(dx) > 20.0) {
        offset := Clamp(dx, width);
      }
    }

    /**
     * handleTouchEnd: the gesture always starts an animation. A fired swipe
     * that can move schedules the index update and then the release; any
     * other gesture schedules only the release.
     */
    method TouchEnd(width: real)
      requires Valid()
      modifies this
      ensures Valid()
      ensures (!old(swipeActive) || old(animating)) ==> unchanged(this)
      ensures old(swipeActive) && !old(animating) ==>
        var target := if ShouldTrigger(old(offset), width) then SwipeTarget(old(offset), old(index), count) else None;
        && animating && !swipeActive && !horizontal && offset == 0.0
        && index == old(index) && currentSlide == old(currentSlide) && buttonKey == old(buttonKey)
        && startX == old(startX) && startY == old(startY)
        && (target.None? ==>
              pending == [Release] && nextSlide == old(nextSlide) && direction == old(direction))
        && (target.Some? ==>
              pending == [SwipeDone(target.value), Release] && nextSlide == target
              && direction == Some(if old(offset) > 0.0 then Left else Right))
    {
      if !swipeActive || animating {
        return;
      }
      var triggered := ShouldTrigger(offset, width);
      animating := true;
      var target := if triggered then SwipeTarget(offset, index, count) else None;
      var timers: seq<Timer> := [];
      if target.Some? {
        direction := Some(if offset > 0.0 then Left else Right);
        nextSlide := target;
        timers := [SwipeDone(target.value)];
      }
      swipeActive := false;
      horizontal := false;
      offset := 0.0;
      pending := timers + [Release];
    }

    /** The browser runs the earliest pending timer. */
    method FireTimer()
      requires Valid()
      requires pending != []
      modifies this
      ensures Valid()
      ensures pending == old(pending[1..])
      ensures old(pending[0]).StepDone? ==>
        && currentSlide == old(pending[0]).target && index == old(index)
        && nextSlide.None? && direction.None? && !animating
        && buttonKey == (if bumpsKey then old(buttonKey) + 1 else old(buttonKey))
      ensures old(pending[0]).SwipeDone? ==>
        && index == old(pending[0]).target && currentSlide == index
        && nextSlide.None? && direction.None? && animating && buttonKey == old(buttonKey)
      ensures old(pending[0]).Release? ==>
        && !animating && index == old(index) && currentSlide == old(currentSlide)
        && nextSlide == old(nextSlide) && direction == old(direction) && buttonKey == old(buttonKey)
      ensures pending == [] ==> currentSlide == index && !animating
      ensures swipeActive == old(swipeActive) && horizontal == old(horizontal) && offset == old(offset)
      ensures startX == old(startX) && startY == old(startY)
    {
      var t := pending[0];
      pending := pending[1..];
      match t
      case StepDone(target) =>
        currentSlide := target;
        nextSlide := None;
        direction := None;
        animating := false;
        if bumpsKey {
          buttonKey := buttonKey + 1;
        }
      case SwipeDone(target) =>
        index := target;
        currentSlide := target;
        nextSlide := None;
        direction := None;
      case Release =>
        animating := false;
    }
  }
}

/** The tariff page (Tariff.tsx): one slide per tariff price, three built-in ones as a fallback. */
module TariffCarousel {
  import opened Wrappers
  import Carousel

  /** A row of the public tariff price list; the description may be null. */
  datatype TariffPrice = TariffPrice(title: string, price: string, originalPrice: string,
                                     description: Option<string>)

  /** Which of the three feature lists a card shows. */
  datatype Plan = Individual | Support | Group

  datatype Card = Card(title: string, price: string, originalPrice: string, features: Plan,
                       description: string)

  /** The feature list by position: the second card has support, the third group, all others individual. */
  function PlanAt(index: int): (p: Plan)
    ensures p == Support <==> index == 1
    ensures p == Group <==> index == 2
  {
    if index == 2 then Group else if index == 1 then Support else Individual
  }

  function CardFor(price: TariffPrice, index: int): Card
  {
    Card(price.title, price.price, price.originalPrice, PlanAt(index),
         if price.description.Some? then price.description.value else "")
  }

  const Fallback: seq<Card> := [
    Card("ИНДИВИДУАЛЬНОЕ НАСТАВНИЧЕСТВО", "57 т.р/мес", "68 000₽/мес", Individual,
         "Для тех, кто не хочет \"разбираться сам\",\nа хочет выстрелить быстро,\nс поддержкой и помощью\nна каждом этапе"),
    Card("ОБУЧЕНИЕ С ПОДДЕРЖКОЙ", "37 т.р/мес", "46 000₽/мес", Support,
         "Для тех, кому нужна персональная обратная связь и быстрый рост"),
    Card("ГРУППОВОЕ ОБУЧЕНИЕ", "15 т.р/мес", "19 000₽/мес", Group,
         "Отличный выбор, если хочешь войти в профессию без риска\nи убедиться, что это твое")
  ]

  /** The tariffs shown: the loaded prices in order, or the fallback cards when none loaded. */
  function Cards(prices: seq<TariffPrice>): (r: seq<Card>)
    ensures |r| > 0
    ensures |prices| > 0 ==> |r| == |prices|
    ensures |prices| == 0 ==> r == Fallback
    ensures |prices| > 0 ==> forall i :: 0 <= i < |prices| ==>
      && r[i].title == prices[i].title && r[i].price == prices[i].price
      && r[i].originalPrice == prices[i].originalPrice && r[i].features == PlanAt(i)
      && (r[i].description == "" <==> (prices[i].description.None? || prices[i].description == Some("")))
  {
    if |prices| > 0 then seq(|prices|, i requires 0 <= i < |prices| => CardFor(prices[i], i))
    else Fallback
  }

  /** Every fallback card carries the feature list its position would give it. */
  lemma FallbackPlansByPosition()
    ensures forall i :: 0 <= i < |Fallback| ==> Fallback[i].features == PlanAt(i)
  {
    assert Fallback[0].features == PlanAt(0);
    assert Fallback[1].features == PlanAt(1);
    assert Fallback[2].features == PlanAt(2);
  }

  /** The progress bar colour: green, yellow and red for the first three tariffs, none after. */
  function ProgressColor(index: int): (c: string)
    ensures c == "" <==> !(0 <= index <= 2)
    ensures index == 0 ==> c == "#4CAF50"
    ensures index == 1 ==> c == "#FFC107"
    ensures index == 2 ==> c == "#F44336"
  {
    if index == 0 then "#4CAF50"
    else if index == 1 then "#FFC107"
    else if index == 2 then "#F44336"
    else ""
  }

  /** With the fallback list every slide the carousel can reach has a colour. */
  lemma FallbackSlidesColoured(index: int)
    requires 0 <= index < |Cards([])|
    ensures ProgressColor(index) != ""
  {
  }
}

/** The "inside" page (Inside.tsx): three months and a final slide. */
module InsideCarousel {
  import Carousel

  const MonthCount: int := 3
  /** months.length + 1: the final step counts as a slide. */
  const TotalSteps: int := MonthCount + 1

  datatype Slide = Month(index: int) | FinalStep | NoSlide

  /** What the current slide renders: a month card, the final card, or nothing. */
  function SlideAt(currentSlide: int): (s: Slide)
    ensures s.Month? <==> currentSlide < MonthCount
    ensures s.Month? ==> s.index == currentSlide
    ensures s == FinalStep <==> currentSlide == MonthCount
  {
    if currentSlide < MonthCount then Month(currentSlide)
    else if currentSlide == MonthCount then FinalStep
    else NoSlide
  }

  /** Every index the carousel can hold renders something, and only the last one is the final card. */
  lemma EverySlideRenders(i: int)
    requires 0 <= i < TotalSteps
    ensures SlideAt(i) != NoSlide
    ensures SlideAt(i) == FinalStep <==> i == TotalSteps - 1
    ensures Carousel.Progress(i, TotalSteps) >= 100.0 <==> SlideAt(i) == FinalStep
  {
  }
}

/** The roadmap page (Roadmap.tsx): five steps and a final result slide. */
module RoadmapCarousel {
  import opened Wrappers
  import Text
  import Carousel

  const StepCount: int := 5
  /** roadmapSteps.length + 1: next/prev cycle through the final result too. */
  const Cycle: int := StepCount + 1

  datatype Slide = StepCard(index: int) | FinalResult | NoSlide

  function SlideAt(currentSlide: int): (s: Slide)
    ensures s.StepCard? <==> currentSlide < StepCount
    ensures s.StepCard? ==> s.index == currentSlide
    ensures s == FinalResult <==> currentSlide == StepCount
  {
    if currentSlide < StepCount then StepCard(currentSlide)
    else if currentSlide == StepCount then FinalResult
    else NoSlide
  }

  /** The TARIFF button appears on the final result only. */
  predicate TariffButtonShown(currentSlide: int)
  {
    currentSlide == StepCount
  }

  /** The main button plays its entrance animation on the first slide only. */
  predicate MainButtonVisible(currentSlide: int)
  {
    currentSlide == 0
  }

  lemma FinalSlideOffersTariffs(i: int)
    requires 0 <= i < Cycle
    ensures TariffButtonShown(i) <==> SlideAt(i) == FinalResult
    ensures TariffButtonShown(i) ==> !Carousel.RightShown(i, Cycle)
    ensures TariffButtonShown(i) <==> Carousel.Progress(i, Cycle) >= 100.0
  {
  }

  const PricePrefix: string := "ТЫ МОЖЕШЬ НАЧАТЬ СВОЙ ПУТЬ ВСЕГО С "
  const PriceSuffix: string := " В МЕСЯЦ:"
  const DefaultPrice: string := "15.970"

  /** The price line: the tariff_price setting, or 15.970 when it is missing or empty. */
  function PriceText(setting: Option<string>): (r: string)
    ensures setting.Some? && Text.Truthy(setting.value) ==> r == PricePrefix + setting.value + PriceSuffix
    ensures !(setting.Some? && Text.Truthy(setting.value)) ==> r == PricePrefix + DefaultPrice + PriceSuffix
  {
    var value := if setting.Some? && Text.Truthy(setting.value) then setting.value else DefaultPrice;
    PricePrefix + value + PriceSuffix
  }

  /** The configured price can be read back out of the line. */
  lemma PriceTextCarriesPrice(setting: Option<string>)
    ensures var r := PriceText(setting);
      && |r| > |PricePrefix| + |PriceSuffix|
      && r[|PricePrefix| .. |r| - |PriceSuffix|]
         == (if setting.Some? && Text.Truthy(setting.value) then setting.value else DefaultPrice)
  {
  }
}
