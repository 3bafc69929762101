/** The product carousel: four slides, previous and next buttons, one dot
    per slide, an advance every five seconds and swipe gestures. */
module Carousel {

  /** The number of slides. */
  const SlideCount: int := 4

  /** The minimum horizontal travel, in pixels, that counts as a swipe. */
  const SwipeThreshold: int := 75

  /** The side from which the incoming slide enters. */
  datatype Direction = Left | Right

  /** What a finished touch gesture asks for. */
  datatype Swipe = ToNext | ToPrev | NoSwipe

  /** The slide after `i`, wrapping from the last back to the first. */
  function Next(i: int): (r: int)
    requires 0 <= i < SlideCount
    ensures 0 <= r < SlideCount
    ensures if i == SlideCount - 1 then r == 0 else r == i + 1
  {
    (i + 1) % SlideCount
  }

  /** The slide before `i`, wrapping from the first to the last. */
  function Prev(i: int): (r: int)
    requires 0 <= i < SlideCount
    ensures 0 <= r < SlideCount
    ensures if i == 0 then r == SlideCount - 1 else r == i - 1
  {
    (i - 1 + SlideCount) % SlideCount
  }

  lemma PrevUndoesNext(i: int)
    requires 0 <= i < SlideCount
    ensures Prev(Next(i)) == i && Next(Prev(i)) == i
  {
  }

  /** The slide reached from `i` after `n` advances. */
  function Advance(i: int, n: nat): (r: int)
    requires 0 <= i < SlideCount
    ensures 0 <= r < SlideCount
  {
    if n == 0 then i else Next(Advance(i, n - 1))
  }

  /** Advancing `n` times moves `n` places round the ring. */
  lemma {:induction false} AdvanceIsRotation(i: int, n: nat)
    requires 0 <= i < SlideCount
    ensures Advance(i, n) == (i + n) % SlideCount
  {
    if n > 0 {
      AdvanceIsRotation(i, n - 1);
    }
  }

  /** Four advances in a row bring back the slide one started from. */
  lemma FourAdvancesReturn(i: int)
    requires 0 <= i < SlideCount
    ensures Advance(i, SlideCount) == i
    ensures forall n: nat :: 0 < n < SlideCount ==> Advance(i, n) != i
  {
    AdvanceIsRotation(i, SlideCount);
    forall n: nat | 0 < n < SlideCount
      ensures Advance(i, n) != i
    {
      AdvanceIsRotation(i, n);
    }
  }

  /** The gesture recognised when a touch that started at `start` was last
      seen at `end`: a leftward drag of more than 75 pixels goes forward,
      a rightward one goes back, anything shorter does nothing. */
  function Classify(start: int, end: int): (s: Swipe)
    ensures s == ToNext <==> start - end > SwipeThreshold
    ensures s == ToPrev <==> end - start > SwipeThreshold
  {
    if start - end > SwipeThreshold then ToNext
    else if start - end < -SwipeThreshold then ToPrev
    else NoSwipe
  }

  class SlideShow {
    var currentSlide: int
    var direction: Direction
    var touchStart: int
    var touchEnd: int

    ghost predicate Valid()
      reads this
    {
      0 <= currentSlide < SlideCount
    }

    constructor ()
      ensures Valid()
      ensures currentSlide == 0 && direction == Right
      ensures touchStart == 0 && touchEnd == 0
    {
      currentSlide := 0;
      direction := Right;
      touchStart := 0;
      touchEnd := 0;
    }

    /** The five-second timer's callback. */
    method AutoAdvance()
      requires Valid()
      modifies this`currentSlide, this`direction
      ensures Valid()
      ensures currentSlide == Next(old(currentSlide)) && direction == Right
    {
      direction := Right;
      currentSlide := Next(currentSlide);
    }

    /** A click on the next button. */
    method NextSlide()
      requires Valid()
      modifies this`currentSlide, this`direction
      ensures Valid()
      ensures currentSlide == Next(old(currentSlide)) && direction == Right
    {
      direction := Right;
      currentSlide := Next(currentSlide);
    }

    /** A click on the previous button. */
    method PrevSlide()
      requires Valid()
      modifies this`currentSlide, this`direction
      ensures Valid()
      ensures currentSlide == Prev(old(currentSlide)) && direction == Left
    {
      direction := Left;
      currentSlide := Prev(currentSlide);
    }

    /** A click on the dot of slide `index`; the slide enters from the right
      only when it lies further on, so clicking the current dot counts as
      going left. */
    method GoToSlide(index: int)
      requires Valid() && 0 <= index < SlideCount
      modifies this`currentSlide, this`direction
      ensures Valid()
      ensures currentSlide == index
      ensures direction == Right <==> index > old(currentSlide)
    {
      direction := if index > currentSlide then Right else Left;
      currentSlide := index;
    }

    /** A finger touches the slide at horizontal position `x`. */
    method HandleTouchStart(x: int)
      modifies this`touchStart
      ensures touchStart == x
    {
      touchStart := x;
    }

    /** The finger moves to horizontal position `x`. */
    method HandleTouchMove(x: int)
      modifies this`touchEnd
      ensures touchEnd == x
    {
      touchEnd := x;
    }

    /** The finger is lifted: at most one of next and previous runs. */
    method HandleTouchEnd()
      requires Valid()
      modifies this`currentSlide, this`direction
      ensures Valid()
      ensures match Classify(touchStart, touchEnd)
        case ToNext => currentSlide == Next(old(currentSlide)) && direction == Right
        case ToPrev => currentSlide == Prev(old(currentSlide)) && direction == Left
        case NoSwipe => currentSlide == old(currentSlide) && direction == old(direction)
    {
      if touchStart - touchEnd > SwipeThreshold {
        NextSlide();
      }
      if touchStart - touchEnd < -SwipeThreshold {
        PrevSlide();
      }
    }
  }
}
