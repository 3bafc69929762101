/** The customer testimonials strip: four quotes, three shown at a time
    starting at the current one, rotating every five seconds, with one dot
    per quote to jump to it. */
module Testimonials {

  datatype Testimonial = Testimonial(name: string, role: string, rating: int)

  const Quotes: seq<Testimonial> := [
    Testimonial("Sarah Johnson", "CEO at TechCorp", 5),
    Testimonial("Michael Chen", "CTO at InnovateCo", 5),
    Testimonial("Emily Rodriguez", "Product Manager at DataStream", 5),
    Testimonial("David Park", "Founder at CloudNine", 5)
  ]

  /** The number of cards on screen at once. */
  const WindowSize: int := 3

  /** The quote shown on card `k` when `current` is the current quote. */
  function WindowPosition(current: int, k: int): int {
    (current + k) % |Quotes|
  }

  /** The cards on screen when `current` is the current quote: it and the
      two after it, wrapping round the list. The three positions differ,
      because the list is longer than the window, so no quote is shown
      twice. */
  function VisibleTestimonials(current: int): (v: seq<Testimonial>)
    requires 0 <= current < |Quotes|
    ensures |v| == WindowSize && v[0] == Quotes[current]
    ensures forall k :: 0 <= k < WindowSize ==> 0 <= WindowPosition(current, k) < |Quotes| && v[k] == Quotes[WindowPosition(current, k)]
    ensures forall i, j :: 0 <= i < j < WindowSize ==> WindowPosition(current, i) != WindowPosition(current, j)
    ensures forall i, j :: 0 <= i < j < |v| ==> v[i] != v[j]
  {
    forall i, j | 0 <= i < j < WindowSize
      ensures WindowPosition(current, i) != WindowPosition(current, j)
    {
      WindowPositionsDistinct(current, |Quotes|, i, j);
    }
    [Quotes[current], Quotes[WindowPosition(current, 1)], Quotes[WindowPosition(current, 2)]]
  }

  /** Positions `c`, `c + 1` and `c + 2` modulo a length of at least three
      are three different positions. */
  lemma {:induction false} WindowPositionsDistinct(c: int, n: int, i: int, j: int)
    requires 3 <= n && 0 <= c < n && 0 <= i < j < 3
    ensures (c + i) % n != (c + j) % n
  {
    if c + j < n {
      assert (c + i) % n == c + i && (c + j) % n == c + j;
    } else if c + i >= n {
      assert (c + i) % n == c + i - n && (c + j) % n == c + j - n;
    } else {
      assert (c + i) % n == c + i && (c + j) % n == c + j - n;
    }
  }

  class TestimonialStrip {
    var currentIndex: int
    /** +1 when the strip moves forward, -1 when it moves back. */
    var direction: int

    ghost predicate Valid()
      reads this
    {
      0 <= currentIndex < |Quotes| && (direction == 1 || direction == -1)
    }

    constructor ()
      ensures Valid() && currentIndex == 0 && direction == 1
    {
      currentIndex := 0;
      direction := 1;
    }

    /** The five-second timer's callback. */
    method AutoAdvance()
      requires Valid()
      modifies this
      ensures Valid()
      ensures currentIndex == (old(currentIndex) + 1) % |Quotes| && direction == 1
    {
      direction := 1;
      currentIndex := (currentIndex + 1) % |Quotes|;
    }

    /** A click on the dot of quote `index`. */
    method SelectDot(index: int)
      requires Valid() && 0 <= index < |Quotes|
      modifies this
      ensures Valid()
      ensures currentIndex == index
      ensures direction == (if index > old(currentIndex) then 1 else -1)
    {
      direction := if index > currentIndex then 1 else -1;
      currentIndex := index;
    }

    /** The cards currently on screen. */
    function Visible(): (v: seq<Testimonial>)
      requires Valid()
      reads this
      ensures |v| == WindowSize && v[0] == Quotes[currentIndex]
    {
      VisibleTestimonials(currentIndex)
    }
  }
}
