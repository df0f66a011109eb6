/**
 * The testimonial carousel (src/components/TestimonialCard.tsx): an index into a fixed list of
 * three testimonials, moved forward and backward by the arrows and forward by a timer.
 */
module TestimonialCard {

  /** The number of testimonials in the fixed list. */
  const Count := 3

  /** `nextTestimonial`'s step: `(i + 1) % testimonials.length`. */
  function NextIndex(i: nat): (r: nat)
    ensures r < Count
    ensures i < Count - 1 ==> r == i + 1
    ensures i == Count - 1 ==> r == 0
  {
    (i + 1) % Count
  }

  /** `prevTestimonial`'s step: the first testimonial goes back to the last. */
  function PrevIndex(i: nat): (r: nat)
    requires i < Count
    ensures r < Count
    ensures i == 0 ==> r == Count - 1
    ensures i > 0 ==> r == i - 1
  {
    if i == 0 then Count - 1 else i - 1
  }

  /** The two arrows undo each other. */
  lemma NextPrevInverse(i: nat)
    requires i < Count
    ensures PrevIndex(NextIndex(i)) == i
    ensures NextIndex(PrevIndex(i)) == i
  {
  }

  /** Three steps forward come back to the start. */
  lemma ThreeNextsReturn(i: nat)
    requires i < Count
    ensures NextIndex(NextIndex(NextIndex(i))) == i
  {
  }

  class Carousel {
    var currentIndex: nat

    /** `testimonials[currentIndex]` is always defined. */
    predicate Valid()
      reads this
    {
      currentIndex < Count
    }

    constructor()
      ensures currentIndex == 0 && Valid()
    {
      currentIndex := 0;
    }

    method NextTestimonial()
      requires Valid()
      modifies this
      ensures currentIndex == NextIndex(old(currentIndex)) && Valid()
    {
      currentIndex := (currentIndex + 1) % Count;
    }

    method PrevTestimonial()
      requires Valid()
      modifies this
      ensures currentIndex == PrevIndex(old(currentIndex)) && Valid()
    {
      if currentIndex == 0 {
        currentIndex := Count - 1;
      } else {
        currentIndex := currentIndex - 1;
      }
    }

    /** The timer's tick: the same step as the forward arrow. */
    method Tick()
      requires Valid()
      modifies this
      ensures currentIndex == NextIndex(old(currentIndex)) && Valid()
    {
      NextTestimonial();
    }
  }
}
