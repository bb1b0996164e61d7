/** The HeroCarousel component: the current slide and the transition lock
    that keeps a second move from starting while one is under way. The
    300 ms timer that releases the lock is the `EndTransition` method. */
module HeroCarousel {

  class Carousel {
    /** The number of slides. */
    const count: nat
    var currentSlide: int
    var isTransitioning: bool

    ghost predicate Valid()
      reads this
    {
      count > 0 && 0 <= currentSlide < count
    }

    constructor (count: nat)
      requires count > 0
      ensures Valid()
      ensures this.count == count && currentSlide == 0 && !isTransitioning
    {
      this.count := count;
      currentSlide := 0;
      isTransitioning := false;
    }

    /** nextSlide */
    method NextSlide()
      requires Valid()
      modifies this
      ensures Valid()
      ensures old(isTransitioning) ==> currentSlide == old(currentSlide) && isTransitioning
      ensures !old(isTransitioning) ==> currentSlide == Next(old(currentSlide), count) && isTransitioning
    {
      if !isTransitioning {
        isTransitioning := true;
        currentSlide := (currentSlide + 1) % count;
      }
    }

    /** prevSlide */
    method PrevSlide()
      requires Valid()
      modifies this
      ensures Valid()
      ensures old(isTransitioning) ==> currentSlide == old(currentSlide) && isTransitioning
      ensures !old(isTransitioning) ==> currentSlide == Prev(old(currentSlide), count) && isTransitioning
    {
      if !isTransitioning {
        isTransitioning := true;
        currentSlide := (currentSlide - 1 + count) % count;
      }
    }

    /** goToSlide, from an indicator, so `index` is a slide. */
    method GoToSlide(index: int)
      requires Valid() && 0 <= index < count
      modifies this
      ensures Valid()
      ensures old(isTransitioning) || index == old(currentSlide) ==>
                currentSlide == old(currentSlide) && isTransitioning == old(isTransitioning)
      ensures !old(isTransitioning) && index != old(currentSlide) ==> currentSlide == index && isTransitioning
    {
      if !isTransitioning && index != currentSlide {
        isTransitioning := true;
        currentSlide := index;
      }
    }

    /** The timer callback that releases the lock. */
    method EndTransition()
      requires Valid()
      modifies this
      ensures Valid() && !isTransitioning && currentSlide == old(currentSlide)
    {
      isTransitioning := false;
    }

    /** Arrows and indicators are drawn only for more than one slide. */
    predicate ShowsControls()
      reads this
    {
      count > 1
    }
  }

  /** The index the next arrow moves to: one on, wrapping after the last. */
  function Next(i: int, n: nat): (j: int)
    requires n > 0 && 0 <= i < n
    ensures 0 <= j < n
    ensures j == if i == n - 1 then 0 else i + 1
  {
    (i + 1) % n
  }

  /** The index the previous arrow moves to: one back, wrapping before the first. */
  function Prev(i: int, n: nat): (j: int)
    requires n > 0 && 0 <= i < n
    ensures 0 <= j < n
    ensures j == if i == 0 then n - 1 else i - 1
  {
    (i - 1 + n) % n
  }

  /** Back after forward, and forward after back, return to the start. */
  lemma PrevUndoesNext(i: int, n: nat)
    requires n > 0 && 0 <= i < n
    ensures Prev(Next(i, n), n) == i
    ensures Next(Prev(i, n), n) == i
  {
  }

  /** A click, then the timer, then a click the other way: back where the
      carousel started, unlocked again after the second timer. */
  method NextThenPrev(c: Carousel)
    requires c.Valid() && !c.isTransitioning
    modifies c
    ensures c.Valid() && c.currentSlide == old(c.currentSlide) && !c.isTransitioning
  {
    c.NextSlide();
    c.EndTransition();
    c.PrevSlide();
    c.EndTransition();
    PrevUndoesNext(old(c.currentSlide), c.count);
  }
}
