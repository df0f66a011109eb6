/**
 * The two-slide showcase (src/components/PropertiesSection.tsx): an index into a fixed list of
 * two properties, moved forward by the arrow and by a timer.
 */
module PropertiesSection {

  /** The number of slides in the fixed list. */
  const Count := 2

  /** The step shared by the arrow and the timer: `(prev + 1) % properties.length`. */
  function Advance(i: nat): (r: nat)
    ensures r < Count
    ensures i < Count ==> r != i
    ensures i == Count - 1 ==> r == 0
  {
    (i + 1) % Count
  }

  /** Two steps come back to the start. */
  lemma TwoStepsReturn(i: nat)
    requires i < Count
    ensures Advance(Advance(i)) == i
  {
  }

  class Showcase {
    var index: nat

    /** `properties[index]` is always defined. */
    predicate Valid()
      reads this
    {
      index < Count
    }

    constructor()
      ensures index == 0 && Valid()
    {
      index := 0;
    }

    method HandleNext()
      modifies this
      ensures index == Advance(old(index)) && Valid()
    {
      index := (index + 1) % Count;
    }

    /** The timer's tick, written separately in the component, performs the same step. */
    method IntervalTick()
      modifies this
      ensures index == Advance(old(index)) && Valid()
    {
      index := (index + 1) % Count;
    }
  }
}
