/**
 * The landing-page slider (src/components/HeroImage/HeroSlider.jsx): eight
 * slides, an interval that advances one slide, previous and next arrows, and
 * one dot per slide. The interval itself is not modelled; each tick is a call.
 */
module HeroSlider {
  import opened Carousel

  /** The number of slides. */
  const SlideCount := 8

  /** Which slides are rendered opaque for a given index. */
  function Opacity(index: int): (r: seq<bool>)
    ensures |r| == SlideCount
  {
    seq(SlideCount, i => i == index)
  }

  /** For an index in range, exactly one slide is opaque, the one at the index. */
  lemma ExactlyOneOpaque(index: int)
    requires 0 <= index < SlideCount
    ensures Opacity(index)[index]
    ensures forall i :: 0 <= i < SlideCount && i != index ==> !Opacity(index)[i]
    ensures |set i | 0 <= i < SlideCount && Opacity(index)[i]| == 1
  {
    assert (set i | 0 <= i < SlideCount && Opacity(index)[i]) == {index};
  }

  class Slider {
    var index: int

    ghost predicate Valid()
      reads this
    {
      0 <= index < SlideCount
    }

    /** The slider starts at the first slide. */
    constructor ()
      ensures Valid() && index == 0
    {
      index := 0;
    }

    /** The interval tick: one slide forward, wrapping after the last. */
    method Tick()
      requires Valid()
      modifies this
      ensures Valid() && index == NextIndex(old(index), SlideCount)
    {
      index := NextIndex(index, SlideCount);
    }

    /** The next arrow, which does what the tick does. */
    method Next()
      requires Valid()
      modifies this
      ensures Valid() && index == NextIndex(old(index), SlideCount)
    {
      index := NextIndex(index, SlideCount);
    }

    /** The previous arrow: one slide back, wrapping before the first. */
    method Previous()
      requires Valid()
      modifies this
      ensures Valid() && index == PrevIndex(old(index), SlideCount)
    {
      index := PrevIndex(index, SlideCount);
    }

    /** A dot click: there is one dot per slide. */
    method GoTo(dot: int)
      requires 0 <= dot < SlideCount
      modifies this
      ensures Valid() && index == dot
    {
      index := dot;
    }
  }

  /** Eight ticks show every slide once and come back to the start. */
  lemma TicksCycle(index: int, k: nat)
    requires 0 <= index < SlideCount
    ensures Advance(index, SlideCount, SlideCount) == index
    ensures 0 < k < SlideCount ==> Advance(index, SlideCount, k) != index
  {
    FullCycle(index, SlideCount);
    if 0 < k < SlideCount {
      NoShorterCycle(index, SlideCount, k);
    }
  }
}
