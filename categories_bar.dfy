/**
 * The category slider (src/components/Categories/CategoriesBar.jsx): how
 * many cards fit the window width, the furthest the slider may scroll, and
 * the arrows and dots that move it. `total` is the number of categories in
 * src/mockData/categoriesData.js (ten).
 */
module CategoriesBar {
  import opened Text

  /** The number of entries in the category table. */
  const CategoryCount := 10

  /** `updateVisibleCount`: the cards shown for a window width. */
  function VisibleCountFor(width: int): (r: int)
    ensures 1 <= r <= 6
    ensures r == 6 <==> width >= 1536
    ensures r == 1 <==> width < 480
    ensures r <= 2 <==> width < 768
  {
    if width >= 1536 then 6
    else if width >= 1280 then 5
    else if width >= 1024 then 4
    else if width >= 768 then 3
    else if width >= 480 then 2
    else 1
  }

  /** A wider window never shows fewer cards. */
  lemma VisibleCountMonotone(w1: int, w2: int)
    requires w1 <= w2
    ensures VisibleCountFor(w1) <= VisibleCountFor(w2)
  {
  }

  /** `maxIndex`: the furthest first card. */
  function MaxIndex(total: nat, visible: int): (r: nat)
    ensures r >= total - visible
    ensures r == 0 || r == total - visible
  {
    Max(0, total - visible)
  }

  /** `showNavigation`. */
  predicate ShowNavigation(total: nat, visible: int) {
    total > visible
  }

  /** `totalDots`. */
  function TotalDots(total: nat, visible: int): nat {
    Max(1, MaxIndex(total, visible) + 1)
  }

  /** The scrollable layout, used for narrow windows, has no arrows or dots. */
  predicate ScrollLayout(visible: int) {
    visible <= 2
  }

  /** The scrollable layout is the one for windows narrower than 768 pixels. */
  lemma ScrollLayoutBelow768(width: int)
    ensures ScrollLayout(VisibleCountFor(width)) <==> width < 768
  {
  }

  /**
   * There is one dot per scroll position, and the arrows and dots appear
   * exactly when there is somewhere to scroll to.
   */
  lemma DotsCountPositions(total: nat, visible: int)
    ensures TotalDots(total, visible) == MaxIndex(total, visible) + 1
    ensures ShowNavigation(total, visible) <==> MaxIndex(total, visible) > 0
    ensures ShowNavigation(total, visible) <==> TotalDots(total, visible) > 1
  {
  }

  /** A first card within `[0, maxIndex]` never leaves blank space after the last card. */
  lemma WindowFits(total: nat, visible: int, index: int)
    requires 1 <= visible <= total && 0 <= index <= MaxIndex(total, visible)
    ensures index + visible <= total
  {
  }

  class Bar {
    const total: nat
    var index: int
    var visibleCount: int

    /** The first render shows four cards from the first; the mount effect then measures the window. */
    constructor (total: nat, width: int)
      ensures this.total == total && index == 0 && visibleCount == VisibleCountFor(width)
    {
      this.total := total;
      index := 0;
      visibleCount := 4;
      new;
      UpdateVisibleCount(width);
    }

    /** A (throttled) resize: the count follows the width and the index is left as it is. */
    method UpdateVisibleCount(width: int)
      modifies this
      ensures visibleCount == VisibleCountFor(width) && index == old(index)
    {
      var newCount := VisibleCountFor(width);
      if visibleCount != newCount {
        visibleCount := newCount;
      }
    }

    /** The next arrow, rendered only in the slider layout while the index is below `maxIndex`. */
    method NextSlide()
      modifies this
      ensures index == Min(old(index) + 1, MaxIndex(total, visibleCount))
      ensures visibleCount == old(visibleCount)
    {
      index := Min(index + 1, MaxIndex(total, visibleCount));
    }

    /** The previous arrow. */
    method PrevSlide()
      modifies this
      ensures index == Max(old(index) - 1, 0)
      ensures visibleCount == old(visibleCount)
    {
      index := Max(index - 1, 0);
    }

    /** A dot click. */
    method GoToSlide(k: int)
      modifies this
      ensures index == Min(k, MaxIndex(total, visibleCount))
      ensures visibleCount == old(visibleCount)
    {
      index := Min(k, MaxIndex(total, visibleCount));
    }
  }

  /** The arrows and dots keep an index inside `[0, maxIndex]` inside it. */
  lemma MovesStayInRange(total: nat, visible: int, index: int, k: nat)
    requires 0 <= index <= MaxIndex(total, visible)
    ensures 0 <= Min(index + 1, MaxIndex(total, visible)) <= MaxIndex(total, visible)
    ensures 0 <= Max(index - 1, 0) <= MaxIndex(total, visible)
    ensures 0 <= Min(k, MaxIndex(total, visible)) <= MaxIndex(total, visible)
  {
  }

  /**
   * A resize does not clamp the index: scrolled to the end at 800 pixels
   * (three cards), the index is 7, while at 1600 pixels the furthest
   * position is 4.
   */
  lemma ResizeLeavesIndexPastEnd()
    ensures MaxIndex(CategoryCount, VisibleCountFor(800)) == 7
    ensures MaxIndex(CategoryCount, VisibleCountFor(1600)) == 4
  {
  }
}
