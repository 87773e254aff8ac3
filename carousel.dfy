/**
 * The wrap-around index arithmetic shared by the image modal
 * (src/components/Pinterest/ImageModal.jsx) and the hero slider
 * (src/components/HeroImage/HeroSlider.jsx): `(i + 1) % n` forwards and
 * `(i - 1 + n) % n` backwards, with JavaScript's truncating `%`.
 */
module Carousel {
  import opened Text

  /** `(i + 1) % n`. */
  function NextIndex(i: int, n: int): (r: int)
    requires n > 0
    ensures 0 <= i < n ==> 0 <= r < n
    ensures 0 <= i < n - 1 ==> r == i + 1
    ensures i == n - 1 ==> r == 0
  {
    JsRem(i + 1, n)
  }

  /** `(i - 1 + n) % n`. */
  function PrevIndex(i: int, n: int): (r: int)
    requires n > 0
    ensures 0 <= i < n ==> 0 <= r < n
    ensures 0 < i < n ==> r == i - 1
    ensures i == 0 ==> r == n - 1
  {
    JsRem(i - 1 + n, n)
  }

  /** Going back undoes going forward, and going forward undoes going back. */
  lemma PrevUndoesNext(i: int, n: int)
    requires 0 <= i < n
    ensures PrevIndex(NextIndex(i, n), n) == i
    ensures NextIndex(PrevIndex(i, n), n) == i
  {
    if i == n - 1 {
      assert NextIndex(i, n) == 0;
    }
    if i == 0 {
      assert PrevIndex(i, n) == n - 1;
    }
  }

  /** The index after `k` forward steps from `i`. */
  function Advance(i: int, n: int, k: nat): int
    requires n > 0
  {
    if k == 0 then i else NextIndex(Advance(i, n, k - 1), n)
  }

  /** Forward steps that do not reach the end just add. */
  lemma {:induction false} AdvanceAdds(i: int, n: int, k: nat)
    requires 0 <= i && i + k < n
    ensures Advance(i, n, k) == i + k
  {
    if k > 0 {
      AdvanceAdds(i, n, k - 1);
    }
  }

  /** `a + b` steps are `a` steps followed by `b` steps. */
  lemma {:induction false} AdvanceSplit(i: int, n: int, a: nat, b: nat)
    requires n > 0
    ensures Advance(i, n, a + b) == Advance(Advance(i, n, a), n, b)
  {
    if b > 0 {
      AdvanceSplit(i, n, a, b - 1);
    }
  }

  /** `n` forward steps bring every index in range back to itself. */
  lemma FullCycle(i: int, n: int)
    requires 0 <= i < n
    ensures Advance(i, n, n) == i
  {
    AdvanceAdds(i, n, n - 1 - i);
    AdvanceSplit(i, n, n - 1 - i, 1);
    AdvanceSplit(i, n, n - i, i);
    AdvanceAdds(0, n, i);
  }

  /** Fewer than `n` forward steps never come back to the start. */
  lemma NoShorterCycle(i: int, n: int, k: nat)
    requires 0 <= i < n && 0 < k < n
    ensures Advance(i, n, k) != i
  {
    if i + k < n {
      AdvanceAdds(i, n, k);
    } else {
      AdvanceAdds(i, n, n - 1 - i);
      AdvanceSplit(i, n, n - 1 - i, 1);
      AdvanceSplit(i, n, n - i, k - (n - i));
      AdvanceAdds(0, n, k - (n - i));
    }
  }
}
