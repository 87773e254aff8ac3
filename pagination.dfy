/**
 * The page arithmetic of the video listings
 * (src/components/Pages/VideosPage.jsx:35-42,
 * src/components/CategoryPage/CategoryPageNew.jsx:94-101): page `p` of a
 * list is `slice((p - 1) * size, p * size)`, and there are
 * `Math.ceil(length / size)` pages.
 */
module Pagination {
  import opened Text

  /** The index where page `page` starts. */
  function PageStart(page: int, size: nat): int {
    (page - 1) * size
  }

  /** `s.slice((page - 1) * size, (page - 1) * size + size)`. */
  function Page<T>(s: seq<T>, size: nat, page: int): (r: seq<T>)
    ensures page >= 1 ==> |r| <= size
    ensures page >= 1 ==> r == s[Min(PageStart(page, size), |s|)..Min(PageStart(page, size) + size, |s|)]
  {
    JsSlice(s, PageStart(page, size), PageStart(page, size) + size)
  }

  /** `Math.ceil(length / size)`. */
  function TotalPages(length: nat, size: nat): nat
    requires size > 0
  {
    CeilDiv(length, size)
  }

  /** Pages `1..n` laid end to end. */
  function PagesThrough<T>(s: seq<T>, size: nat, n: nat): seq<T> {
    if n == 0 then [] else PagesThrough(s, size, n - 1) + Page(s, size, n)
  }

  /** Where page `n` ends, counted one page at a time: `n * size`. */
  function PagesEnd(n: nat, size: nat): (r: nat)
    ensures r == n * size
  {
    if n == 0 then 0 else PagesEnd(n - 1, size) + size
  }

  /** Page `n` runs from where page `n - 1` ends, for `size` elements, cut at the end of the list. */
  lemma PageBounds<T>(s: seq<T>, size: nat, n: nat)
    requires n >= 1
    ensures Page(s, size, n) == s[Min(PagesEnd(n - 1, size), |s|)..Min(PagesEnd(n, size), |s|)]
  {
    assert PageStart(n, size) == PagesEnd(n - 1, size);
  }

  /** The first `n` pages are the first `n * size` elements. */
  lemma {:induction false} PagesThroughPrefix<T>(s: seq<T>, size: nat, n: nat)
    ensures PagesThrough(s, size, n) == s[..Min(PagesEnd(n, size), |s|)]
  {
    if n > 0 {
      PagesThroughPrefix(s, size, n - 1);
      PageBounds(s, size, n);
      var a, b := Min(PagesEnd(n - 1, size), |s|), Min(PagesEnd(n, size), |s|);
      SliceJoin(s, a, b);
    }
  }

  lemma SliceJoin<T>(s: seq<T>, a: nat, b: nat)
    requires a <= b <= |s|
    ensures s[..a] + s[a..b] == s[..b]
  {
  }

  /**
   * The pages partition the list: pages 1 to `TotalPages` together are the
   * whole list, in order, and every later page is empty.
   */
  lemma PagesCover<T>(s: seq<T>, size: nat)
    requires size > 0
    ensures PagesThrough(s, size, TotalPages(|s|, size)) == s
    ensures forall p :: p > TotalPages(|s|, size) ==> Page(s, size, p) == []
  {
    var n := TotalPages(|s|, size);
    PagesThroughPrefix(s, size, n);
    assert s[..|s|] == s;
    forall p | p > n
      ensures Page(s, size, p) == []
    {
      assert (p - 1) * size >= n * size by {
        assert p - 1 >= n;
        MulMono(n, p - 1, size);
      }
    }
  }

  lemma MulMono(a: nat, b: nat, c: nat)
    requires a <= b
    ensures a * c <= b * c
  {
  }

  /** A page in `1..TotalPages` is not empty. */
  lemma PageInRangeNonEmpty<T>(s: seq<T>, size: nat, p: int)
    requires size > 0 && 1 <= p <= TotalPages(|s|, size)
    ensures PageStart(p, size) < |s|
    ensures |Page(s, size, p)| > 0
  {
    var n := TotalPages(|s|, size);
    var lastStart := (n - 1) * size;
    assert lastStart < |s|;
    MulMono(p - 1, n - 1, size);
    assert PageStart(p, size) <= lastStart;
  }

  /**
   * The "showing a to b of n" line: from `(page - 1) * size + 1` to
   * `min(page * size, total)`; `page * size` is written as the page's start
   * plus `size`, the same number.
   */
  function ResultsRange(page: int, size: nat, total: nat): (int, int) {
    (PageStart(page, size) + 1, Min(PageStart(page, size) + size, total))
  }

  /** On a page that exists, the line counts exactly the videos the page shows. */
  lemma ResultsRangeCounts<T>(s: seq<T>, size: nat, p: int)
    requires size > 0 && 1 <= p <= TotalPages(|s|, size)
    ensures ResultsRange(p, size, |s|).1 - ResultsRange(p, size, |s|).0 + 1 == |Page(s, size, p)|
  {
    PageInRangeNonEmpty(s, size, p);
  }
}
