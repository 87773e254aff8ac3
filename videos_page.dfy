/**
 * The all-videos page (src/components/Pages/VideosPage.jsx): the API list or
 * the built-in list, a category filter chosen by buttons, twelve videos per
 * page, a load-more button for small screens and a page-button strip that
 * shows the first page, the last page and the pages near the current one.
 */
module VideosPage {
  import opened Wrappers
  import opened Text
  import opened Videos
  import opened Pagination

  const VideosPerPage := 12

  /** The filter value of the "all" button. */
  const AllCategories := "all"

  /**
   * `filteredVideos`: every video for "all", otherwise the videos whose
   * category is `parseInt(selected)`; a value with no leading number
   * (`NaN`) matches no video.
   */
  function FilteredVideos(videos: seq<Video>, selected: string): (r: seq<Video>)
    ensures selected == AllCategories ==> r == videos
    ensures forall i :: 0 <= i < |r| ==> r[i] in videos
  {
    if selected == AllCategories then videos
    else match ParseInt(selected)
      case None => []
      case Some(c) => Filter(videos, InCategory(c))
  }

  /** A category button passes `id.toString()`, which selects exactly the videos of that category. */
  lemma CategoryButtonSelects(videos: seq<Video>, c: int)
    ensures FilteredVideos(videos, IntToString(c)) == Filter(videos, InCategory(c))
    ensures forall v :: v in FilteredVideos(videos, IntToString(c)) ==> v.categoryId == c
    ensures forall i :: 0 <= i < |videos| && videos[i].categoryId == c ==> videos[i] in FilteredVideos(videos, IntToString(c))
  {
    IntToStringParseInt(c);
    assert IntToString(c) != AllCategories by {
      var s := IntToString(c);
      assert IsDigit(s[|s| - 1]);
    }
  }

  /** What the pagination strip shows for one page number. */
  datatype PageItem = Button | Ellipsis | Hidden

  /** The strip entry of `page` when `current` is the current page and there are `total` pages. */
  function PageItemAt(page: int, current: int, total: int): PageItem {
    if page == 1 || page == total || (current - 2 <= page <= current + 2) then Button
    else if page == current - 3 || page == current + 3 then Ellipsis
    else Hidden
  }

  /**
   * Every page the strip hides lies beyond an ellipsis: on its side of the
   * current page, the page three away from the current one is an ellipsis.
   */
  lemma HiddenPagesBehindEllipsis(page: int, current: int, total: int)
    requires 1 <= page <= total && 1 <= current <= total
    requires PageItemAt(page, current, total) == Hidden
    ensures page < current ==> page < current - 3 && PageItemAt(current - 3, current, total) == Ellipsis
    ensures page > current ==> page > current + 3 && PageItemAt(current + 3, current, total) == Ellipsis
  {
  }

  /** The first, last and current pages always get a button. */
  lemma AnchorsShown(current: int, total: int)
    requires 1 <= current <= total
    ensures PageItemAt(1, current, total) == Button
    ensures PageItemAt(total, current, total) == Button
    ensures PageItemAt(current, current, total) == Button
  {
  }

  /** The state of the page. */
  class Listing {
    /** `videosToUse`: the API list unless it is empty. */
    const videos: seq<Video>
    var selectedCategory: string
    var currentPage: int

    constructor (apiVideos: seq<Video>, videosData: seq<Video>)
      ensures videos == Preferred(apiVideos, videosData)
      ensures selectedCategory == AllCategories && currentPage == 1
    {
      videos := Preferred(apiVideos, videosData);
      selectedCategory := AllCategories;
      currentPage := 1;
    }

    function Filtered(): seq<Video>
      reads this
    {
      FilteredVideos(videos, selectedCategory)
    }

    /** `totalPages`. */
    function PageCount(): nat
      reads this
    {
      TotalPages(|Filtered()|, VideosPerPage)
    }

    /** `paginatedVideos`: the videos of the current page, at most twelve, in filtered order. */
    function Paginated(): (r: seq<Video>)
      reads this
      ensures currentPage >= 1 ==> |r| <= VideosPerPage
    {
      Page(Filtered(), VideosPerPage, currentPage)
    }

    /** `handleCategoryChange`: a new filter starts again at page 1. */
    method HandleCategoryChange(categoryId: string)
      modifies this
      ensures selectedCategory == categoryId && currentPage == 1
    {
      selectedCategory := categoryId;
      currentPage := 1;
    }

    /** `handlePageChange`. */
    method HandlePageChange(page: int)
      modifies this
      ensures currentPage == page && selectedCategory == old(selectedCategory)
    {
      currentPage := page;
    }

    /** `handleLoadMore`: one page further, unless this is the last page. */
    method HandleLoadMore()
      modifies this
      ensures selectedCategory == old(selectedCategory)
      ensures old(currentPage) < PageCount() ==> currentPage == old(currentPage) + 1
      ensures old(currentPage) >= PageCount() ==> currentPage == old(currentPage)
      ensures 1 <= old(currentPage) <= Max(1, PageCount()) ==> 1 <= currentPage <= Max(1, PageCount())
    {
      if currentPage < PageCount() {
        currentPage := currentPage + 1;
      }
    }
  }

  /**
   * With nothing to show there are no pages, yet the next button, disabled
   * only on `currentPage === totalPages`, stays enabled on page 1.
   */
  lemma NextEnabledWithoutPages(videos: seq<Video>, selected: string)
    requires FilteredVideos(videos, selected) == []
    ensures TotalPages(|FilteredVideos(videos, selected)|, VideosPerPage) == 0
    ensures 1 != TotalPages(|FilteredVideos(videos, selected)|, VideosPerPage)
  {
  }
}
