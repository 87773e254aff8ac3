/**
 * The category page (src/components/CategoryPage/CategoryPageNew.jsx): the
 * videos of one category, newest id first, eight per page on a phone and
 * twelve otherwise, a videos/pictures tab taken from the route, and the
 * category's colours and Pinterest board.
 */
module CategoryPageNew {
  import opened Wrappers
  import opened Text
  import opened Videos
  import opened Pagination
  import opened CategoryTable

  /** The width below which the page counts as a phone. */
  const MobileWidth := 768

  const DefaultTab := "videos"

  /** `categoryData`: the table entry whose id is `Number(idParam)`; `NaN` finds none. */
  function FindCategory(categoryId: Option<int>): (r: Option<Category>)
    ensures r.Some? <==> categoryId.Some? && 1 <= categoryId.value <= 10
    ensures r.Some? ==> r.value.id == categoryId.value && r.value in Categories
  {
    match categoryId
    case None => None
    case Some(c) =>
      CategoryIds();
      assert 1 <= c <= 10 ==> Categories[c - 1].id == c;
      FindByKey(Categories, (x: Category) => x.id, c)
  }

  /**
   * `resolvedVideos`: the hook's list unless it is empty, otherwise the
   * built-in videos of the category; `NaN` matches no built-in video.
   */
  function ResolvedVideos(apiVideos: seq<Video>, videosData: seq<Video>, categoryId: Option<int>): (r: seq<Video>)
    ensures |apiVideos| > 0 ==> r == apiVideos
    ensures |apiVideos| == 0 && categoryId.None? ==> r == []
    ensures |apiVideos| == 0 && categoryId.Some? ==>
      (forall i :: 0 <= i < |r| ==> r[i].categoryId == categoryId.value && r[i] in videosData)
      && (forall i :: 0 <= i < |videosData| && videosData[i].categoryId == categoryId.value ==> videosData[i] in r)
  {
    Preferred(apiVideos, match categoryId case None => [] case Some(c) => Filter(videosData, InCategory(c)))
  }

  /** `videosPerPage`. */
  function PageSize(isMobile: bool): nat {
    if isMobile then 8 else 12
  }

  /** `currentVideos`: page `page` of the videos sorted by id, highest first, a missing id counting as 0. */
  function CurrentVideos(resolved: seq<Video>, isMobile: bool, page: int): (r: seq<Video>)
    ensures page >= 1 ==> |r| <= PageSize(isMobile)
  {
    Page(SortDesc(resolved, IdKey), PageSize(isMobile), page)
  }

  /** Every page lists its videos highest id first. */
  lemma PageSorted(resolved: seq<Video>, isMobile: bool, page: int)
    requires page >= 1
    ensures SortedDesc(CurrentVideos(resolved, isMobile, page), IdKey)
  {
    SortDescSorted(resolved, IdKey);
  }

  /**
   * The pages partition the videos: pages 1 to `totalPages` laid end to end
   * hold every resolved video exactly as often as the list does, highest id
   * first, and no page after the last has any video.
   */
  lemma PagesPartition(resolved: seq<Video>, isMobile: bool)
    ensures var all := PagesThrough(SortDesc(resolved, IdKey), PageSize(isMobile), TotalPages(|resolved|, PageSize(isMobile)));
      multiset(all) == multiset(resolved) && SortedDesc(all, IdKey)
    ensures forall p :: p > TotalPages(|resolved|, PageSize(isMobile)) ==> CurrentVideos(resolved, isMobile, p) == []
  {
    var sorted := SortDesc(resolved, IdKey);
    SortDescPermutes(resolved, IdKey);
    SortDescSorted(resolved, IdKey);
    PagesCover(sorted, PageSize(isMobile));
  }

  /**
   * The page size changes with the width but the page number does not: on
   * the third of three phone pages of any twenty videos, widening the window
   * leaves the page empty.
   */
  lemma ResizeCanEmptyPage(s: seq<Video>)
    requires |s| == 20
    ensures TotalPages(|s|, PageSize(true)) == 3 && |CurrentVideos(s, true, 3)| == 4
    ensures TotalPages(|s|, PageSize(false)) == 2 && CurrentVideos(s, false, 3) == []
  {
    SortDescPermutes(s, IdKey);
    assert PageStart(3, 8) == 16 && PageStart(3, 12) == 24;
    assert CeilDiv(20, 8) == 3 && CeilDiv(20, 12) == 2;
  }

  /** The colours of a category card. */
  datatype Palette = Palette(bg: string, circle: string, accent: string)

  const DefaultPalette := Palette("#B3E5FF", "#59ACBE", "#59ACBE")

  /** `getCardColors(categoryId)`: the table's palette, or the default for any other id. */
  function CardColors(categoryId: Option<int>): (r: Palette)
    ensures r.accent == r.circle
    ensures r == DefaultPalette <==> !(categoryId.Some? && 1 <= categoryId.value <= 10)
  {
    match categoryId
    case None => DefaultPalette
    case Some(c) =>
      if c == 1 || c == 5 then Palette("#FFF4B3", "#FFD93D", "#FFD93D")
      else if c == 2 || c == 6 || c == 8 then Palette("#B3E5FF", "#63C8FF", "#63C8FF")
      else if c == 3 || c == 7 then Palette("#B3FFB3", "#55e655ff", "#55e655ff")
      else if c == 4 then Palette("#FFB3E6", "#e14e98ff", "#e14e98ff")
      else if c == 9 then Palette("#FFB3E6", "#F0308F", "#F0308F")
      else if c == 10 then Palette("#D9B3FF", "#8B5CF6", "#8B5CF6")
      else DefaultPalette
  }

  /** The account whose boards the page embeds. */
  const BoardBase := "https://www.pinterest.com/ArtCraftAcademy1/"

  /** The board name of each category. */
  function BoardSlug(categoryId: int): (r: Option<string>)
    ensures r.Some? <==> 1 <= categoryId <= 10
  {
    if categoryId == 1 then Some("origami-paper-crafts")
    else if categoryId == 2 then Some("drawing")
    else if categoryId == 3 then Some("recycling-art")
    else if categoryId == 4 then Some("beads-accessories")
    else if categoryId == 5 then Some("clay-creations")
    else if categoryId == 6 then Some("preschool-crafts")
    else if categoryId == 7 then Some("perler-beads")
    else if categoryId == 8 then Some("3d-pen-fun")
    else if categoryId == 9 then Some("miniature-wonders")
    else if categoryId == 10 then Some("science-diy-experiments")
    else None
  }

  /** `getPinterestBoardUrl(cid)`: `undefined` outside 1 to 10. */
  function BoardUrl(categoryId: int): (r: Option<string>)
    ensures r.Some? <==> 1 <= categoryId <= 10
    ensures r.Some? ==> StartsWith(r.value, BoardBase)
  {
    match BoardSlug(categoryId)
    case None => None
    case Some(slug) => Some(BoardBase + slug + "/")
  }

  /** Different categories embed different boards. */
  lemma BoardsDistinct(a: int, b: int)
    requires BoardUrl(a).Some? && BoardUrl(a) == BoardUrl(b)
    ensures a == b
  {
    var x, y := BoardSlug(a).value, BoardSlug(b).value;
    assert BoardBase + x + "/" == BoardBase + y + "/";
    assert x == y by {
      assert (BoardBase + x + "/")[|BoardBase|..|BoardBase| + |x|] == x;
      assert (BoardBase + y + "/")[|BoardBase|..|BoardBase| + |y|] == y;
    }
  }

  /**
   * Categories 9 and 10 have their boards crossed: the table calls 9 the
   * science category and 10 the miniatures, the board map the other way round.
   */
  lemma NineAndTenBoardsCrossed()
    ensures Categories[8].id == 9 && Categories[8].titleKey == "categories.scienceDiy"
    ensures BoardSlug(9) == Some("miniature-wonders")
    ensures Categories[9].id == 10 && Categories[9].titleKey == "categories.miniatureWonders"
    ensures BoardSlug(10) == Some("science-diy-experiments")
  {
  }

  /** The state of the page. */
  class CategoryView {
    /** The `:id` and `:type` route parameters. */
    var idParam: string
    var routeType: Option<string>
    var currentPage: int
    var isMobile: bool
    var activeTab: string

    /** `Number(idParam)`. */
    function CategoryId(): Option<int>
      reads this
    {
      ToNumber(idParam)
    }

    /** The page once its effects have run: page 1, the route's tab or `videos`, the phone flag from the width. */
    constructor (idParam: string, routeType: Option<string>, width: int)
      ensures this.idParam == idParam && this.routeType == routeType
      ensures currentPage == 1
      ensures isMobile <==> width < MobileWidth
      ensures activeTab == if Truthy(routeType) then routeType.value else DefaultTab
    {
      this.idParam := idParam;
      this.routeType := routeType;
      currentPage := 1;
      isMobile := width < MobileWidth;
      activeTab := if Truthy(routeType) then routeType.value else DefaultTab;
    }

    /**
     * A new route: a non-empty `type` becomes the tab, an empty one leaves
     * the tab as it was, and a new category or tab starts again at page 1.
     */
    method RouteChanged(newId: string, newType: Option<string>)
      modifies this
      ensures idParam == newId && routeType == newType && isMobile == old(isMobile)
      ensures activeTab == if Truthy(newType) then newType.value else old(activeTab)
      ensures currentPage == if newId != old(idParam) || activeTab != old(activeTab) then 1 else old(currentPage)
    {
      var tab := activeTab;
      if Truthy(newType) {
        activeTab := newType.value;
      }
      if newId != idParam || activeTab != tab {
        currentPage := 1;
      }
      idParam := newId;
      routeType := newType;
    }

    /**
     * `handleTabChange(tab)`: the tab switches (a different tab starts at
     * page 1) and the address to navigate to is `/category/<id>/<tab>`. The
     * tabs exist only on a page whose category was found.
     */
    method TabChange(tab: string) returns (path: string)
      requires FindCategory(CategoryId()).Some?
      modifies this
      ensures activeTab == tab && idParam == old(idParam) && routeType == old(routeType) && isMobile == old(isMobile)
      ensures currentPage == if tab != old(activeTab) then 1 else old(currentPage)
      ensures path == "/category/" + IntToString(old(CategoryId()).value) + "/" + tab
    {
      var id := CategoryId().value;
      path := "/category/" + IntToString(id) + "/" + tab;
      if tab != activeTab {
        currentPage := 1;
      }
      activeTab := tab;
    }

    /** The resize listener: only the phone flag changes, the page number stays. */
    method Resize(width: int)
      modifies this
      ensures isMobile <==> width < MobileWidth
      ensures currentPage == old(currentPage) && activeTab == old(activeTab) && idParam == old(idParam)
      ensures routeType == old(routeType)
    {
      isMobile := width < MobileWidth;
    }

    /** `handlePageChange(page)`. */
    method PageChange(page: int)
      modifies this
      ensures currentPage == page && activeTab == old(activeTab) && isMobile == old(isMobile)
      ensures idParam == old(idParam) && routeType == old(routeType)
    {
      currentPage := page;
    }
  }

  /** The address a tab button navigates to leads back to the same category. */
  lemma TabPathNamesCategory(c: int, tab: string)
    ensures ToNumber(IntToString(c)) == Some(c)
    ensures FindCategory(ToNumber(IntToString(c))) == FindCategory(Some(c))
  {
    IntToStringToNumber(c);
  }
}
