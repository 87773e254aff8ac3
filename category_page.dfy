/**
 * The older category page (src/components/CategoryPage/CategoryPage.jsx).
 * It receives a title and a video list from the page that linked to it
 * (in the navigation state, with a copy in `sessionStorage` that survives a
 * reload), finds the category by that translated title before it looks at
 * the route's id, and lists the videos highest id first.
 */
module CategoryPage {
  import opened Wrappers
  import opened Text
  import opened Videos
  import opened CategoryTable
  import CategoryPageNew
  import VideosByCategory

  /** What the linking page hands over: `{ categoryTitle, videos }`, each part possibly absent. */
  datatype Handoff = Handoff(categoryTitle: Option<string>, videos: Option<seq<Video>>)

  /** `location.state || {}` when the page was opened without state. */
  const NoHandoff := Handoff(None, None)

  /** `stateTitle || parsedSessionData?.categoryTitle`: a non-empty navigation title wins. */
  function FinalTitle(state: Handoff, session: Option<Handoff>): (r: Option<string>)
    ensures Truthy(state.categoryTitle) ==> r == state.categoryTitle
    ensures !Truthy(state.categoryTitle) && session.Some? ==> r == session.value.categoryTitle
    ensures !Truthy(state.categoryTitle) && session.None? ==> r.None?
    ensures r.Some? ==> r == state.categoryTitle || (session.Some? && r == session.value.categoryTitle)
  {
    if Truthy(state.categoryTitle) then state.categoryTitle
    else if session.Some? then session.value.categoryTitle
    else None
  }

  /**
   * `stateVideos || parsedSessionData?.videos`: an array is truthy even when
   * empty, so navigation videos, once present, always win.
   */
  function FinalVideos(state: Handoff, session: Option<Handoff>): (r: Option<seq<Video>>)
    ensures state.videos.Some? ==> r == state.videos
    ensures state.videos.None? && session.Some? ==> r == session.value.videos
    ensures state.videos.None? && session.None? ==> r.None?
    ensures r.Some? ==> r == state.videos || (session.Some? && r == session.value.videos)
  {
    if state.videos.Some? then state.videos
    else if session.Some? then session.value.videos
    else None
  }

  /** The first entry of `cs` whose translated title is `title`. */
  function FirstTitled(cs: seq<Category>, translate: string -> string, title: string): (r: Option<Category>)
    ensures r.Some? <==> exists i :: 0 <= i < |cs| && translate(cs[i].titleKey) == title
    ensures r.Some? ==> r.value in cs && translate(r.value.titleKey) == title
    ensures r.Some? ==> exists i :: (0 <= i < |cs| && cs[i] == r.value
      && forall j :: 0 <= j < i ==> translate(cs[j].titleKey) != title)
  {
    if cs == [] then None
    else if translate(cs[0].titleKey) == title then
      assert cs[0] == cs[0];
      Some(cs[0])
    else
      var r := FirstTitled(cs[1..], translate, title);
      if r.Some? then
        var i :| 0 <= i < |cs| - 1 && cs[1..][i] == r.value && forall j :: 0 <= j < i ==> translate(cs[1..][j].titleKey) != title;
        assert cs[i + 1] == r.value;
        r
      else r
  }

  /**
   * `resolvedCategory`: with a non-empty final title, the first category whose
   * translated title it is, and the route's id is not consulted; otherwise
   * the category whose id is `Number(idParam)`. `None` renders "not found".
   */
  function ResolvedCategory(finalTitle: Option<string>, idParam: string, translate: string -> string): (r: Option<Category>)
    ensures r.Some? ==> r.value in Categories
    ensures Truthy(finalTitle) ==>
      (r.Some? <==> exists i :: 0 <= i < |Categories| && translate(Categories[i].titleKey) == finalTitle.value)
      && (r.Some? ==> translate(r.value.titleKey) == finalTitle.value)
    ensures !Truthy(finalTitle) ==>
      (r.Some? <==> ToNumber(idParam).Some? && 1 <= ToNumber(idParam).value <= 10)
      && (r.Some? ==> r.value.id == ToNumber(idParam).value)
  {
    if Truthy(finalTitle) then FirstTitled(Categories, translate, finalTitle.value)
    else CategoryPageNew.FindCategory(ToNumber(idParam))
  }

  /**
   * A title that no category translates to (one saved in another language,
   * say) hides the category even when the route's id names one.
   */
  lemma StaleTitleHidesId(title: string, idParam: string, translate: string -> string)
    requires title != ""
    requires forall i :: 0 <= i < |Categories| ==> translate(Categories[i].titleKey) != title
    ensures ResolvedCategory(Some(title), idParam, translate).None?
  {
  }

  /** `resolvedCategory?.id || 1`: the category the videos hook asks for. */
  function ApiCategoryId(resolved: Option<Category>): (r: int)
    requires resolved.Some? ==> resolved.value in Categories
    ensures 1 <= r <= 10
    ensures resolved.Some? ==> r == resolved.value.id
    ensures resolved.None? ==> r == 1
  {
    CategoryIds();
    if resolved.Some? && resolved.value.id != 0 then resolved.value.id else 1
  }

  /**
   * `resolvedVideos`: the handed-over videos when there are any, else the
   * hook's, else the built-in videos of the resolved category.
   */
  function ResolvedVideos(finalVideos: Option<seq<Video>>, apiVideos: seq<Video>, videosData: seq<Video>, resolved: Option<Category>): (r: seq<Video>)
    ensures finalVideos.Some? && |finalVideos.value| > 0 ==> r == finalVideos.value
    ensures (finalVideos.None? || finalVideos.value == []) && apiVideos != [] ==> r == apiVideos
    ensures (finalVideos.None? || finalVideos.value == []) && apiVideos == [] && resolved.Some? ==>
      r == Filter(videosData, InCategory(resolved.value.id))
    ensures (finalVideos.None? || finalVideos.value == []) && apiVideos == [] && resolved.None? ==> r == []
    ensures r == [] <==>
      (finalVideos.None? || finalVideos.value == []) && apiVideos == []
      && (resolved.None? || forall i :: 0 <= i < |videosData| ==> videosData[i].categoryId != resolved.value.id)
    ensures (finalVideos.None? || finalVideos.value == []) && apiVideos == [] ==>
      forall i :: 0 <= i < |r| ==> r[i] in videosData && resolved.Some? && r[i].categoryId == resolved.value.id
  {
    if finalVideos.Some? && |finalVideos.value| > 0 then finalVideos.value
    else if |apiVideos| > 0 then apiVideos
    else if resolved.None? then []
    else
      var r := Filter(videosData, InCategory(resolved.value.id));
      assert (exists i :: 0 <= i < |videosData| && videosData[i].categoryId == resolved.value.id) ==> r != [];
      assert r != [] ==> r[0] in videosData && r[0].categoryId == resolved.value.id;
      r
  }

  /** The grid: the resolved videos on a copy, highest id first, a missing id counting as 0. */
  function Rendered(resolved: seq<Video>): seq<Video> {
    SortDesc(resolved, IdKey)
  }

  /** The grid shows each resolved video exactly as often as the list holds it, highest id first. */
  lemma RenderedPermutesSorted(resolved: seq<Video>)
    ensures multiset(Rendered(resolved)) == multiset(resolved)
    ensures SortedDesc(Rendered(resolved), IdKey)
  {
    SortDescPermutes(resolved, IdKey);
    SortDescSorted(resolved, IdKey);
  }

  /**
   * A page opened by "view all" on the home page, whose translation gives
   * each category its own title, finds that category again by its title and
   * shows that group's videos, whatever the session holds.
   */
  lemma ViewAllHandoffResolves(groups: map<int, seq<Video>>, c: int, translate: string -> string,
                               session: Option<Handoff>, idParam: string, apiVideos: seq<Video>, videosData: seq<Video>)
    requires 1 <= c <= 10
    requires forall i, j :: 0 <= i < j < |Categories| ==> translate(Categories[i].titleKey) != translate(Categories[j].titleKey)
    requires translate(Categories[c - 1].titleKey) != ""
    ensures var click := VideosByCategory.HandleCategoryClick(groups, c, translate(Categories[c - 1].titleKey));
      var state := Handoff(Some(click.categoryTitle), Some(click.videos));
      ResolvedCategory(FinalTitle(state, session), idParam, translate) == Some(Categories[c - 1])
      && (click.videos != [] ==> ResolvedVideos(FinalVideos(state, session), apiVideos, videosData, Some(Categories[c - 1])) == click.videos)
  {
    CategoryIds();
    var title := translate(Categories[c - 1].titleKey);
    var r := FirstTitled(Categories, translate, title);
    assert r.Some?;
    var k :| 0 <= k < |Categories| && Categories[k] == r.value;
    assert k == c - 1;
  }

  /** The colours of a category card on this page. */
  datatype Colors = Colors(bg: string, circle: string)

  const DefaultColors := Colors("#B3E5FF", "#59ACBE")

  /** `getCardColors(categoryData?.id)`: the table's colours, or the default for any other id. */
  function CardColors(categoryId: Option<int>): (r: Colors)
    ensures r == DefaultColors <==> !(categoryId.Some? && 1 <= categoryId.value <= 10)
  {
    match categoryId
    case None => DefaultColors
    case Some(c) =>
      if c == 1 || c == 5 then Colors("#FFF4B3", "#FFD93D")
      else if c == 2 || c == 6 || c == 8 then Colors("#B3E5FF", "#63C8FF")
      else if c == 3 || c == 7 then Colors("#B3FFB3", "#55e655ff")
      else if c == 4 then Colors("#FFB3E6", "#e14e98ff")
      else if c == 9 then Colors("#FFB3E6", "#F0308F")
      else if c == 10 then Colors("#D9B3FF", "#8B5CF6")
      else DefaultColors
  }

  /** Both category pages colour every category, and the default, alike. */
  lemma ColorsAgreeWithNewPage(categoryId: Option<int>)
    ensures CardColors(categoryId).bg == CategoryPageNew.CardColors(categoryId).bg
    ensures CardColors(categoryId).circle == CategoryPageNew.CardColors(categoryId).circle
  {
  }
}
