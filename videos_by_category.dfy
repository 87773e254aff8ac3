/**
 * The home page's videos-by-category section
 * (src/components/Videos/VideosByCategory.jsx): the videos are grouped by
 * category, each category of the table shows its four highest ids, a
 * category with no video falls back to four built-in ones, and a category
 * with more than four videos gets a "view all" button that hands its whole
 * group to the category page.
 */
module VideosByCategory {
  import opened Wrappers
  import opened Text
  import opened Videos
  import opened CategoryTable

  /** How many videos a category row shows. */
  const RowLength := 4

  /**
   * `videosByCategory`: the `reduce` that appends each video to the list of
   * its category. Every category that has a video gets a key, and its list
   * is the videos of that category in their original order.
   */
  method GroupByCategory(videos: seq<Video>) returns (groups: map<int, seq<Video>>)
    ensures forall c :: c in groups <==> exists i :: 0 <= i < |videos| && videos[i].categoryId == c
    ensures forall c :: c in groups ==> groups[c] == Filter(videos, InCategory(c))
  {
    groups := map[];
    for i := 0 to |videos|
      invariant Grouped(groups, videos[..i])
    {
      GroupStep(groups, videos, i);
      groups := groups[videos[i].categoryId := GroupOf(groups, videos[i].categoryId) + [videos[i]]];
    }
    assert videos[..|videos|] == videos;
    GroupedMeans(groups, videos);
  }

  /** The categories of the videos in `s`. */
  function CategoriesOf(s: seq<Video>): set<int> {
    if s == [] then {} else CategoriesOf(s[..|s| - 1]) + {s[|s| - 1].categoryId}
  }

  /** A category is among `CategoriesOf(s)` exactly when some video of `s` has it. */
  lemma {:induction false} CategoriesOfMembers(s: seq<Video>)
    ensures forall c :: c in CategoriesOf(s) <==> exists i :: 0 <= i < |s| && s[i].categoryId == c
  {
    if s != [] {
      var init := s[..|s| - 1];
      CategoriesOfMembers(init);
      forall c | c in CategoriesOf(init)
        ensures exists i :: 0 <= i < |s| && s[i].categoryId == c
      {
        var i :| 0 <= i < |init| && init[i].categoryId == c;
        assert s[i] == init[i];
      }
      forall c | exists i :: 0 <= i < |s| && s[i].categoryId == c
        ensures c in CategoriesOf(s)
      {
        var i :| 0 <= i < |s| && s[i].categoryId == c;
        if i < |init| {
          assert init[i] == s[i];
        }
      }
    }
  }

  /** `groups` holds, for each category present in `s`, the videos of `s` in that category. */
  ghost predicate Grouped(groups: map<int, seq<Video>>, s: seq<Video>) {
    && groups.Keys == CategoriesOf(s)
    && (forall c :: c in groups ==> groups[c] == Filter(s, InCategory(c)))
  }

  /** A grouping of `s` has a key for each category present in `s`, holding its videos in order. */
  lemma GroupedMeans(groups: map<int, seq<Video>>, s: seq<Video>)
    requires Grouped(groups, s)
    ensures forall c :: c in groups <==> exists i :: 0 <= i < |s| && s[i].categoryId == c
    ensures forall c :: c in groups ==> groups[c] == Filter(s, InCategory(c))
  {
    CategoriesOfMembers(s);
  }

  /** Appending a video to the group of its category keeps the grouping exact. */
  lemma GroupStep(groups: map<int, seq<Video>>, videos: seq<Video>, i: nat)
    requires i < |videos| && Grouped(groups, videos[..i])
    ensures Grouped(groups[videos[i].categoryId := GroupOf(groups, videos[i].categoryId) + [videos[i]]], videos[..i + 1])
  {
    var s, v := videos[..i], videos[i];
    var key := v.categoryId;
    var next := groups[key := GroupOf(groups, key) + [v]];
    var t := videos[..i + 1];
    assert t == s + [v];
    assert t[..|t| - 1] == s;
    assert CategoriesOf(t) == CategoriesOf(s) + {key};
    FilterStep(s, v);
    if key !in groups {
      CategoriesOfMembers(s);
      NoneInCategory(s, key);
    }
    forall c | c in next
      ensures next[c] == Filter(t, InCategory(c))
    {
      if c != key {
        assert next[c] == groups[c];
      }
    }
  }

  /** One more video joins the list of its own category and no other. */
  lemma FilterStep(s: seq<Video>, v: Video)
    ensures forall c :: Filter(s + [v], InCategory(c)) == Filter(s, InCategory(c)) + (if c == v.categoryId then [v] else [])
  {
    assert (s + [v])[..|s|] == s;
  }

  /** A list with no video of category `c` filters to nothing. */
  lemma NoneInCategory(s: seq<Video>, c: int)
    requires forall j :: 0 <= j < |s| ==> s[j].categoryId != c
    ensures Filter(s, InCategory(c)) == []
  {
  }

  /** What a category row holds: its videos, highest id first, and whether there are more than four. */
  datatype Section = Section(videos: seq<Video>, hasMore: bool)

  /** `videosByCategory[c] || []`. */
  function GroupOf(groups: map<int, seq<Video>>, c: int): seq<Video> {
    if c in groups then groups[c] else []
  }

  /** The videos a row is made from: its group, or else the first four built-in videos of the category. */
  function Chosen(groups: map<int, seq<Video>>, videosData: seq<Video>, c: int): seq<Video> {
    var own := GroupOf(groups, c);
    if |own| > 0 then own else Take(Filter(videosData, InCategory(c)), RowLength)
  }

  /** The row of category `c`: the chosen videos sorted by id, highest first, or nothing when there are none. */
  function CategorySection(groups: map<int, seq<Video>>, videosData: seq<Video>, c: int): (r: Option<Section>)
    ensures r.None? <==> |GroupOf(groups, c)| == 0 && |Filter(videosData, InCategory(c))| == 0
    ensures r.Some? ==> r.value.hasMore == (|r.value.videos| > RowLength)
    ensures r.Some? ==> SortedDesc(r.value.videos, IdKey)
    ensures r.Some? && |GroupOf(groups, c)| > 0 ==> multiset(r.value.videos) == multiset(GroupOf(groups, c))
    ensures r.Some? && |GroupOf(groups, c)| == 0 ==>
      multiset(r.value.videos) == multiset(Take(Filter(videosData, InCategory(c)), RowLength))
  {
    var chosen := Chosen(groups, videosData, c);
    if |chosen| == 0 then None
    else
      SortDescSorted(chosen, IdKey);
      SortDescPermutes(chosen, IdKey);
      var sorted := SortDesc(chosen, IdKey);
      Some(Section(sorted, |sorted| > RowLength))
  }

  /** The videos a row draws: at most four. */
  function Shown(s: Section): (r: seq<Video>)
    ensures |r| == Min(RowLength, |s.videos|)
    ensures forall i :: 0 <= i < |r| ==> r[i] == s.videos[i]
  {
    Take(s.videos, RowLength)
  }

  /**
   * With the groups built from `videos`, a row holds videos of its own
   * category only; with a group, the row is that group rearranged, and
   * without one, the first four built-in videos of the category rearranged.
   */
  lemma SectionMembers(groups: map<int, seq<Video>>, videos: seq<Video>, videosData: seq<Video>, c: int)
    requires forall k :: k in groups ==> groups[k] == Filter(videos, InCategory(k))
    requires CategorySection(groups, videosData, c).Some?
    ensures forall v :: v in CategorySection(groups, videosData, c).value.videos ==>
      v.categoryId == c && (|GroupOf(groups, c)| == 0 ==> v in videosData)
    ensures |GroupOf(groups, c)| > 0 ==>
      multiset(CategorySection(groups, videosData, c).value.videos) == multiset(Filter(videos, InCategory(c)))
    ensures |GroupOf(groups, c)| == 0 ==>
      multiset(CategorySection(groups, videosData, c).value.videos)
        == multiset(Take(Filter(videosData, InCategory(c)), RowLength))
  {
    var chosen := Chosen(groups, videosData, c);
    ChosenMembers(groups, videosData, c);
    SortDescMembers(chosen, IdKey);
    if |GroupOf(groups, c)| > 0 {
      SortDescPermutes(chosen, IdKey);
    }
  }

  /** The chosen videos are of category `c`, and built-in ones when the category has no group. */
  lemma ChosenMembers(groups: map<int, seq<Video>>, videosData: seq<Video>, c: int)
    requires forall k :: k in groups ==> forall i :: 0 <= i < |groups[k]| ==> groups[k][i].categoryId == k
    ensures forall v :: v in Chosen(groups, videosData, c) ==>
      v.categoryId == c && (|GroupOf(groups, c)| == 0 ==> v in videosData)
  {
  }

  /**
   * "View all" is offered exactly when the category has more than four
   * videos, and never for a row built from the built-in fallback.
   */
  lemma SectionHasMore(groups: map<int, seq<Video>>, videosData: seq<Video>, c: int)
    requires CategorySection(groups, videosData, c).Some?
    ensures CategorySection(groups, videosData, c).value.hasMore <==> |GroupOf(groups, c)| > RowLength
  {
    SortDescPermutes(Chosen(groups, videosData, c), IdKey);
  }

  /**
   * `handleCategoryClick(categoryId, categoryTitle)`: the category page's
   * address, and the title and whole group it receives (in the navigation
   * state and in `sessionStorage` under `categoryData`).
   */
  datatype CategoryClick = CategoryClick(path: string, categoryTitle: string, videos: seq<Video>)

  const CategoryDataKey := "categoryData"

  function HandleCategoryClick(groups: map<int, seq<Video>>, c: int, title: string): (r: CategoryClick)
    ensures r.categoryTitle == title && r.path == "/category/" + IntToString(c)
    ensures r.videos == [] <==> c !in groups || groups[c] == []
  {
    CategoryClick("/category/" + IntToString(c), title, GroupOf(groups, c))
  }

  /**
   * "View all" hands over every video of the category, in list order, not
   * just the four on the row, and its address names the category.
   */
  lemma ViewAllHandsWholeGroup(groups: map<int, seq<Video>>, videos: seq<Video>, videosData: seq<Video>, c: int, title: string)
    requires forall k :: k in groups ==> groups[k] == Filter(videos, InCategory(k))
    requires CategorySection(groups, videosData, c).Some? && CategorySection(groups, videosData, c).value.hasMore
    ensures HandleCategoryClick(groups, c, title).videos == Filter(videos, InCategory(c))
    ensures |HandleCategoryClick(groups, c, title).videos| > RowLength
    ensures ToNumber(HandleCategoryClick(groups, c, title).path[10..]) == Some(c)
  {
    SectionHasMore(groups, videosData, c);
    IntToStringToNumber(c);
    assert HandleCategoryClick(groups, c, title).path[10..] == IntToString(c);
  }
}
