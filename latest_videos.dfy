/**
 * The home page's latest-videos slider (src/components/Videos/LatestVideos.jsx):
 * the API list or the built-in one, sorted newest first (or by views when
 * no video is dated), of which the first six are shown.
 */
module LatestVideos {
  import opened Wrappers
  import opened Text
  import opened Videos

  /** How many videos the slider shows. */
  const TopCount := 6

  /** `maxVideos`: how many videos the slider asks the API for, more than it shows. */
  function MaxVideos(isMobile: bool): (r: nat)
    ensures TopCount < r
  {
    if isMobile then 20 else 50
  }

  /** The publication time, as the number of milliseconds `new Date(publishedAt)` stands for. */
  function DateKey(v: Video): int {
    v.publishedAt.GetOr(0)
  }

  /** `views ?? 0`. */
  function ViewsKey(v: Video): int {
    v.views.GetOr(0)
  }

  predicate Dated(v: Video) {
    v.publishedAt.Some?
  }

  predicate AllDated(s: seq<Video>) {
    forall i :: 0 <= i < |s| ==> Dated(s[i])
  }

  predicate NoneDated(s: seq<Video>) {
    forall i :: 0 <= i < |s| ==> !Dated(s[i])
  }

  /**
   * `topVideos`. The comparator orders two dated videos by date and any
   * other pair by views, so it is a consistent order only when every video
   * is dated or none is; a list mixing both has an order the engine's sort
   * decides, which is `None` here.
   */
  function TopVideos(videos: seq<Video>): (r: Option<seq<Video>>)
    ensures r.Some? <==> AllDated(videos) || NoneDated(videos)
    ensures r.Some? ==> |r.value| == Min(TopCount, |videos|)
  {
    if |videos| == 0 then Some([])
    else if AllDated(videos) then
      SortDescPermutes(videos, DateKey);
      Some(Take(SortDesc(videos, DateKey), TopCount))
    else if NoneDated(videos) then
      SortDescPermutes(videos, ViewsKey);
      Some(Take(SortDesc(videos, ViewsKey), TopCount))
    else None
  }

  /** The key `topVideos` orders a homogeneous list by. */
  function OrderKey(videos: seq<Video>): Video -> int {
    if AllDated(videos) then DateKey else ViewsKey
  }

  /** The first `n` of a sorted list: as many as there are, up to `n`, in order, drawn from the input. */
  lemma TopOfSorted<T>(s: seq<T>, key: T -> int, n: nat)
    ensures var r := Take(SortDesc(s, key), n);
      && |r| == Min(n, |s|)
      && SortedDesc(r, key)
      && (forall i :: 0 <= i < |r| ==> r[i] in s)
      && multiset(r) <= multiset(s)
  {
    var sorted := SortDesc(s, key);
    SortDescPermutes(s, key);
    SortDescSorted(s, key);
    SortDescMembers(s, key);
    PrefixMultiset(sorted, Min(n, |s|));
  }

  /** A prefix holds no element more often than the whole sequence. */
  lemma PrefixMultiset<T>(s: seq<T>, k: nat)
    requires k <= |s|
    ensures multiset(s[..k]) <= multiset(s)
  {
    assert s == s[..k] + s[k..];
    assert multiset(s) == multiset(s[..k]) + multiset(s[k..]);
  }

  /** None of the elements a prefix of a sorted list leaves out ranks above its last element. */
  lemma RestRanksBelow<T>(sorted: seq<T>, s: seq<T>, key: T -> int, r: seq<T>)
    requires SortedDesc(sorted, key) && multiset(sorted) == multiset(s)
    requires |r| > 0 && r <= sorted
    ensures forall v :: v in multiset(s) - multiset(r) ==> key(v) <= key(r[|r| - 1])
  {
    var rest := sorted[|r|..];
    assert sorted == r + rest;
    assert multiset(sorted) == multiset(r) + multiset(rest);
    forall v | v in multiset(s) - multiset(r)
      ensures key(v) <= key(r[|r| - 1])
    {
      assert v in multiset(rest);
      var j :| 0 <= j < |rest| && rest[j] == v;
      assert sorted[|r| + j] == v;
    }
  }

  /** The slider's list is the first six of the list sorted by its key. */
  lemma TopVideosPrefix(videos: seq<Video>)
    requires AllDated(videos) || NoneDated(videos)
    ensures TopVideos(videos).value == Take(SortDesc(videos, OrderKey(videos)), TopCount)
  {
    if |videos| == 0 {
      assert SortDesc(videos, OrderKey(videos)) == [];
    }
  }

  /**
   * The slider shows the newest six videos when all are dated and the six
   * most viewed when none is: a prefix of the sorted list, drawn from the
   * input, and no video left out ranks above the last one shown.
   */
  lemma TopVideosAreTop(videos: seq<Video>)
    requires AllDated(videos) || NoneDated(videos)
    ensures var r := TopVideos(videos).value; var key := OrderKey(videos);
      && SortedDesc(r, key)
      && (forall i :: 0 <= i < |r| ==> r[i] in videos)
      && multiset(r) <= multiset(videos)
      && (forall v :: v in multiset(videos) - multiset(r) ==> key(v) <= key(r[|r| - 1]))
  {
    var key := OrderKey(videos);
    var sorted := SortDesc(videos, key);
    var r := Take(sorted, TopCount);
    TopVideosPrefix(videos);
    TopOfSorted(videos, key, TopCount);
    if |videos| > 0 {
      SortDescPermutes(videos, key);
      SortDescSorted(videos, key);
      RestRanksBelow(sorted, videos, key, r);
    }
  }
}
