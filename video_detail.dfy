/**
 * The video page (src/components/VideoDetail/VideoDetailPage.jsx): the video
 * whose id the route names, up to six related videos of its category, the
 * player with autoplay, a description with a "show more" toggle, and
 * switching to a related video in place.
 *
 * Ids are compared as text (`v.id.toString()`); a video without an id makes
 * that call throw, so every function over the list asks for ids.
 */
module VideoDetail {
  import opened Wrappers
  import opened Text
  import opened Videos
  import VideoCard

  /** Every video has an id. */
  predicate HasIds(videos: seq<Video>) {
    forall i :: 0 <= i < |videos| ==> videos[i].id.Some?
  }

  /** `v.id.toString()`. */
  function IdText(v: Video): string
    requires v.id.Some?
  {
    IntToString(v.id.value)
  }

  /** `videos.find(v => v.id.toString() === videoId)`: the first video whose id reads `videoId`. */
  function FindVideo(videos: seq<Video>, videoId: string): (r: Option<Video>)
    requires HasIds(videos)
    ensures r.None? <==> forall i :: 0 <= i < |videos| ==> IdText(videos[i]) != videoId
    ensures r.Some? ==> exists i :: (0 <= i < |videos| && videos[i] == r.value && IdText(videos[i]) == videoId
      && forall j :: 0 <= j < i ==> IdText(videos[j]) != videoId)
  {
    if videos == [] then None
    else if IdText(videos[0]) == videoId then
      assert videos[0] == videos[0];
      Some(videos[0])
    else
      var r := FindVideo(videos[1..], videoId);
      assert forall i :: 1 <= i < |videos| ==> videos[i] == videos[1..][i - 1];
      r
  }

  /** `v => v.id.toString() !== idText && v.categoryId === categoryId`. */
  function RelatedTo(idText: string, categoryId: int): Video -> bool {
    (v: Video) => v.id.Some? && IdText(v) != idText && v.categoryId == categoryId
  }

  /** How many related videos the page lists. */
  const RelatedCount := 6

  /** The related list: the first six other videos of the category, in list order. */
  function Related(videos: seq<Video>, idText: string, categoryId: int): (r: seq<Video>)
    ensures |r| <= RelatedCount
    ensures forall i :: 0 <= i < |r| ==> r[i] in videos && r[i].categoryId == categoryId
    ensures forall i :: 0 <= i < |r| ==> r[i].id.Some? && IntToString(r[i].id.value) != idText
    ensures r == Filter(videos, RelatedTo(idText, categoryId))[..Min(RelatedCount, |Filter(videos, RelatedTo(idText, categoryId))|)]
  {
    Take(Filter(videos, RelatedTo(idText, categoryId)), RelatedCount)
  }

  /**
   * With ids compared as text, "another video" means another id: the
   * related list of a video holds no video with its id, and misses no other
   * video of its category before the sixth.
   */
  lemma RelatedExcludesExactlyTheVideo(videos: seq<Video>, cur: Video, v: Video)
    requires HasIds(videos) && cur.id.Some? && v in videos
    ensures RelatedTo(IdText(cur), cur.categoryId)(v) <==> v.id != cur.id && v.categoryId == cur.categoryId
  {
    if IdText(v) == IdText(cur) {
      IntToStringInjective(v.id.value, cur.id.value);
    }
  }

  const AutoplayFlag := "autoplay=1"

  /**
   * The player's address: the flag joins an existing query with `&` and
   * starts a query with `?` otherwise, so the address keeps a single query.
   */
  function AutoplaySrc(url: string): (r: string)
    ensures StartsWith(r, url) && |r| == |url| + 1 + |AutoplayFlag|
    ensures r[|url|] == '&' <==> '?' in url
    ensures r[|url|] == '?' <==> '?' !in url
    ensures r[|url| + 1..] == AutoplayFlag
  {
    ContainsChar(url, '?');
    assert "?" == ['?'];
    url + (if Contains(url, "?") then "&" else "?") + AutoplayFlag
  }

  /** `videoTitle`: the translated key, or else the title (a missing title reads as empty). */
  function VideoTitle(v: Video, tr: string -> string): (r: string)
    ensures Truthy(v.titleKey) ==> r == tr(v.titleKey.value)
    ensures !Truthy(v.titleKey) ==> r == v.title.GetOr("")
  {
    if Truthy(v.titleKey) then tr(v.titleKey.value) else v.title.GetOr("")
  }

  /**
   * `description`: the video's own, or else a sentence built around the
   * lower-cased title; never empty.
   */
  function Description(v: Video, tr: string -> string): (r: string)
    ensures r != ""
    ensures Truthy(v.description) ==> r == v.description.value
    ensures !Truthy(v.description) ==> Contains(r, Lower(VideoTitle(v, tr)))
    ensures !Truthy(v.description) ==>
      r == tr("videos.learnHow") + " " + Lower(VideoTitle(v, tr)) + ". " + tr("videos.stepByStep")
  {
    if Truthy(v.description) then v.description.value
    else
      var r := tr("videos.learnHow") + " " + Lower(VideoTitle(v, tr)) + ". " + tr("videos.stepByStep");
      ContainsInfix(tr("videos.learnHow") + " ", Lower(VideoTitle(v, tr)), ". " + tr("videos.stepByStep"));
      assert tr("videos.learnHow") + " " + Lower(VideoTitle(v, tr)) + ". " + tr("videos.stepByStep")
        == (tr("videos.learnHow") + " ") + Lower(VideoTitle(v, tr)) + (". " + tr("videos.stepByStep"));
      r
  }

  /** The "show more" toggle appears for descriptions over 200 characters. */
  predicate ShowMoreToggle(description: string) {
    |description| > 200
  }

  /** The state of the page. */
  class DetailPage {
    var currentVideo: Option<Video>
    var allVideos: seq<Video>
    var relatedVideos: seq<Video>
    var showFullDescription: bool
    /** The player's key: a new key reloads the player. */
    var videoKey: int
    var isVideoLoading: bool
    /** The address bar's hash. */
    var location: string

    predicate Valid()
      reads this
    {
      HasIds(allVideos) && |relatedVideos| <= RelatedCount
    }

    constructor (location: string)
      ensures Valid() && currentVideo.None? && allVideos == [] && relatedVideos == []
      ensures !showFullDescription && videoKey == 0 && !isVideoLoading && this.location == location
    {
      currentVideo := None;
      allVideos := [];
      relatedVideos := [];
      showFullDescription := false;
      videoKey := 0;
      isVideoLoading := false;
      this.location := location;
    }

    /**
     * The effect on `[videoId, dynamicVideos]`: the list becomes the API list
     * or the built-in one; a video found there becomes current with its
     * related videos, and when none is found the previous video and list stay.
     */
    method Load(videoId: string, dynamicVideos: seq<Video>, videosData: seq<Video>)
      requires HasIds(dynamicVideos) && HasIds(videosData) && Valid()
      modifies this
      ensures Valid()
      ensures allVideos == Preferred(dynamicVideos, videosData)
      ensures FindVideo(allVideos, videoId).Some? ==>
        currentVideo == FindVideo(allVideos, videoId)
        && relatedVideos == Related(allVideos, videoId, currentVideo.value.categoryId)
      ensures FindVideo(allVideos, videoId).None? ==>
        currentVideo == old(currentVideo) && relatedVideos == old(relatedVideos)
      ensures showFullDescription == old(showFullDescription) && videoKey == old(videoKey)
      ensures isVideoLoading == old(isVideoLoading) && location == old(location)
    {
      var videos := Preferred(dynamicVideos, videosData);
      assert HasIds(videos);
      var found := FindVideo(videos, videoId);
      if found.Some? {
        var related := Related(videos, videoId, found.value.categoryId);
        assert |related| <= RelatedCount;
        allVideos, currentVideo, relatedVideos := videos, found, related;
      } else {
        allVideos := videos;
      }
    }

    /**
     * `switchToVideo(newVideo)`: the new video becomes current without a
     * route change, the description folds, the player reloads, the hash
     * names the new id and the related list is recomputed from the list.
     */
    method SwitchToVideo(newVideo: Video)
      requires Valid() && newVideo.id.Some?
      modifies this
      ensures Valid()
      ensures currentVideo == Some(newVideo) && isVideoLoading && !showFullDescription
      ensures videoKey == old(videoKey) + 1
      ensures location == "#/video/" + IdText(newVideo)
      ensures relatedVideos == Related(allVideos, IdText(newVideo), newVideo.categoryId)
      ensures allVideos == old(allVideos)
    {
      isVideoLoading := true;
      currentVideo := Some(newVideo);
      showFullDescription := false;
      videoKey := videoKey + 1;
      location := "#/video/" + IdText(newVideo);
      relatedVideos := Related(allVideos, IdText(newVideo), newVideo.categoryId);
    }

    /** The timer that ends the loading overlay. */
    method LoadingTimerFired()
      modifies this
      ensures !isVideoLoading
      ensures currentVideo == old(currentVideo) && relatedVideos == old(relatedVideos) && allVideos == old(allVideos)
      ensures videoKey == old(videoKey) && showFullDescription == old(showFullDescription) && location == old(location)
    {
      isVideoLoading := false;
    }

    /** The "show more" / "show less" button. */
    method ToggleDescription()
      modifies this
      ensures showFullDescription == !old(showFullDescription)
      ensures currentVideo == old(currentVideo) && relatedVideos == old(relatedVideos) && allVideos == old(allVideos)
      ensures videoKey == old(videoKey) && isVideoLoading == old(isVideoLoading) && location == old(location)
    {
      showFullDescription := !showFullDescription;
    }
  }

  /**
   * Switching to a video in place gives the same related list as opening
   * its page: the first six other videos of its category.
   */
  lemma SwitchAgreesWithLoad(videos: seq<Video>, v: Video)
    requires HasIds(videos) && v in videos
    ensures FindVideo(videos, IdText(v)).Some?
    ensures FindVideo(videos, IdText(v)).value.id == v.id
    ensures FindVideo(videos, IdText(v)).value.categoryId == v.categoryId ==>
      Related(videos, IdText(v), FindVideo(videos, IdText(v)).value.categoryId) == Related(videos, IdText(v), v.categoryId)
  {
    var w := FindVideo(videos, IdText(v)).value;
    IntToStringInjective(w.id.value, v.id.value);
  }

  /** The page's "watch on YouTube" button opens the watch page of the embed id, if there is one. */
  function YouTubeButton(v: Video): (r: Option<string>)
    ensures v.url.None? ==> r.None?
    ensures v.url.Some? ==> r == WatchUrl(v.url.value)
  {
    match v.url
    case None => None
    case Some(u) => WatchUrl(u)
  }

  /** A card's link opens the page of a video with the card's id. */
  lemma CardLinkFindsVideo(videos: seq<Video>, v: Video)
    requires HasIds(videos) && v in videos
    ensures FindVideo(videos, VideoCard.DetailPath(v.id.value)[7..]).Some?
    ensures FindVideo(videos, VideoCard.DetailPath(v.id.value)[7..]).value.id == v.id
  {
    SwitchAgreesWithLoad(videos, v);
  }
}
