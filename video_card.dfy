/**
 * One video card (src/components/Videos/VideoCard.jsx): it renders only with
 * an id and an address, shows a translated or plain title, a thumbnail taken
 * from the embed id, and swaps in the player on hover (not on a phone) or
 * on the play button. The component is memoised with a comparison that
 * looks at every prop but the phone flag.
 */
module VideoCard {
  import opened Wrappers
  import opened Text
  import opened Videos

  /** The props of a card. */
  datatype CardProps = CardProps(
    id: Option<int>,
    url: Option<string>,
    titleKey: Option<string>,
    categoryTitleKey: Option<string>,
    title: Option<string>,
    categoryTitle: Option<string>,
    thumbnail: Option<string>,
    isMobile: bool)

  /** A number prop is truthy when present and not 0. */
  predicate IdTruthy(id: Option<int>) {
    id.Some? && id.value != 0
  }

  /** `!id || !url` renders nothing. */
  predicate Renders(p: CardProps) {
    IdTruthy(p.id) && Truthy(p.url)
  }

  const Untitled := "Untitled Video"

  /** `displayTitle`: the translated key, else the title, else "Untitled Video"; never empty without a key. */
  function DisplayTitle(p: CardProps, tr: string -> string): (r: string)
    ensures Truthy(p.titleKey) ==> r == tr(p.titleKey.value)
    ensures !Truthy(p.titleKey) ==> r != "" && (Truthy(p.title) ==> r == p.title.value)
    ensures !Truthy(p.titleKey) && !Truthy(p.title) ==> r == "Untitled Video"
  {
    if Truthy(p.titleKey) then tr(p.titleKey.value) else OrElse(p.title, Untitled)
  }

  /** `displayCategoryTitle`: the translated key, else the category title, else nothing. */
  function DisplayCategoryTitle(p: CardProps, tr: string -> string): (r: string)
    ensures Truthy(p.categoryTitleKey) ==> r == tr(p.categoryTitleKey.value)
    ensures !Truthy(p.categoryTitleKey) && Truthy(p.categoryTitle) ==> r == p.categoryTitle.value
    ensures !Truthy(p.categoryTitleKey) ==> (r == "" <==> !Truthy(p.categoryTitle))
  {
    if Truthy(p.categoryTitleKey) then tr(p.categoryTitleKey.value) else OrElse(p.categoryTitle, "")
  }

  /** `getVideoId(url)`: the embed id of a non-empty address. */
  function GetVideoId(url: Option<string>): (r: Option<string>)
    ensures r.Some? ==> Truthy(url) && r == EmbedId(url.value)
    ensures Truthy(url) ==> r == EmbedId(url.value)
  {
    if Truthy(url) then EmbedId(url.value) else None
  }

  const ThumbnailBase := "https://img.youtube.com/vi/"
  const ThumbnailFile := "/mqdefault.jpg"

  /** `thumbnailUrl`: the given thumbnail, else YouTube's medium thumbnail of the embed id, else none. */
  function ThumbnailUrl(p: CardProps): (r: Option<string>)
    ensures r.None? <==> !Truthy(p.thumbnail) && GetVideoId(p.url).None?
    ensures Truthy(p.thumbnail) ==> r == p.thumbnail
    ensures !Truthy(p.thumbnail) && r.Some? ==>
      StartsWith(r.value, ThumbnailBase) && |r.value| > |ThumbnailBase| + |ThumbnailFile|
      && '?' !in r.value[|ThumbnailBase|..|r.value| - |ThumbnailFile|]
    ensures !Truthy(p.thumbnail) && r.Some? ==>
      r.value == "https://img.youtube.com/vi/" + GetVideoId(p.url).value + "/mqdefault.jpg"
  {
    if Truthy(p.thumbnail) then p.thumbnail
    else match GetVideoId(p.url)
      case None => None
      case Some(id) =>
        var u := ThumbnailBase + id + ThumbnailFile;
        assert u[|ThumbnailBase|..|u| - |ThumbnailFile|] == id;
        Some(u)
  }

  /** `/video/${id}`: the detail page of the card's video. */
  function DetailPath(id: int): (r: string)
    ensures StartsWith(r, "/video/") && r[7..] == IntToString(id)
  {
    "/video/" + IntToString(id)
  }

  /** The player's address: `?autoplay=1&mute=0` is appended as it is, once the card plays. */
  function IframeSrc(url: string, isPlaying: bool): (r: string)
    ensures StartsWith(r, url)
    ensures !isPlaying ==> r == url
    ensures isPlaying ==> r == url + "?autoplay=1&mute=0"
  {
    url + (if isPlaying then "?" + AutoplayFlags else "")
  }

  const AutoplayFlags := "autoplay=1&mute=0"


  /**
   * Playing appends a second `?` to an address that already has a query, so
   * the autoplay flags become part of the last parameter's value instead of
   * parameters of their own.
   */
  lemma IframeSrcAddsQueryMark(url: string)
    ensures IframeSrc(url, true)[|url|] == '?'
    ensures Contains(url, "?") ==>
      exists i, j :: 0 <= i < j < |IframeSrc(url, true)| && IframeSrc(url, true)[i] == '?' && IframeSrc(url, true)[j] == '?'
  {
    var r := IframeSrc(url, true);
    assert r == url + "?" + AutoplayFlags;
    assert r[|url|] == '?';
    assert "?" == ['?'];
    ContainsChar(url, '?');
    if '?' in url {
      var i :| 0 <= i < |url| && url[i] == '?';
      assert r[i] == '?';
    }
  }

  /** The player's state: `showIframe` and `isPlaying`; a playing card always shows the player. */
  class CardState {
    const isMobile: bool
    var showIframe: bool
    var isPlaying: bool

    predicate Valid()
      reads this
    {
      isPlaying ==> showIframe
    }

    constructor (isMobile: bool)
      ensures Valid() && this.isMobile == isMobile && !showIframe && !isPlaying
    {
      this.isMobile := isMobile;
      showIframe := false;
      isPlaying := false;
    }

    /** `handleMouseEnter`: hovering loads the player, except on a phone. */
    method MouseEnter()
      requires Valid()
      modifies this
      ensures Valid()
      ensures showIframe == (old(showIframe) || !isMobile) && isPlaying == old(isPlaying)
    {
      if !isMobile {
        showIframe := true;
      }
    }

    /** `handlePlayClick`: loads the player and starts it. */
    method PlayClick()
      requires Valid()
      modifies this
      ensures Valid() && showIframe && isPlaying
    {
      showIframe := true;
      isPlaying := true;
    }

    /** The desktop overlay that opens the detail page while the thumbnail shows. */
    function DetailOverlay(): bool
      reads this
    {
      !showIframe && !isMobile
    }
  }

  /** The memo comparison: equal ids, addresses, titles, keys and thumbnails; the phone flag is not compared. */
  predicate PropsEqual(a: CardProps, b: CardProps) {
    a.id == b.id && a.url == b.url && a.title == b.title && a.titleKey == b.titleKey
    && a.categoryTitle == b.categoryTitle && a.categoryTitleKey == b.categoryTitleKey
    && a.thumbnail == b.thumbnail
  }

  /** Skipping a render for props the comparison calls equal loses nothing that depends on them. */
  lemma PropsEqualSameCard(a: CardProps, b: CardProps, tr: string -> string)
    requires PropsEqual(a, b)
    ensures Renders(a) == Renders(b)
    ensures DisplayTitle(a, tr) == DisplayTitle(b, tr)
    ensures DisplayCategoryTitle(a, tr) == DisplayCategoryTitle(b, tr)
    ensures ThumbnailUrl(a) == ThumbnailUrl(b)
  {
  }

  /**
   * The comparison ignores the phone flag: props that differ only in it
   * compare equal, so a card keeps the flag it was first rendered with,
   * although the flag decides the hover behaviour and the overlay.
   */
  lemma MemoIgnoresPhoneFlag(p: CardProps)
    ensures PropsEqual(p, p.(isMobile := !p.isMobile))
    ensures p != p.(isMobile := !p.isMobile)
  {
  }
}
