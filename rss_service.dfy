/**
 * The Pinterest RSS service (src/services/pinterestRSSService.js): the
 * images of a board read from its RSS feed, and a `localStorage` cache of
 * them that expires a day after it is written.
 *
 * The feed is an input: for each board URL, either the list of `<item>`
 * elements (each child as its text, absent when the element is missing) or
 * `Fail`, which stands for a failed request, a non-OK status or XML that does
 * not parse. The two regular expressions the transform uses are written out
 * as matchers.
 */
module PinterestRss {
  import opened Wrappers
  import opened Text
  import opened WebStorage

  /** `PINTEREST_BOARD_URLS`. */
  const RssBoardUrls: map<int, string> := map[
    1 := "https://www.pinterest.com/ArtCraftAcademy1/origami-paper-crafts/",
    2 := "https://www.pinterest.com/ArtCraftAcademy1/drawing/",
    3 := "https://www.pinterest.com/ArtCraftAcademy1/recycling-art/",
    4 := "https://www.pinterest.com/ArtCraftAcademy1/beads-accessories/",
    5 := "https://www.pinterest.com/ArtCraftAcademy1/clay-creations/",
    6 := "https://www.pinterest.com/ArtCraftAcademy1/preschool-crafts/",
    7 := "https://www.pinterest.com/ArtCraftAcademy1/perler-beads/",
    8 := "https://www.pinterest.com/ArtCraftAcademy1/3d-pen-fun/",
    9 := "https://www.pinterest.com/ArtCraftAcademy1/science-diy-experiments/",
    10 := "https://www.pinterest.com/ArtCraftAcademy1/miniature-wonders/"
  ]

  /** An RSS `<item>`: the text of its `title`, `link` and `description` children. */
  datatype RssItem = RssItem(title: Option<string>, link: Option<string>, description: Option<string>)

  /** An image as the service returns it. */
  datatype RssImage = RssImage(
    id: string, title: string, description: string, url: string, link: string, boardUrl: string, source: string)

  /** What fetching and parsing a board's feed gives. */
  type Feeds = string -> Response<seq<RssItem>>

  // ------------------------------------------- /<img[^>]+src="([^">]+)"/

  /** The length of the run of characters other than `"` and `>` from `i`. */
  function AttrRun(s: string, i: nat): (n: nat)
    requires i <= |s|
    ensures i + n <= |s|
    ensures forall k :: i <= k < i + n ==> s[k] != '"' && s[k] != '>'
    ensures i + n < |s| ==> s[i + n] == '"' || s[i + n] == '>'
    decreases |s| - i
  {
    if i < |s| && s[i] != '"' && s[i] != '>' then 1 + AttrRun(s, i + 1) else 0
  }

  /** The length of the run of characters other than `>` from `i`. */
  function TagRun(s: string, i: nat): (n: nat)
    requires i <= |s|
    ensures i + n <= |s|
    ensures forall k :: i <= k < i + n ==> s[k] != '>'
    ensures i + n < |s| ==> s[i + n] == '>'
    decreases |s| - i
  {
    if i < |s| && s[i] != '>' then 1 + TagRun(s, i + 1) else 0
  }

  /** `<img` starts at `k`. */
  predicate ImgAt(s: string, k: nat) {
    k + 4 <= |s| && s[k..k + 4] == "<img"
  }

  /** `src="([^">]+)"` matches at `q`. */
  predicate SrcAt(s: string, q: nat) {
    q + 5 <= |s| && s[q..q + 5] == "src=\"" &&
    var n := AttrRun(s, q + 5);
    n > 0 && q + 5 + n < |s| && s[q + 5 + n] == '"'
  }

  /** The captured value of a `src` match at `q`. */
  function SrcValue(s: string, q: nat): (v: string)
    requires SrcAt(s, q)
    ensures |v| > 0 && '"' !in v && '>' !in v
    ensures q + 5 + |v| < |s| && s[q..q + 5 + |v| + 1] == "src=\"" + v + "\""
  {
    var v := s[q + 5..q + 5 + AttrRun(s, q + 5)];
    assert forall k :: 0 <= k < |v| ==> v[k] == s[q + 5 + k];
    v
  }

  /**
   * The greedy `[^>]+` gives back characters one at a time, so the match
   * uses the last `src` attribute in `[lo, hi]`.
   */
  function LastSrc(s: string, lo: nat, hi: nat): (r: Option<nat>)
    ensures r.Some? ==> lo <= r.value <= hi && SrcAt(s, r.value) && forall q :: r.value < q <= hi ==> !SrcAt(s, q)
    ensures r.None? ==> forall q :: lo <= q <= hi ==> !SrcAt(s, q)
    decreases hi
  {
    if hi < lo then None
    else if SrcAt(s, hi) then Some(hi)
    else if hi == 0 then None
    else LastSrc(s, lo, hi - 1)
  }

  /** The pattern matches at `k`: an `<img` tag whose attributes hold a `src` value. */
  predicate MatchAt(s: string, k: nat) {
    ImgAt(s, k) && LastSrc(s, k + 5, k + 4 + TagRun(s, k + 4)).Some?
  }

  /** The value captured by the match at `k`. */
  function MatchValue(s: string, k: nat): (v: string)
    requires MatchAt(s, k)
    ensures |v| > 0 && '"' !in v && '>' !in v
    ensures Contains(s, "src=\"" + v + "\"")
  {
    var q := LastSrc(s, k + 5, k + 4 + TagRun(s, k + 4)).value;
    var v := SrcValue(s, q);
    ContainsAt(s, "src=\"" + v + "\"", q);
    v
  }

  /** The first match starting at or after `p`: its position and its captured value. */
  function MatchFrom(s: string, p: nat): (r: Option<(nat, string)>)
    ensures r.Some? ==> p <= r.value.0 && ImgAt(s, r.value.0)
    ensures r.Some? ==> |r.value.1| > 0 && '"' !in r.value.1 && '>' !in r.value.1
    ensures r.Some? ==> Contains(s, "src=\"" + r.value.1 + "\"")
    ensures (forall k :: p <= k ==> !ImgAt(s, k)) ==> r.None?
    decreases |s| - p
  {
    if p + 4 > |s| then None
    else if MatchAt(s, p) then Some((p, MatchValue(s, p)))
    else MatchFrom(s, p + 1)
  }

  /** The search from `p` finds a match exactly when there is one at or after `p`, and it reports the first. */
  lemma {:induction false} MatchFromFirst(s: string, p: nat)
    ensures var r := MatchFrom(s, p);
      && (r.Some? <==> exists k :: p <= k && MatchAt(s, k))
      && (r.Some? ==> MatchAt(s, r.value.0) && r.value.1 == MatchValue(s, r.value.0))
      && (r.Some? ==> forall k :: p <= k < r.value.0 ==> !MatchAt(s, k))
    decreases |s| - p
  {
    if p + 4 <= |s| && !MatchAt(s, p) {
      MatchFromFirst(s, p + 1);
      assert forall k :: p <= k && MatchAt(s, k) ==> p + 1 <= k;
    }
  }

  /** `description.match(/<img[^>]+src="([^">]+)"/)?.[1]`: the value captured by the first match, if there is one. */
  function ImageSource(description: string): (r: Option<string>)
    ensures r.Some? ==> |r.value| > 0 && '"' !in r.value && '>' !in r.value
    ensures r.Some? ==> Contains(description, "src=\"" + r.value + "\"")
    ensures (forall k :: !ImgAt(description, k)) ==> r.None?
  {
    match MatchFrom(description, 0)
    case Some((_, v)) => Some(v)
    case None => None
  }

  /** The image source is found exactly when the pattern matches, and it is the value of the first match. */
  lemma ImageSourceFirstMatch(description: string)
    ensures ImageSource(description).Some? <==> exists k :: MatchAt(description, k)
    ensures ImageSource(description).Some? ==>
      exists k: nat :: MatchAt(description, k) && ImageSource(description).value == MatchValue(description, k)
        && forall j :: 0 <= j < k ==> !MatchAt(description, j)
  {
    MatchFromFirst(description, 0);
  }

  // ------------------------------------------------------ /<[^>]*>/g → ''

  /** `s.replace(/<[^>]*>/g, '')`: every `<` with a `>` after it goes, up to and including that `>`. */
  function StripTags(s: string): (r: string)
    ensures |r| <= |s|
    ensures forall k :: 0 <= k < |r| ==> r[k] in s
    ensures forall i, j :: 0 <= i < j < |r| && r[i] == '<' ==> r[j] != '>'
    ensures '<' !in s ==> r == s
    decreases |s|
  {
    if s == [] then []
    else if s[0] == '<' && '>' in s[1..] then
      var close := 1 + TagRun(s, 1);
      StripTags(s[close + 1..])
    else
      var rest := StripTags(s[1..]);
      assert forall k :: 0 <= k < |rest| ==> rest[k] in s[1..];
      [s[0]] + rest
  }

  /** Text without `<` before the rest is kept as it is. */
  lemma {:induction false} StripTagsPlain(p: string, s: string)
    requires '<' !in p
    ensures StripTags(p + s) == p + StripTags(s)
  {
    if p != [] {
      var t, p1 := p + s, p[1..];
      assert t[0] == p[0] != '<' && t[1..] == p1 + s;
      assert '<' !in p1 by { assert forall c :: c in p1 ==> c in p; }
      StripTagsPlain(p1, s);
      assert StripTags(t) == [p[0]] + StripTags(p1 + s);
      assert [p[0]] + (p1 + StripTags(s)) == ([p[0]] + p1) + StripTags(s);
      assert p == [p[0]] + p1;
    } else {
      assert p + s == s;
    }
  }

  /** A complete tag `<t>` is removed, up to its first `>`. */
  lemma StripTagsTag(t: string, q: string)
    requires '>' !in t
    ensures StripTags("<" + t + ">" + q) == StripTags(q)
  {
    var s := "<" + t + ">" + q;
    assert s[1 + |t|] == '>';
    assert '>' in s[1..] by { assert s[1..][|t|] == '>'; }
    assert forall k :: 1 <= k < 1 + |t| ==> s[k] == t[k - 1];
    assert TagRun(s, 1) == |t|;
    assert s[1 + |t| + 1..] == q;
  }

  /** A `<` with no `>` after it is kept, and the text after it is stripped. */
  lemma StripTagsUnclosed(s: string)
    requires s != [] && s[0] == '<' && '>' !in s[1..]
    ensures StripTags(s) == [s[0]] + StripTags(s[1..])
  {
  }

  // ------------------------------------------------------------ transform

  /** The most description characters an image keeps. */
  const DescriptionLength := 200

  /** The id of the image made from item `index` of category `categoryId`. */
  function ImageId(categoryId: int, index: int): string {
    "pinterest_" + IntToString(categoryId) + "_" + IntToString(index)
  }

  /** The ids of the images made from items `0` to `count - 1` of category `categoryId`. */
  function ImageIds(categoryId: int, count: int): set<string> {
    set k | 0 <= k < count :: ImageId(categoryId, k)
  }

  /** Images of one category made from different items have different ids. */
  lemma ImageIdInjective(categoryId: int, i: int, j: int)
    ensures ImageId(categoryId, i) == ImageId(categoryId, j) <==> i == j
  {
    var p := "pinterest_" + IntToString(categoryId) + "_";
    if ImageId(categoryId, i) == ImageId(categoryId, j) {
      assert p + IntToString(i) == ImageId(categoryId, i);
      assert p + IntToString(j) == ImageId(categoryId, j);
      assert IntToString(i) == (p + IntToString(i))[|p|..];
      assert IntToString(j) == (p + IntToString(j))[|p|..];
      IntToStringInjective(i, j);
    }
  }

  /** The image made from item `index`, or `None` when its description holds no image. */
  function ItemImage(categoryId: int, boardUrl: string, index: int, item: RssItem): (r: Option<RssImage>)
    ensures r.Some? <==> ImageSource(OrElse(item.description, "")).Some?
    ensures r.Some? ==> r.value.id == ImageId(categoryId, index) && r.value.url == ImageSource(OrElse(item.description, "")).value
    ensures r.Some? ==> r.value.title != "" && r.value.url != "" && r.value.boardUrl == boardUrl && r.value.source == "pinterest"
    ensures r.Some? ==> r.value.description == Take(StripTags(OrElse(item.description, "")), DescriptionLength)
    ensures r.Some? ==>
      && |r.value.description| <= 200
      && forall i, j :: 0 <= i < j < |r.value.description| && r.value.description[i] == '<' ==> r.value.description[j] != '>'
    ensures r.Some? ==> (Truthy(item.link) ==> r.value.link == item.link.value) && (!Truthy(item.link) ==> r.value.link == boardUrl)
    ensures r.Some? ==> (Truthy(item.title) ==> r.value.title == item.title.value) && (!Truthy(item.title) ==> r.value.title == "Pinterest Image")
  {
    var description := OrElse(item.description, "");
    match ImageSource(description)
    case None => None
    case Some(url) =>
      var text := Take(StripTags(description), DescriptionLength);
      assert forall k :: 0 <= k < |text| ==> text[k] == StripTags(description)[k];
      Some(RssImage(
        id := ImageId(categoryId, index),
        title := OrElse(item.title, "Pinterest Image"),
        description := text,
        url := url,
        link := OrElse(item.link, boardUrl),
        boardUrl := boardUrl,
        source := "pinterest"))
  }

  /** The images made from the first `n` items, skipping items at index `limit` or beyond. */
  function ImagesUpTo(categoryId: int, boardUrl: string, limit: int, items: seq<RssItem>, n: nat): seq<RssImage>
    requires n <= |items|
  {
    if n == 0 then []
    else
      var before := ImagesUpTo(categoryId, boardUrl, limit, items, n - 1);
      if n - 1 >= limit then before
      else match ItemImage(categoryId, boardUrl, n - 1, items[n - 1])
        case None => before
        case Some(image) => before + [image]
  }

  /** A new image is appended exactly when its item is before `limit` and holds an image. */
  lemma ImagesUpToStep(categoryId: int, boardUrl: string, limit: int, items: seq<RssItem>, n: nat)
    requires 0 < n <= |items|
    ensures var before := ImagesUpTo(categoryId, boardUrl, limit, items, n - 1);
      var image := ItemImage(categoryId, boardUrl, n - 1, items[n - 1]);
      ImagesUpTo(categoryId, boardUrl, limit, items, n) ==
        if n - 1 < limit && image.Some? then before + [image.value] else before
  {
  }

  /** At most `limit` images come from the first `n` items. */
  lemma {:induction false} ImagesUpToLength(categoryId: int, boardUrl: string, limit: int, items: seq<RssItem>, n: nat)
    requires n <= |items|
    ensures |ImagesUpTo(categoryId, boardUrl, limit, items, n)| <= Max(0, Min(n, limit))
  {
    if n > 0 {
      ImagesUpToLength(categoryId, boardUrl, limit, items, n - 1);
      ImagesUpToStep(categoryId, boardUrl, limit, items, n);
    }
  }

  /** Image `i` of the first `n` items has the id of item `k`, an item before both `n` and `limit`. */
  lemma {:induction false} ImageSourceIndex(categoryId: int, boardUrl: string, limit: int, items: seq<RssItem>, n: nat, i: nat)
    returns (k: nat)
    requires n <= |items| && i < |ImagesUpTo(categoryId, boardUrl, limit, items, n)|
    ensures k < n && k < limit && ImagesUpTo(categoryId, boardUrl, limit, items, n)[i].id == ImageId(categoryId, k)
  {
    assert n > 0;
    ImagesUpToStep(categoryId, boardUrl, limit, items, n);
    var before := ImagesUpTo(categoryId, boardUrl, limit, items, n - 1);
    var image := ItemImage(categoryId, boardUrl, n - 1, items[n - 1]);
    var all := ImagesUpTo(categoryId, boardUrl, limit, items, n);
    if i < |before| {
      k := ImageSourceIndex(categoryId, boardUrl, limit, items, n - 1, i);
      assert all[i] == before[i];
    } else {
      assert n - 1 < limit && image.Some? && all == before + [image.value];
      k := n - 1;
      assert all[i] == image.value;
    }
  }

  /** Every image has the id of an item before both `n` and `limit`. */
  lemma {:induction false} ImagesUpToIds(categoryId: int, boardUrl: string, limit: int, items: seq<RssItem>, n: nat)
    requires n <= |items|
    ensures var images := ImagesUpTo(categoryId, boardUrl, limit, items, n);
      forall i :: 0 <= i < |images| ==> images[i].id in ImageIds(categoryId, Min(n, limit))
  {
    var images := ImagesUpTo(categoryId, boardUrl, limit, items, n);
    forall i | 0 <= i < |images|
      ensures images[i].id in ImageIds(categoryId, Min(n, limit))
    {
      var k := ImageSourceIndex(categoryId, boardUrl, limit, items, n, i);
      assert 0 <= k < Min(n, limit) && images[i].id == ImageId(categoryId, k);
    }
  }

  /** The images of one fetch have distinct ids. */
  lemma {:induction false} ImagesUpToDistinct(categoryId: int, boardUrl: string, limit: int, items: seq<RssItem>, n: nat)
    requires n <= |items|
    ensures var images := ImagesUpTo(categoryId, boardUrl, limit, items, n);
      forall i, j :: 0 <= i < j < |images| ==> images[i].id != images[j].id
  {
    if n > 0 {
      ImagesUpToDistinct(categoryId, boardUrl, limit, items, n - 1);
      ImagesUpToStep(categoryId, boardUrl, limit, items, n);
      var before := ImagesUpTo(categoryId, boardUrl, limit, items, n - 1);
      var image := ItemImage(categoryId, boardUrl, n - 1, items[n - 1]);
      if n - 1 < limit && image.Some? {
        forall i | 0 <= i < |before|
          ensures before[i].id != image.value.id
        {
          var k := ImageSourceIndex(categoryId, boardUrl, limit, items, n - 1, i);
          ImageIdInjective(categoryId, k, n - 1);
        }
      }
    }
  }

  /**
   * The images a fetch of category `categoryId` yields: none for a category
   * without a feed or when the feed cannot be read, else those made from the
   * items before `limit`.
   */
  function BoardImages(categoryId: int, limit: int, feeds: Feeds): seq<RssImage> {
    if categoryId !in RssBoardUrls then []
    else
      match feeds(RssBoardUrls[categoryId])
      case Fail => []
      case Ok(items) => ImagesUpTo(categoryId, RssBoardUrls[categoryId], limit, items, |items|)
  }

  /** A fetch yields at most `limit` images with distinct ids, each the id of an item before `limit`. */
  lemma BoardImagesShape(categoryId: int, limit: int, feeds: Feeds)
    ensures var images := BoardImages(categoryId, limit, feeds);
      && |images| <= Max(0, limit)
      && (forall i, j :: 0 <= i < j < |images| ==> images[i].id != images[j].id)
      && (forall i :: 0 <= i < |images| ==> images[i].id in ImageIds(categoryId, limit))
  {
    if categoryId in RssBoardUrls && feeds(RssBoardUrls[categoryId]).Ok? {
      var items := feeds(RssBoardUrls[categoryId]).body;
      var url := RssBoardUrls[categoryId];
      ImagesUpToLength(categoryId, url, limit, items, |items|);
      ImagesUpToDistinct(categoryId, url, limit, items, |items|);
      ImagesUpToIds(categoryId, url, limit, items, |items|);
      assert ImageIds(categoryId, Min(|items|, limit)) <= ImageIds(categoryId, limit);
    }
  }

  /** `fetchPinterestBoardImages(categoryId, limit = 12)`. */
  method FetchPinterestBoardImages(categoryId: int, limit: int, feeds: Feeds) returns (images: seq<RssImage>)
    ensures images == BoardImages(categoryId, limit, feeds)
  {
    if categoryId !in RssBoardUrls || RssBoardUrls[categoryId] == "" {
      return [];
    }
    var boardUrl := RssBoardUrls[categoryId];
    var response := feeds(boardUrl);
    if response.Fail? {
      return [];
    }
    var items := response.body;
    images := [];
    for index := 0 to |items|
      invariant images == ImagesUpTo(categoryId, boardUrl, limit, items, index)
    {
      ImagesUpToStep(categoryId, boardUrl, limit, items, index + 1);
      if index < limit {
        var item := items[index];
        var image := ItemImage(categoryId, boardUrl, index, item);
        if image.Some? {
          images := images + [image.value];
        }
      }
    }
  }

  // ----------------------------------------------------------------- cache

  /** What `cachePinterestImages` stores. */
  datatype CacheRecord = CacheRecord(images: seq<RssImage>, timestamp: int, expiry: int)

  /** How long a record is served: 24 hours, in milliseconds. */
  const Day := 24 * 60 * 60 * 1000

  function RssCacheKey(categoryId: int): string {
    "pinterest_images_" + IntToString(categoryId)
  }

  /** The answer of `getCachedPinterestImages` for a stored record at time `now`. */
  function Served(record: Option<CacheRecord>, now: int): (r: Option<seq<RssImage>>)
    ensures r.Some? <==> record.Some? && now <= record.value.expiry
    ensures r.Some? ==> r.value == record.value.images
  {
    match record
    case None => None
    case Some(rec) => if now > rec.expiry then None else Some(rec.images)
  }

  /** A record written at `t` is served up to and including `t + 24h`, and not a millisecond later. */
  lemma ExpiryBoundary(images: seq<RssImage>, t: int, now: int)
    ensures now <= t + 86400000 ==> Served(Some(CacheRecord(images, t, t + Day)), now) == Some(images)
    ensures now > t + 86400000 ==> Served(Some(CacheRecord(images, t, t + Day)), now).None?
  {
  }

  /** `cachePinterestImages(categoryId, images)`: nothing happens when storage cannot be reached. */
  method CachePinterestImages(categoryId: int, images: seq<RssImage>, now: int, storage: Storage<CacheRecord>)
    requires storage.Valid()
    modifies storage
    ensures storage.Valid()
    ensures storage.items ==
      if storage.accessible then old(storage.items)[RssCacheKey(categoryId) := CacheRecord(images, now, now + Day)]
      else old(storage.items)
  {
    if !storage.accessible {
      return;
    }
    storage.SetItem(RssCacheKey(categoryId), CacheRecord(images, now, now + Day));
  }

  /** `getCachedPinterestImages(categoryId)`: an expired record is removed. */
  method GetCachedPinterestImages(categoryId: int, now: int, storage: Storage<CacheRecord>) returns (cached: Option<seq<RssImage>>)
    requires storage.Valid()
    modifies storage
    ensures storage.Valid()
    ensures var key := RssCacheKey(categoryId);
      if !storage.accessible then cached.None? && storage.items == old(storage.items)
      else
        cached == Served(old(storage.GetItem(key)), now)
        && storage.items == if old(storage.GetItem(key)).Some? && cached.None? then old(storage.items) - {key} else old(storage.items)
  {
    if !storage.accessible {
      return None;
    }
    var key := RssCacheKey(categoryId);
    var stored := storage.GetItem(key);
    if stored.None? {
      return None;
    }
    if now > stored.value.expiry {
      storage.RemoveItem(key);
      return None;
    }
    return Some(stored.value.images);
  }

  /**
   * `getPinterestImages(categoryId, limit = 12)`: a non-empty cached list is
   * cut to `limit` without fetching; otherwise the feed is read, and the
   * result is stored only when it is not empty. `now` is the time the cache
   * is read, `later` the time the fetched images are stored.
   */
  method GetPinterestImages(categoryId: int, limit: int, now: int, later: int, storage: Storage<CacheRecord>, feeds: Feeds)
    returns (images: seq<RssImage>)
    requires storage.Valid()
    modifies storage
    ensures storage.Valid()
    ensures var key := RssCacheKey(categoryId);
      var stored := if storage.accessible then old(storage.GetItem(key)) else None;
      var cached := Served(stored, now);
      if cached.Some? && |cached.value| > 0 then
        images == Take(cached.value, limit) && storage.items == old(storage.items)
      else
        var swept := if stored.Some? && cached.None? then old(storage.items) - {key} else old(storage.items);
        && images == BoardImages(categoryId, limit, feeds)
        && storage.items == if images != [] && storage.accessible then swept[key := CacheRecord(images, later, later + Day)] else swept
  {
    var cached := GetCachedPinterestImages(categoryId, now, storage);
    if cached.Some? && |cached.value| > 0 {
      return Take(cached.value, limit);
    }
    images := FetchPinterestBoardImages(categoryId, limit, feeds);
    if |images| > 0 {
      CachePinterestImages(categoryId, images, later, storage);
    }
  }
}
