/**
 * The board table, the board-address parser, the widget markup and the
 * curated image table of the Pinterest embed service
 * (src/services/pinterestEmbedAPI.js).
 */
module PinterestEmbedApi {
  import opened Wrappers
  import opened Text

  /** An entry of the curated image table. */
  datatype CuratedImage = CuratedImage(
    id: string,
    title: string,
    description: string,
    imageUrl: string,
    boardUrl: string,
    isPinterest: bool)

  /** The Pinterest account that owns the boards. */
  const Account := "ArtCraftAcademy1"

  /** The address of board `slug` of `user`: `https://www.pinterest.com/<user>/<slug>/`. */
  function BoardAddress(user: string, slug: string): string {
    "https://www.pinterest.com/" + user + "/" + slug + "/"
  }

  /** The board slugs, by board key. */
  const BoardSlugs: map<string, string> := map[
    "origami" := "origami-paper-crafts",
    "drawing" := "drawing",
    "recycling" := "recycling-art",
    "beads" := "beads-accessories",
    "clay" := "clay-creations",
    "preschool" := "preschool-crafts",
    "perler" := "perler-beads",
    "3dpen" := "3d-pen-fun",
    "miniature" := "miniature-wonders",
    "science" := "science-diy-experiments",
    "tips" := "tips-tricks"
  ]

  /** `PINTEREST_BOARDS`: board key to board address, all on `Account`. */
  const Boards: map<string, string> := map k | k in BoardSlugs :: BoardAddress(Account, BoardSlugs[k])

  /** `CURATED_PINTEREST_IMAGES`: board key to its curated images. */
  const CuratedImages: map<string, seq<CuratedImage>> := map[
    "origami" := OrigamiImages,
    "drawing" := DrawingImages,
    "recycling" := RecyclingImages,
    "beads" := BeadsImages,
    "clay" := ClayImages,
    "preschool" := PreschoolImages,
    "perler" := PerlerImages,
    "3dpen" := Pen3dImages,
    "miniature" := MiniatureImages,
    "science" := ScienceImages,
    "tips" := TipsImages
  ]

  const OrigamiImages: seq<CuratedImage> := [
    CuratedImage("origami_1", "Beautiful Origami Flowers", "Step-by-step origami flower tutorial",
      "https://images.unsplash.com/photo-1578662996442-48f60103fc96?w=400&h=400&fit=crop&crop=center",
      BoardAddress(Account, "origami-paper-crafts"), true),
    CuratedImage("origami_2", "Paper Craft Animals", "Cute paper animals for kids",
      "https://images.unsplash.com/photo-1513475382585-d06e58bcb0e0?w=400&h=400&fit=crop&crop=center",
      BoardAddress(Account, "origami-paper-crafts"), true),
    CuratedImage("origami_3", "Colorful Paper Butterflies", "Easy paper butterfly craft",
      "https://images.unsplash.com/photo-1578662996442-48f60103fc96?w=400&h=400&fit=crop&crop=center",
      BoardAddress(Account, "origami-paper-crafts"), true),
    CuratedImage("origami_4", "Origami Stars", "Beautiful paper stars tutorial",
      "https://images.unsplash.com/photo-1513475382585-d06e58bcb0e0?w=400&h=400&fit=crop&crop=center",
      BoardAddress(Account, "origami-paper-crafts"), true),
    CuratedImage("origami_5", "Paper Roses", "Elegant origami roses",
      "https://images.unsplash.com/photo-1578662996442-48f60103fc96?w=400&h=400&fit=crop&crop=center",
      BoardAddress(Account, "origami-paper-crafts"), true),
    CuratedImage("origami_6", "Paper Cranes", "Traditional origami cranes",
      "https://images.unsplash.com/photo-1513475382585-d06e58bcb0e0?w=400&h=400&fit=crop&crop=center",
      BoardAddress(Account, "origami-paper-crafts"), true)
  ]

  const DrawingImages: seq<CuratedImage> := [
    CuratedImage("drawing_1", "Easy Drawing Tutorials", "Step-by-step drawing guides",
      "https://i.pinimg.com/236x/2c/3d/4e/2c3d4e5f6a7b8c9d0e1f2a3b4c5d6e7f.jpg",
      BoardAddress(Account, "drawing"), true),
    CuratedImage("drawing_2", "Character Drawing Ideas", "Fun character sketches for beginners",
      "https://i.pinimg.com/236x/5f/6a/7b/5f6a7b8c9d0e1f2a3b4c5d6e7f8a9b0c.jpg",
      BoardAddress(Account, "drawing"), true),
    CuratedImage("drawing_3", "Nature Drawing Inspiration", "Beautiful nature sketches",
      "https://i.pinimg.com/236x/8c/9d/0e/8c9d0e1f2a3b4c5d6e7f8a9b0c1d2e3f.jpg",
      BoardAddress(Account, "drawing"), true),
    CuratedImage("drawing_4", "Animal Drawing Guide", "How to draw cute animals",
      "https://i.pinimg.com/236x/e5/f6/a7/e5f6a7b8c9d0e1f2a3b4c5d6e7f8a9b0.jpg",
      BoardAddress(Account, "drawing"), true),
    CuratedImage("drawing_5", "Portrait Drawing Tips", "Learn to draw faces",
      "https://i.pinimg.com/236x/f8/a9/b0/f8a9b0c1d2e3f4a5b6c7d8e9f0a1b2c3.jpg",
      BoardAddress(Account, "drawing"), true),
    CuratedImage("drawing_6", "Landscape Drawing", "Beautiful scenery sketches",
      "https://i.pinimg.com/236x/0b/1c/2d/0b1c2d3e4f5a6b7c8d9e0f1a2b3c4d5e.jpg",
      BoardAddress(Account, "drawing"), true)
  ]

  const RecyclingImages: seq<CuratedImage> := [
    CuratedImage("recycling_1", "Plastic Bottle Crafts", "Creative recycling projects",
      "https://i.pinimg.com/236x/3e/4f/5a/3e4f5a6b7c8d9e0f1a2b3c4d5e6f7a8b.jpg",
      BoardAddress(Account, "recycling-art"), true),
    CuratedImage("recycling_2", "Cardboard Art Projects", "Upcycled cardboard creations",
      "https://i.pinimg.com/236x/6b/7c/8d/6b7c8d9e0f1a2b3c4d5e6f7a8b9c0d1e.jpg",
      BoardAddress(Account, "recycling-art"), true),
    CuratedImage("recycling_3", "Eco-Friendly Crafts", "Sustainable craft ideas",
      "https://i.pinimg.com/236x/9e/0f/1a/9e0f1a2b3c4d5e6f7a8b9c0d1e2f3a4b.jpg",
      BoardAddress(Account, "recycling-art"), true)
  ]

  const BeadsImages: seq<CuratedImage> := [
    CuratedImage("beads_1", "Beaded Jewelry Making", "Beautiful beaded accessories",
      "https://i.pinimg.com/236x/c1/d2/e3/c1d2e3f4a5b6c7d8e9f0a1b2c3d4e5f6.jpg",
      BoardAddress(Account, "beads-accessories"), true),
    CuratedImage("beads_2", "Colorful Bead Patterns", "Creative bead designs",
      "https://i.pinimg.com/236x/f4/a5/b6/f4a5b6c7d8e9f0a1b2c3d4e5f6a7b8c9.jpg",
      BoardAddress(Account, "beads-accessories"), true),
    CuratedImage("beads_3", "DIY Hair Accessories", "Handmade hair decorations",
      "https://i.pinimg.com/236x/a7/b8/c9/a7b8c9d0e1f2a3b4c5d6e7f8a9b0c1d2.jpg",
      BoardAddress(Account, "beads-accessories"), true)
  ]

  const ClayImages: seq<CuratedImage> := [
    CuratedImage("clay_1", "Clay Pottery Projects", "Beautiful clay creations",
      "https://i.pinimg.com/236x/e1/f2/a3/e1f2a3b4c5d6e7f8a9b0c1d2e3f4a5b6.jpg",
      BoardAddress(Account, "clay-creations"), true),
    CuratedImage("clay_2", "Polymer Clay Crafts", "Creative polymer clay ideas",
      "https://i.pinimg.com/236x/b4/c5/d6/b4c5d6e7f8a9b0c1d2e3f4a5b6c7d8e9.jpg",
      BoardAddress(Account, "clay-creations"), true),
    CuratedImage("clay_3", "Clay Sculptures", "Amazing clay art pieces",
      "https://i.pinimg.com/236x/d7/e8/f9/d7e8f9a0b1c2d3e4f5a6b7c8d9e0f1a2.jpg",
      BoardAddress(Account, "clay-creations"), true)
  ]

  const PreschoolImages: seq<CuratedImage> := [
    CuratedImage("preschool_1", "Fun Preschool Activities", "Educational craft projects for kids",
      "https://i.pinimg.com/236x/fa/0b/1c/fa0b1c2d3e4f5a6b7c8d9e0f1a2b3c4d.jpg",
      BoardAddress(Account, "preschool-crafts"), true),
    CuratedImage("preschool_2", "Colorful Learning Crafts", "Creative learning through crafts",
      "https://i.pinimg.com/236x/2d/3e/4f/2d3e4f5a6b7c8d9e0f1a2b3c4d5e6f7a.jpg",
      BoardAddress(Account, "preschool-crafts"), true),
    CuratedImage("preschool_3", "Easy Kids Projects", "Simple crafts for young children",
      "https://i.pinimg.com/236x/5a/6b/7c/5a6b7c8d9e0f1a2b3c4d5e6f7a8b9c0d.jpg",
      BoardAddress(Account, "preschool-crafts"), true)
  ]

  const PerlerImages: seq<CuratedImage> := [
    CuratedImage("perler_1", "Perler Bead Patterns", "Amazing perler bead designs",
      "https://i.pinimg.com/236x/8d/9e/0f/8d9e0f1a2b3c4d5e6f7a8b9c0d1e2f3a.jpg",
      BoardAddress(Account, "perler-beads"), true),
    CuratedImage("perler_2", "Pixel Art with Beads", "Create pixel art using perler beads",
      "https://i.pinimg.com/236x/0f/1a/2b/0f1a2b3c4d5e6f7a8b9c0d1e2f3a4b5c.jpg",
      BoardAddress(Account, "perler-beads"), true),
    CuratedImage("perler_3", "Character Perler Beads", "Fun character designs",
      "https://i.pinimg.com/236x/3c/4d/5e/3c4d5e6f7a8b9c0d1e2f3a4b5c6d7e8f.jpg",
      BoardAddress(Account, "perler-beads"), true)
  ]

  const Pen3dImages: seq<CuratedImage> := [
    CuratedImage("3dpen_1", "3D Pen Creations", "Amazing 3D pen projects",
      "https://i.pinimg.com/236x/6f/7a/8b/6f7a8b9c0d1e2f3a4b5c6d7e8f9a0b1c.jpg",
      BoardAddress(Account, "3d-pen-fun"), true),
    CuratedImage("3dpen_2", "3D Pen Art", "Creative 3D pen artwork",
      "https://i.pinimg.com/236x/9c/0d/1e/9c0d1e2f3a4b5c6d7e8f9a0b1c2d3e4f.jpg",
      BoardAddress(Account, "3d-pen-fun"), true)
  ]

  const MiniatureImages: seq<CuratedImage> := [
    CuratedImage("miniature_1", "Miniature Dollhouse Items", "Tiny detailed crafts",
      "https://i.pinimg.com/236x/2f/3a/4b/2f3a4b5c6d7e8f9a0b1c2d3e4f5a6b7c.jpg",
      BoardAddress(Account, "miniature-wonders"), true),
    CuratedImage("miniature_2", "Mini Food Crafts", "Adorable miniature food items",
      "https://i.pinimg.com/236x/5c/6d/7e/5c6d7e8f9a0b1c2d3e4f5a6b7c8d9e0f.jpg",
      BoardAddress(Account, "miniature-wonders"), true)
  ]

  const ScienceImages: seq<CuratedImage> := [
    CuratedImage("science_1", "Science Experiments", "Fun educational experiments",
      "https://i.pinimg.com/236x/8f/9a/0b/8f9a0b1c2d3e4f5a6b7c8d9e0f1a2b3c.jpg",
      BoardAddress(Account, "science-diy-experiments"), true),
    CuratedImage("science_2", "DIY Science Projects", "Hands-on learning activities",
      "https://i.pinimg.com/236x/0b/1c/2d/0b1c2d3e4f5a6b7c8d9e0f1a2b3c4d5e.jpg",
      BoardAddress(Account, "science-diy-experiments"), true)
  ]

  const TipsImages: seq<CuratedImage> := [
    CuratedImage("tips_1", "Crafting Tips & Tricks", "Helpful crafting advice",
      "https://i.pinimg.com/236x/4e/5f/6a/4e5f6a7b8c9d0e1f2a3b4c5d6e7f8a9b.jpg",
      BoardAddress(Account, "tips-tricks"), true),
    CuratedImage("tips_2", "Organization Ideas", "Craft room organization tips",
      "https://i.pinimg.com/236x/7b/8c/9d/7b8c9d0e1f2a3b4c5d6e7f8a9b0c1d2e.jpg",
      BoardAddress(Account, "tips-tricks"), true)
  ]

  // ------------------------------------------------------------ extractBoardId

  /** The text `pinterest.com/` the board pattern starts with. */
  const Host := "pinterest.com/"

  /** How many characters `[^\/]+` takes greedily from the start of `s`. */
  function SegmentLength(s: string): (n: nat)
    ensures n <= |s|
    ensures forall i :: 0 <= i < n ==> s[i] != '/'
    ensures n < |s| ==> s[n] == '/'
  {
    if |s| == 0 || s[0] == '/' then 0 else 1 + SegmentLength(s[1..])
  }

  /**
   * The pattern `pinterest\.com\/([^\/]+)\/([^\/]+)` tried at the start of
   * `s`: the two captured segments, or `None` when it does not match there.
   */
  function MatchAt(s: string): (r: Option<(string, string)>)
    ensures r.Some? ==> var (a, b) := r.value;
      a != [] && b != [] && '/' !in a && '/' !in b && StartsWith(s, Host + a + "/" + b)
    ensures r.Some? ==> var (a, b) := r.value;
      |Host + a + "/" + b| == |s| || s[|Host + a + "/" + b|] == '/'
  {
    if !StartsWith(s, Host) then None
    else
      var rest := s[|Host|..];
      var n1 := SegmentLength(rest);
      if n1 == 0 || n1 == |rest| then None
      else
        var tail := rest[n1 + 1..];
        var n2 := SegmentLength(tail);
        if n2 == 0 then None
        else
          assert s[..|Host| + n1 + 1 + n2] == Host + rest[..n1] + "/" + tail[..n2];
          Some((rest[..n1], tail[..n2]))
  }

  /** The first position at or after `k` where the board pattern matches. */
  function FindMatch(url: string, k: nat): (r: Option<nat>)
    requires k <= |url|
    ensures r.Some? ==> k <= r.value <= |url| && MatchAt(url[r.value..]).Some?
    ensures forall j :: k <= j <= |url| && (r.None? || j < r.value) ==> MatchAt(url[j..]).None?
    decreases |url| - k
  {
    if MatchAt(url[k..]).Some? then Some(k)
    else if k == |url| then None
    else
      var rest := FindMatch(url, k + 1);
      assert forall j :: k < j <= |url| && (rest.None? || j < rest.value) ==> MatchAt(url[j..]).None?;
      rest
  }

  /**
   * `extractBoardId(boardUrl)`: `<user>/<board>` from the leftmost
   * `pinterest.com/<user>/<board>` of the address, or `None` (`null`).
   */
  function ExtractBoardId(url: string): (r: Option<string>)
    ensures r.None? <==> forall k :: 0 <= k <= |url| ==> MatchAt(url[k..]).None?
    ensures r.Some? ==> exists k :: (0 <= k <= |url| && MatchAt(url[k..]).Some?
      && r.value == MatchAt(url[k..]).value.0 + "/" + MatchAt(url[k..]).value.1
      && forall j :: 0 <= j < k ==> MatchAt(url[j..]).None?)
  {
    match FindMatch(url, 0)
    case None => None
    case Some(k) =>
      var (a, b) := MatchAt(url[k..]).value;
      Some(a + "/" + b)
  }

  /** The board pattern cannot start inside `https://www.`. */
  lemma NoMatchBeforeHost(url: string, user: string, slug: string, k: nat)
    requires url == BoardAddress(user, slug) && k < 12
    ensures MatchAt(url[k..]).None?
  {
    var prefix := "https://www.pinterest.com/";
    assert url[..26] == prefix;
    assert forall j :: 13 <= j < 25 ==> prefix[j] != '/';
    assert url[k..][..14][13] == url[k + 13] == prefix[k + 13];
    assert Host[13] == '/';
  }

  /** The address of a board is parsed back into its account and slug. */
  lemma {:induction false} BoardAddressId(user: string, slug: string)
    requires user != [] && slug != [] && '/' !in user && '/' !in slug
    ensures ExtractBoardId(BoardAddress(user, slug)) == Some(user + "/" + slug)
  {
    var url := BoardAddress(user, slug);
    assert url[12..] == Host + user + "/" + slug + "/";
    MatchAtBoardPath(user, slug);
    forall k | 0 <= k < 12 ensures MatchAt(url[k..]).None? {
      NoMatchBeforeHost(url, user, slug, k);
    }
    SkipToMatch(url, 0, 12);
  }

  /** The board pattern matches `pinterest.com/<user>/<slug>/` with the two segments. */
  lemma MatchAtBoardPath(user: string, slug: string)
    requires user != [] && slug != [] && '/' !in user && '/' !in slug
    ensures MatchAt(Host + user + "/" + slug + "/") == Some((user, slug))
  {
    var s := Host + user + "/" + slug + "/";
    var rest := user + "/" + slug + "/";
    assert s[|Host|..] == rest;
    assert rest == user + ("/" + slug + "/");
    SegmentOf(user, "/" + slug + "/");
    assert rest[|user| + 1..] == slug + "/";
    SegmentOf(slug, "/");
  }

  /** A slash-free `a` is exactly what `[^\/]+` takes from `a` followed by a slash. */
  lemma {:induction false} SegmentOf(a: string, rest: string)
    requires '/' !in a && |rest| > 0 && rest[0] == '/'
    ensures SegmentLength(a + rest) == |a|
  {
    if |a| > 0 {
      assert (a + rest)[1..] == a[1..] + rest;
      SegmentOf(a[1..], rest);
    }
  }

  /** Positions without a match are skipped by the leftmost search. */
  lemma {:induction false} SkipToMatch(url: string, i: nat, j: nat)
    requires i <= j <= |url|
    requires forall k :: i <= k < j ==> MatchAt(url[k..]).None?
    requires MatchAt(url[j..]).Some?
    ensures FindMatch(url, i) == Some(j)
    decreases j - i
  {
    if i < j {
      SkipToMatch(url, i + 1, j);
    }
  }

  /** The account name and every slug are non-empty and free of slashes. */
  lemma SlugsWellFormed()
    ensures Account != [] && '/' !in Account
    ensures forall key :: key in BoardSlugs ==> BoardSlugs[key] != [] && '/' !in BoardSlugs[key]
  {
  }

  /** Every address of `Boards` yields `ArtCraftAcademy1/<slug>`. */
  lemma BoardsIds()
    ensures forall key :: key in Boards ==> ExtractBoardId(Boards[key]) == Some(Account + "/" + BoardSlugs[key])
  {
    SlugsWellFormed();
    forall key | key in Boards ensures ExtractBoardId(Boards[key]) == Some(Account + "/" + BoardSlugs[key]) {
      BoardAddressId(Account, BoardSlugs[key]);
    }
  }

  // ------------------------------------------------------ generatePinterestWidget

  /**
   * The embed markup for a board whose address parses, as the pieces of the
   * template in order; `width`, `height` and `cols` are already text.
   */
  function WidgetPieces(boardUrl: string, width: string, height: string, cols: string): seq<string> {
    [ "\n    <a data-pin-do=\"embedBoard\" \n       ",
      Attribute("data-pin-board-width", width), " \n       ",
      Attribute("data-pin-scale-height", height), " \n       ",
      Attribute("data-pin-scale-width", width), "\n       ",
      Attribute("data-pin-board-cols", cols), "\n       ",
      Attribute("href", boardUrl), ">\n    </a>\n  " ]
  }

  /** The joined template is never empty and carries each of its five attributes. */
  lemma WidgetAttributes(boardUrl: string, width: string, height: string, cols: string)
    ensures var m := Concat(WidgetPieces(boardUrl, width, height, cols));
      && m != ""
      && Contains(m, Attribute("data-pin-board-width", width))
      && Contains(m, Attribute("data-pin-scale-height", height))
      && Contains(m, Attribute("data-pin-scale-width", width))
      && Contains(m, Attribute("data-pin-board-cols", cols))
      && Contains(m, Attribute("href", boardUrl))
  {
      var pieces := WidgetPieces(boardUrl, width, height, cols);
      assert pieces[1] == Attribute("data-pin-board-width", width);
      assert pieces[3] == Attribute("data-pin-scale-height", height);
      assert pieces[5] == Attribute("data-pin-scale-width", width);
      assert pieces[7] == Attribute("data-pin-board-cols", cols);
      assert pieces[9] == Attribute("href", boardUrl);
      assert |pieces[0]| > 0;
      ConcatContainsPiece(pieces, 0);
      ConcatContainsPiece(pieces, 1);
      ConcatContainsPiece(pieces, 3);
      ConcatContainsPiece(pieces, 5);
      ConcatContainsPiece(pieces, 7);
      ConcatContainsPiece(pieces, 9);
  }

  /** An HTML attribute `name="value"`. */
  function Attribute(name: string, value: string): string {
    name + "=\"" + value + "\""
  }

  /**
   * `generatePinterestWidget(boardUrl, width = 400, height = 400, cols = 2)`:
   * the empty string when the address does not parse, else markup carrying
   * the given sizes and the address itself as `href`.
   */
  function GeneratePinterestWidget(boardUrl: string, width: int := 400, height: int := 400, cols: int := 2): (r: string)
    ensures r == "" <==> ExtractBoardId(boardUrl).None?
    ensures r != "" ==>
      && Contains(r, Attribute("data-pin-board-width", IntToString(width)))
      && Contains(r, Attribute("data-pin-scale-height", IntToString(height)))
      && Contains(r, Attribute("data-pin-scale-width", IntToString(width)))
      && Contains(r, Attribute("data-pin-board-cols", IntToString(cols)))
      && Contains(r, Attribute("href", boardUrl))
  {
    if ExtractBoardId(boardUrl).None? then ""
    else
      WidgetAttributes(boardUrl, IntToString(width), IntToString(height), IntToString(cols));
      Concat(WidgetPieces(boardUrl, IntToString(width), IntToString(height), IntToString(cols)))
  }

  // ------------------------------------------------------------ getCuratedImages

  /** Every image of `images` is a Pinterest image of board `url`. */
  predicate OnBoard(images: seq<CuratedImage>, url: string) {
    forall i :: 0 <= i < |images| ==> images[i].boardUrl == url && images[i].isPinterest
  }

  /** Lists Origami, Drawing, Recycling, Beads: non-empty, each on the board of its own slug. */
  lemma CuratedListsOnBoards1()
    ensures |OrigamiImages| > 0 && OnBoard(OrigamiImages, BoardAddress(Account, "origami-paper-crafts"))
    ensures |DrawingImages| > 0 && OnBoard(DrawingImages, BoardAddress(Account, "drawing"))
    ensures |RecyclingImages| > 0 && OnBoard(RecyclingImages, BoardAddress(Account, "recycling-art"))
    ensures |BeadsImages| > 0 && OnBoard(BeadsImages, BoardAddress(Account, "beads-accessories"))
  {
  }

  /** Lists Clay, Preschool, Perler, Pen3d: non-empty, each on the board of its own slug. */
  lemma CuratedListsOnBoards2()
    ensures |ClayImages| > 0 && OnBoard(ClayImages, BoardAddress(Account, "clay-creations"))
    ensures |PreschoolImages| > 0 && OnBoard(PreschoolImages, BoardAddress(Account, "preschool-crafts"))
    ensures |PerlerImages| > 0 && OnBoard(PerlerImages, BoardAddress(Account, "perler-beads"))
    ensures |Pen3dImages| > 0 && OnBoard(Pen3dImages, BoardAddress(Account, "3d-pen-fun"))
  {
  }

  /** Lists Miniature, Science, Tips: non-empty, each on the board of its own slug. */
  lemma CuratedListsOnBoards3()
    ensures |MiniatureImages| > 0 && OnBoard(MiniatureImages, BoardAddress(Account, "miniature-wonders"))
    ensures |ScienceImages| > 0 && OnBoard(ScienceImages, BoardAddress(Account, "science-diy-experiments"))
    ensures |TipsImages| > 0 && OnBoard(TipsImages, BoardAddress(Account, "tips-tricks"))
  {
  }

  /** Which list each of the first six board keys of the table holds. */
  lemma CuratedLookups1()
    ensures CuratedImages["origami"] == OrigamiImages
    ensures CuratedImages["drawing"] == DrawingImages
    ensures CuratedImages["recycling"] == RecyclingImages
    ensures CuratedImages["beads"] == BeadsImages
    ensures CuratedImages["clay"] == ClayImages
    ensures CuratedImages["preschool"] == PreschoolImages
  {
  }

  /** Which list each of the last five board keys of the table holds. */
  lemma CuratedLookups2()
    ensures CuratedImages["perler"] == PerlerImages
    ensures CuratedImages["3dpen"] == Pen3dImages
    ensures CuratedImages["miniature"] == MiniatureImages
    ensures CuratedImages["science"] == ScienceImages
    ensures CuratedImages["tips"] == TipsImages
  {
  }

  /** Which slug each board key has. */
  lemma SlugLookups()
    ensures BoardSlugs["origami"] == "origami-paper-crafts"
    ensures BoardSlugs["drawing"] == "drawing"
    ensures BoardSlugs["recycling"] == "recycling-art"
    ensures BoardSlugs["beads"] == "beads-accessories"
    ensures BoardSlugs["clay"] == "clay-creations"
    ensures BoardSlugs["preschool"] == "preschool-crafts"
    ensures BoardSlugs["perler"] == "perler-beads"
    ensures BoardSlugs["3dpen"] == "3d-pen-fun"
    ensures BoardSlugs["miniature"] == "miniature-wonders"
    ensures BoardSlugs["science"] == "science-diy-experiments"
    ensures BoardSlugs["tips"] == "tips-tricks"
  {
  }

  /** The board keys of the table. */
  lemma CuratedKeys(c: string)
    requires c in CuratedImages
    ensures c == "origami" || c == "drawing" || c == "recycling" || c == "beads" || c == "clay" || c == "preschool" || c == "perler" || c == "3dpen" || c == "miniature" || c == "science" || c == "tips"
  {
  }

  /** The table has exactly the eleven board keys. */
  lemma CuratedKeySet()
    ensures CuratedImages.Keys ==
      {"origami", "drawing", "recycling", "beads", "clay", "preschool", "perler", "3dpen", "miniature", "science", "tips"}
  {
  }

  /** The list of one board key is non-empty and lies on that board. */
  lemma CuratedListShape(c: string)
    requires c in CuratedImages
    ensures c in Boards && |CuratedImages[c]| > 0 && OnBoard(CuratedImages[c], Boards[c])
  {
    CuratedListsOnBoards1();
    CuratedListsOnBoards2();
    CuratedListsOnBoards3();
    CuratedLookups1();
    CuratedLookups2();
    SlugLookups();
    CuratedKeys(c);
  }

  /** The shape of the curated table: one non-empty list per board, every image on its own board. */
  lemma CuratedTableShape()
    ensures CuratedImages.Keys == Boards.Keys
    ensures forall c :: c in CuratedImages ==> |CuratedImages[c]| > 0 && OnBoard(CuratedImages[c], Boards[c])
  {
    forall c | c in CuratedImages
      ensures |CuratedImages[c]| > 0 && OnBoard(CuratedImages[c], Boards[c])
    {
      CuratedListShape(c);
    }
  }

  /**
   * `getCuratedImages(category, limit = 6)`: the first `limit` curated images
   * of the board key, in table order; none for a key the table lacks.
   */
  function GetCuratedImages(category: string, limit: int := 6): (r: seq<CuratedImage>)
    ensures category !in CuratedImages ==> r == []
    ensures category in CuratedImages && 0 <= limit ==>
      r == CuratedImages[category][..Min(limit, |CuratedImages[category]|)]
    ensures category in CuratedImages && limit < 0 ==>
      r == CuratedImages[category][..Max(|CuratedImages[category]| + limit, 0)]
  {
    Take(if category in CuratedImages then CuratedImages[category] else [], limit)
  }

  /** Every image `getCuratedImages` returns is a Pinterest image of the board it was asked for. */
  lemma CuratedImagesOnBoard(category: string, limit: int)
    ensures forall i :: 0 <= i < |GetCuratedImages(category, limit)| ==>
      category in Boards && GetCuratedImages(category, limit)[i].boardUrl == Boards[category]
      && GetCuratedImages(category, limit)[i].isPinterest
  {
    if category in CuratedImages {
      CuratedListShape(category);
      var r := GetCuratedImages(category, limit);
      var images := CuratedImages[category];
      assert |r| <= |images| && r == images[..|r|];
      forall i | 0 <= i < |r|
        ensures r[i].boardUrl == Boards[category] && r[i].isPinterest
      {
        assert r[i] == images[i];
      }
    } else {
      assert GetCuratedImages(category, limit) == [];
    }
  }
}
