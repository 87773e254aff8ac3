/**
 * The pictures of one category (src/components/Pages/PictureCategoryPage.jsx):
 * the category named by the route among eleven picture categories, its
 * gallery (the pins the hook returned, else the curated images of its
 * board, else local drawings or placeholders), and the image picked for
 * the action selector.
 */
module PictureCategory {
  import opened Wrappers
  import opened Text
  import opened PinterestApi
  import opened PinterestEmbedApi

  /** A picture category: its number and the key of its title. */
  datatype PictureCategory = PictureCategory(id: int, key: string)

  /** `pictureCategories`, in table order. */
  const PictureCategories: seq<PictureCategory> := [
    PictureCategory(1, "origamiPaperCrafts"),
    PictureCategory(2, "drawing"),
    PictureCategory(3, "recyclingArt"),
    PictureCategory(4, "beadsAccessories"),
    PictureCategory(5, "clayCreations"),
    PictureCategory(6, "preschoolCrafts"),
    PictureCategory(7, "perlerBeads"),
    PictureCategory(8, "3dPenFun"),
    PictureCategory(9, "miniatureWonders"),
    PictureCategory(10, "scienceDiyExperiments"),
    PictureCategory(11, "tipsTricks")
  ]

  /** The table numbers its categories 1 to 11 in order. */
  lemma PictureCategoryIds()
    ensures |PictureCategories| == 11
    ensures forall i :: 0 <= i < |PictureCategories| ==> PictureCategories[i].id == i + 1
  {
  }

  /** `pictureCategories.find(cat => cat.id === parseInt(categoryId))`: `NaN` finds none. */
  function FindPictureCategory(categoryId: string): (r: Option<PictureCategory>)
    ensures r.Some? ==> r.value in PictureCategories && Some(r.value.id) == ParseInt(categoryId)
  {
    match ParseInt(categoryId)
    case None => None
    case Some(c) => FindByKey(PictureCategories, (x: PictureCategory) => x.id, c)
  }

  /** The route finds a category exactly when `parseInt` reads a number from 1 to 11, and then the one with that number. */
  lemma PictureCategoryFound(categoryId: string)
    ensures FindPictureCategory(categoryId).Some? <==> ParseInt(categoryId).Some? && 1 <= ParseInt(categoryId).value <= 11
    ensures FindPictureCategory(categoryId).Some? ==>
      FindPictureCategory(categoryId).value == PictureCategories[ParseInt(categoryId).value - 1]
  {
    PictureCategoryIds();
    var n := ParseInt(categoryId);
    if n.Some? && 1 <= n.value <= 11 {
      assert PictureCategories[n.value - 1].id == n.value;
    }
    if FindPictureCategory(categoryId).Some? {
      var r := FindPictureCategory(categoryId).value;
      var i :| 0 <= i < |PictureCategories| && PictureCategories[i] == r;
      assert i == n.value - 1;
    }
  }

  /**
   * `parseInt` of a route that names a board key instead of a number: NaN
   * (`None`) for every key but "3dpen", whose leading digit reads as 3. The
   * pins hook skips NaN, and for "3dpen" asks for the recycling category.
   */
  lemma BoardKeyRouteIds(id: int)
    requires 1 <= id <= 11
    ensures id != 8 ==> ParseInt(BoardKey(id).value).None?
    ensures id == 8 ==> ParseInt(BoardKey(id).value) == Some(3)
  {
    var key := BoardKey(id).value;
    if id == 8 {
      assert key == "3dpen";
      ThreeDPenReadsThree();
    } else {
      BoardKeysLetterFirst(id);
      LetterFirstNaN(key);
    }
  }

  /** Every board key but "3dpen" starts with a lower-case letter. */
  lemma BoardKeysLetterFirst(id: int)
    requires 1 <= id <= 11 && id != 8
    ensures 'a' <= BoardKey(id).value[0] <= 'z'
  {
  }

  /** `parseInt("3dpen")` reads the leading digit and stops at the letter. */
  lemma ThreeDPenReadsThree()
    ensures ParseInt("3dpen") == Some(3)
  {
    var key := "3dpen";
    assert !IsSpace(key[0]);
    assert TrimStart(key) == key;
    assert DigitRun(key[1..], 10) == 0;
    assert DigitRun(key, 10) == 1;
    assert key[..1] == "3";
    assert DigitsValue(key[..1], 10) == DigitsValue([], 10) * 10 + 3;
  }

  /** Text that starts with a lower-case letter has no leading number: `parseInt` gives NaN. */
  lemma LetterFirstNaN(s: string)
    requires s != [] && 'a' <= s[0] <= 'z'
    ensures ParseInt(s).None?
  {
    assert !IsSpace(s[0]);
    assert TrimStart(s) == s;
    assert DigitRun(s, 10) == 0;
  }

  /** `categoryToPinterestBoard`: the board key of each category. */
  function BoardKey(id: int): (r: Option<string>)
    ensures r.Some? <==> 1 <= id <= 11
  {
    if id == 1 then Some("origami")
    else if id == 2 then Some("drawing")
    else if id == 3 then Some("recycling")
    else if id == 4 then Some("beads")
    else if id == 5 then Some("clay")
    else if id == 6 then Some("preschool")
    else if id == 7 then Some("perler")
    else if id == 8 then Some("3dpen")
    else if id == 9 then Some("miniature")
    else if id == 10 then Some("science")
    else if id == 11 then Some("tips")
    else None
  }

  /** How many curated images the gallery asks for, and how many placeholders it makes. */
  const GallerySize := 12

  /** One image of the gallery, by where it came from. */
  datatype GalleryImage =
    | FromPin(pinId: string, title: string, url: Option<string>, description: string, link: Option<string>, altText: string)
    | Curated(image: CuratedImage)
    | LocalDrawing(number: int)
    | Placeholder(number: int, title: string, description: string)

  /** The translated title of a category. */
  function CategoryTitle(c: PictureCategory, tr: string -> string): string {
    tr("pictures.categories." + c.key)
  }

  /** A pin as a gallery image: its own title, image and description, each with a fallback. */
  function PinImage(p: Pin, c: PictureCategory, tr: string -> string): (r: GalleryImage)
    ensures r.FromPin? && r.pinId == p.id && r.link == p.link && r.altText == p.altText
    ensures p.title != "" ==> r.title == p.title
    ensures p.description != "" ==> r.description == p.description
    ensures p.imageUrl.Some? && p.imageUrl.value != "" ==> r.url == p.imageUrl
    ensures p.title == "" ==> r.title == CategoryTitle(c, tr) + " Pin"
    ensures !Truthy(p.imageUrl) ==> r.url == p.thumbnailUrl
    ensures p.description == "" && p.note != "" ==> r.description == p.note
    ensures p.description == "" && p.note == "" ==>
      r.description == "Beautiful " + Lower(CategoryTitle(c, tr)) + " from Pinterest"
  {
    FromPin(
      p.id,
      if p.title != "" then p.title else CategoryTitle(c, tr) + " Pin",
      if Truthy(p.imageUrl) then p.imageUrl else p.thumbnailUrl,
      if p.description != "" then p.description
      else if p.note != "" then p.note
      else "Beautiful " + Lower(CategoryTitle(c, tr)) + " from Pinterest",
      p.link,
      p.altText)
  }

  /** The local drawings: eight of them. */
  const LocalDrawingCount := 8

  /**
   * `getImagesForCategory()`: the hook's pins when there are any; else the
   * first twelve curated images of the category's board; else, for the
   * drawing category, the local drawings; else twelve placeholders.
   */
  function GalleryImages(c: PictureCategory, pins: seq<Pin>, tr: string -> string): (r: seq<GalleryImage>)
    ensures |pins| > 0 ==> |r| == |pins| && forall i :: 0 <= i < |r| ==> r[i] == PinImage(pins[i], c, tr)
    ensures |pins| == 0 && BoardKey(c.id).Some? && |GetCuratedImages(BoardKey(c.id).value, GallerySize)| > 0 ==>
      var imgs := GetCuratedImages(BoardKey(c.id).value, GallerySize);
      |r| == |imgs| && forall i :: 0 <= i < |r| ==> r[i] == Curated(imgs[i])
    ensures |pins| == 0 && (BoardKey(c.id).None? || |GetCuratedImages(BoardKey(c.id).value, GallerySize)| == 0) ==>
      if c.id == 2 then |r| == LocalDrawingCount && forall i :: 0 <= i < |r| ==> r[i] == LocalDrawing(i + 1)
      else |r| == GallerySize && forall i :: 0 <= i < |r| ==> r[i].Placeholder? && r[i].number == i + 1
    ensures |r| > 0
  {
    if |pins| > 0 then seq(|pins|, i requires 0 <= i < |pins| => PinImage(pins[i], c, tr))
    else
      var board := BoardKey(c.id);
      var embedded := if board.Some? then GetCuratedImages(board.value, GallerySize) else [];
      if |embedded| > 0 then seq(|embedded|, i requires 0 <= i < |embedded| => Curated(embedded[i]))
      else LocalGallery(c, tr)
  }

  /** The gallery without pins or curated images: the local drawings for the drawing category, else placeholders. */
  function LocalGallery(c: PictureCategory, tr: string -> string): seq<GalleryImage> {
    if c.id == 2 then seq(LocalDrawingCount, i => LocalDrawing(i + 1))
    else seq(GallerySize, i => Placeholder(i + 1, CategoryTitle(c, tr) + " " + IntToString(i + 1),
      "Beautiful example of " + Lower(CategoryTitle(c, tr))))
  }

  /** The board key of every picture category is a key of the curated table. */
  lemma BoardKeysCurated(id: int)
    requires 1 <= id <= 11
    ensures BoardKey(id).value in CuratedImages
  {
    CuratedKeySet();
  }

  /** The board key of every picture category has curated images. */
  lemma BoardsHaveCuratedImages(id: int)
    requires 1 <= id <= 11 && BoardKey(id).value in CuratedImages
    ensures |CuratedImages[BoardKey(id).value]| > 0
  {
    CuratedTableShape();
  }

  /**
   * Without pins, the gallery of every category is the curated list of its
   * board, at most twelve, all Pinterest images of that board: the local
   * drawings and the placeholders are never reached.
   */
  lemma NoPinsMeansCurated(c: PictureCategory, tr: string -> string)
    requires c in PictureCategories
    ensures var r := GalleryImages(c, [], tr);
      var imgs := GetCuratedImages(BoardKey(c.id).value, GallerySize);
      && 0 < |r| <= GallerySize
      && |r| == |imgs| && (forall i :: 0 <= i < |r| ==> r[i] == Curated(imgs[i]))
      && forall i :: 0 <= i < |r| ==> (r[i].Curated? && r[i].image.isPinterest
        && r[i].image.boardUrl == Boards[BoardKey(c.id).value])
  {
    PictureCategoryIds();
    var k :| 0 <= k < |PictureCategories| && PictureCategories[k] == c;
    BoardKeysCurated(c.id);
    BoardsHaveCuratedImages(c.id);
    CuratedImagesOnBoard(BoardKey(c.id).value, GallerySize);
  }

  /** The address the gallery shows for an image: `image.url`, a field a curated image does not have. */
  function ImageSrc(image: GalleryImage): (r: Option<string>)
    ensures image.Curated? ==> r.None?
    ensures image.FromPin? ==> r == image.url
  {
    match image
    case FromPin(_, _, url, _, _, _) => url
    case Curated(_) => None
    case LocalDrawing(_) => Some("drawing")
    case Placeholder(_, _, _) => Some("placeholder")
  }

  /**
   * The curated images carry their address as `imageUrl`, so without pins
   * every picture of every category is drawn without a source.
   */
  lemma NoPinsNoSources(c: PictureCategory, tr: string -> string)
    requires c in PictureCategories
    ensures forall i :: 0 <= i < |GalleryImages(c, [], tr)| ==> ImageSrc(GalleryImages(c, [], tr)[i]).None?
  {
    NoPinsMeansCurated(c, tr);
  }

  /** A pin from the service always has a title, so its own title is shown. */
  lemma PinTitlesKept(raw: RawPin, c: PictureCategory, tr: string -> string)
    ensures PinImage(TransformPin(raw), c, tr).title == TransformPin(raw).title
  {
  }

  /** The action selector: the picked image, its position, and whether it is open. */
  class Selection {
    var selectedImage: Option<GalleryImage>
    var showActionSelector: bool
    var selectedImageIndex: int

    /** An open selector always has an image. */
    predicate Valid()
      reads this
    {
      showActionSelector ==> selectedImage.Some?
    }

    constructor ()
      ensures Valid() && selectedImage.None? && !showActionSelector && selectedImageIndex == 0
    {
      selectedImage := None;
      showActionSelector := false;
      selectedImageIndex := 0;
    }

    /** `handleImageClick(image, index)`. */
    method HandleImageClick(image: GalleryImage, index: int)
      modifies this
      ensures Valid()
      ensures selectedImage == Some(image) && selectedImageIndex == index && showActionSelector
    {
      selectedImage := Some(image);
      selectedImageIndex := index;
      showActionSelector := true;
    }

    /** `closeActionSelector()`: the image is dropped, the position is kept. */
    method Close()
      modifies this
      ensures Valid()
      ensures selectedImage.None? && !showActionSelector && selectedImageIndex == old(selectedImageIndex)
    {
      showActionSelector := false;
      selectedImage := None;
    }
  }
}
