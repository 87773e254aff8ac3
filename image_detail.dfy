/**
 * The page of one curated image (src/components/Pinterest/ImageDetailPage.jsx):
 * the image with the route's id among the first twenty curated images of
 * the route's board key, up to six other images of that board, and the
 * breadcrumb label of the board.
 */
module ImageDetail {
  import opened Wrappers
  import opened Text
  import opened Videos
  import opened PinterestEmbedApi

  /** How many curated images the page looks through, and how many others it lists. */
  const SearchLimit := 20
  const RelatedLimit := 6

  /** `images.find(img => img.id === imageId)`. */
  function FindImage(images: seq<CuratedImage>, imageId: string): (r: Option<CuratedImage>)
    ensures r.None? <==> forall i :: 0 <= i < |images| ==> images[i].id != imageId
    ensures r.Some? ==> r.value in images && r.value.id == imageId
    ensures r.Some? ==> exists i :: 0 <= i < |images| && images[i] == r.value && forall j :: 0 <= j < i ==> images[j].id != imageId
  {
    FindByKey(images, (img: CuratedImage) => img.id, imageId)
  }

  /** `img => img.id !== imageId`. */
  function OtherThan(imageId: string): CuratedImage -> bool {
    (img: CuratedImage) => img.id != imageId
  }

  /** The related images: the first six of the list whose id is not `imageId`. */
  function RelatedImages(images: seq<CuratedImage>, imageId: string): (r: seq<CuratedImage>)
    ensures |r| <= RelatedLimit
    ensures forall i :: 0 <= i < |r| ==> r[i] in images && r[i].id != imageId
    ensures |r| == Min(RelatedLimit, |Filter(images, OtherThan(imageId))|)
    ensures r == Filter(images, OtherThan(imageId))[..|r|]
  {
    Take(Filter(images, OtherThan(imageId)), RelatedLimit)
  }

  /** The state of the page. */
  class ImageView {
    var image: Option<CuratedImage>
    var relatedImages: seq<CuratedImage>
    var loading: bool

    constructor ()
      ensures image.None? && relatedImages == [] && loading
    {
      image := None;
      relatedImages := [];
      loading := true;
    }

    /**
     * The effect on `[category, imageId]`. With both parameters present it
     * looks the image up, takes it and its related images when found, keeps
     * the previous ones when not, and stops loading; with either missing it
     * does nothing, so a page that was loading keeps loading.
     */
    method Load(category: string, imageId: string)
      modifies this
      ensures category == "" || imageId == "" ==>
        image == old(image) && relatedImages == old(relatedImages) && loading == old(loading)
      ensures category != "" && imageId != "" ==> !loading
      ensures category != "" && imageId != "" && FindImage(GetCuratedImages(category, SearchLimit), imageId).Some? ==>
        image == FindImage(GetCuratedImages(category, SearchLimit), imageId)
        && relatedImages == RelatedImages(GetCuratedImages(category, SearchLimit), imageId)
      ensures category != "" && imageId != "" && FindImage(GetCuratedImages(category, SearchLimit), imageId).None? ==>
        image == old(image) && relatedImages == old(relatedImages)
    {
      if category != "" && imageId != "" {
        loading := true;
        var images := GetCuratedImages(category, SearchLimit);
        var found := FindImage(images, imageId);
        if found.Some? {
          image := found;
          relatedImages := RelatedImages(images, imageId);
        }
        loading := false;
      }
    }
  }

  /**
   * A found image and its related images all belong to the board the route
   * names: Pinterest images whose board address is that board's.
   */
  lemma LoadedImagesOnBoard(category: string, imageId: string)
    requires FindImage(GetCuratedImages(category, SearchLimit), imageId).Some?
    ensures var img := FindImage(GetCuratedImages(category, SearchLimit), imageId).value;
      category in Boards && img.boardUrl == Boards[category] && img.isPinterest && img.id == imageId
    ensures forall i :: 0 <= i < |RelatedImages(GetCuratedImages(category, SearchLimit), imageId)| ==>
      RelatedImages(GetCuratedImages(category, SearchLimit), imageId)[i].boardUrl == Boards[category]
  {
    CuratedImagesOnBoard(category, SearchLimit);
  }

  /** A board key the table lacks shows no image at all. */
  lemma UnknownBoardNotFound(category: string, imageId: string)
    requires category !in CuratedImages
    ensures FindImage(GetCuratedImages(category, SearchLimit), imageId).None?
  {
  }

  /** `categoryNames[category] || category`: the board's English name, or the key itself. */
  function CategoryLabel(category: string): (r: string)
    ensures category !in BoardNames ==> r == category
    ensures category in BoardNames ==> r == BoardNames[category] && r != ""
  {
    if category in BoardNames then BoardNames[category] else category
  }

  const BoardNames: map<string, string> := map[
    "origami" := "Origami & Paper Crafts",
    "drawing" := "Drawing",
    "recycling" := "Recycling Art",
    "beads" := "Beads & Accessories",
    "clay" := "Clay Creations",
    "preschool" := "Preschool Crafts",
    "perler" := "Perler Beads",
    "3dpen" := "3D Pen Fun",
    "miniature" := "Miniature Wonders",
    "science" := "Science & DIY Experiments",
    "tips" := "Tips & Tricks"
  ]

  /** A related image opens the page of that image on the same board. */
  function RelatedImagePath(category: string, image: CuratedImage): (r: string)
    ensures StartsWith(r, "/pictures/image/" + category + "/")
    ensures r[|"/pictures/image/" + category + "/"|..] == image.id
  {
    "/pictures/image/" + category + "/" + image.id
  }
}
