/**
 * The sample-image service used in place of the Pinterest API
 * (src/services/pinterestEmbedService.js): board addresses by category id,
 * the sample images of categories 1 to 4, and the lookups over them.
 *
 * The object tables are indexed by number in the source; a number key reads
 * the property named by its decimal text, so the tables are modelled as maps
 * over `int` and the property names as `IntToString(k)`.
 */
module PinterestEmbedService {
  import opened Wrappers
  import opened Text
  import PinterestEmbedApi
  import opened FeaturedMap

  /** An entry of the sample-image table. */
  datatype SampleImage = SampleImage(
    id: string,
    title: string,
    imageUrl: string,
    description: string,
    link: string,
    isPinterest: bool)

  /** The account whose boards the service points at. */
  const User := "mariamhammouda"

  /** The address of board `slug` of that account. */
  function BoardUrl(slug: string): string {
    PinterestEmbedApi.BoardAddress(User, slug)
  }

  /** `PINTEREST_BOARD_URLS`: category id to board address. */
  const BoardUrls: map<int, string> := map[
    1 := BoardUrl("origami-paper-crafts"),
    2 := BoardUrl("drawing"),
    3 := BoardUrl("recycling-art"),
    4 := BoardUrl("beads-accessories"),
    5 := BoardUrl("clay-creations"),
    6 := BoardUrl("preschool-crafts"),
    7 := BoardUrl("perler-beads"),
    8 := BoardUrl("3d-pen-fun"),
    9 := BoardUrl("science-diy-experiments"),
    10 := BoardUrl("miniature-wonders"),
    11 := BoardUrl("tips-tricks")
  ]

  /** `PINTEREST_SAMPLE_IMAGES`: category id to its sample images. */
  const SampleImages: map<int, seq<SampleImage>> := map[
    1 := OrigamiSamples,
    2 := DrawingSamples,
    3 := RecyclingSamples,
    4 := BeadsSamples
  ]

  /** `Object.keys(PINTEREST_SAMPLE_IMAGES)`: integer-like keys come in ascending order. */
  const SampleKeys: seq<int> := [1, 2, 3, 4]

  const OrigamiSamples: seq<SampleImage> := [
    SampleImage("origami_1", "Beautiful Origami Flowers",
      "https://i.pinimg.com/236x/8b/9a/7c/8b9a7c4e5f6d8a9b2c3e4f5a6b7c8d9e.jpg",
      "Step-by-step origami flower tutorial", BoardUrl("origami-paper-crafts"), true),
    SampleImage("origami_2", "Paper Craft Animals",
      "https://i.pinimg.com/236x/1a/2b/3c/1a2b3c4d5e6f7a8b9c0d1e2f3a4b5c6d.jpg",
      "Cute paper animals for kids", BoardUrl("origami-paper-crafts"), true),
    SampleImage("origami_3", "Colorful Paper Butterflies",
      "https://i.pinimg.com/236x/9e/8d/7c/9e8d7c6b5a4f3e2d1c0b9a8f7e6d5c4b.jpg",
      "Easy paper butterfly craft", BoardUrl("origami-paper-crafts"), true)
  ]

  const DrawingSamples: seq<SampleImage> := [
    SampleImage("drawing_1", "Easy Drawing Tutorials",
      "https://i.pinimg.com/236x/2c/3d/4e/2c3d4e5f6a7b8c9d0e1f2a3b4c5d6e7f.jpg",
      "Step-by-step drawing guides", BoardUrl("drawing"), true),
    SampleImage("drawing_2", "Character Drawing Ideas",
      "https://i.pinimg.com/236x/5f/6a/7b/5f6a7b8c9d0e1f2a3b4c5d6e7f8a9b0c.jpg",
      "Fun character sketches for beginners", BoardUrl("drawing"), true),
    SampleImage("drawing_3", "Nature Drawing Inspiration",
      "https://i.pinimg.com/236x/8c/9d/0e/8c9d0e1f2a3b4c5d6e7f8a9b0c1d2e3f.jpg",
      "Beautiful nature sketches", BoardUrl("drawing"), true)
  ]

  const RecyclingSamples: seq<SampleImage> := [
    SampleImage("recycling_1", "Plastic Bottle Crafts",
      "https://i.pinimg.com/236x/0f/1a/2b/0f1a2b3c4d5e6f7a8b9c0d1e2f3a4b5c.jpg",
      "Creative recycling projects", BoardUrl("recycling-art"), true),
    SampleImage("recycling_2", "Cardboard Art Projects",
      "https://i.pinimg.com/236x/3c/4d/5e/3c4d5e6f7a8b9c0d1e2f3a4b5c6d7e8f.jpg",
      "Upcycled cardboard creations", BoardUrl("recycling-art"), true),
    SampleImage("recycling_3", "Eco-Friendly Crafts",
      "https://i.pinimg.com/236x/6f/7a/8b/6f7a8b9c0d1e2f3a4b5c6d7e8f9a0b1c.jpg",
      "Sustainable craft ideas", BoardUrl("recycling-art"), true)
  ]

  const BeadsSamples: seq<SampleImage> := [
    SampleImage("beads_1", "Beaded Jewelry Making",
      "https://i.pinimg.com/236x/9c/0d/1e/9c0d1e2f3a4b5c6d7e8f9a0b1c2d3e4f.jpg",
      "Beautiful beaded accessories", BoardUrl("beads-accessories"), true),
    SampleImage("beads_2", "Colorful Bead Patterns",
      "https://i.pinimg.com/236x/2f/3a/4b/2f3a4b5c6d7e8f9a0b1c2d3e4f5a6b7c.jpg",
      "Creative bead designs", BoardUrl("beads-accessories"), true),
    SampleImage("beads_3", "DIY Hair Accessories",
      "https://i.pinimg.com/236x/5c/6d/7e/5c6d7e8f9a0b1c2d3e4f5a6b7c8d9e0f.jpg",
      "Handmade hair decorations", BoardUrl("beads-accessories"), true)
  ]

  /** The key list enumerates the table: every key once, nothing else. */
  lemma SampleKeysExact()
    ensures forall k :: k in SampleImages <==> k in SampleKeys
    ensures forall i, j :: 0 <= i < j < |SampleKeys| ==> SampleKeys[i] != SampleKeys[j]
  {
  }

  /** Every sample list has three images, all Pinterest images linking to their category's board. */
  lemma SampleListsShape()
    ensures forall k :: k in SampleImages ==>
      && k in BoardUrls
      && |SampleImages[k]| == 3
      && forall i :: 0 <= i < |SampleImages[k]| ==>
           SampleImages[k][i].link == BoardUrls[k] && SampleImages[k][i].isPinterest
  {
    assert SampleImages[1] == OrigamiSamples && BoardUrls[1] == BoardUrl("origami-paper-crafts");
    assert SampleImages[2] == DrawingSamples && BoardUrls[2] == BoardUrl("drawing");
    assert SampleImages[3] == RecyclingSamples && BoardUrls[3] == BoardUrl("recycling-art");
    assert SampleImages[4] == BeadsSamples && BoardUrls[4] == BoardUrl("beads-accessories");
  }

  // ---------------------------------------------------------- getPinterestImages

  /**
   * `getPinterestImages(categoryId, limit = 6)`: the first `limit` sample
   * images of the category (a negative `limit` drops that many from the
   * end), or none for a category without samples.
   */
  function GetPinterestImages(categoryId: int, limit: int := 6): (r: seq<SampleImage>)
    ensures categoryId !in SampleImages ==> r == []
    ensures categoryId in SampleImages && 0 <= limit ==>
      r == SampleImages[categoryId][..Min(limit, |SampleImages[categoryId]|)]
    ensures categoryId in SampleImages && limit < 0 ==>
      r == SampleImages[categoryId][..Max(|SampleImages[categoryId]| + limit, 0)]
    ensures forall i :: 0 <= i < |r| ==>
      categoryId in BoardUrls && r[i].link == BoardUrls[categoryId] && r[i].isPinterest
  {
    SampleListsShape();
    Take(if categoryId in SampleImages then SampleImages[categoryId] else [], limit)
  }

  // --------------------------------------------------- getFeaturedPinterestImages

  /** The first `n` sample images of each category. */
  function SampleSlices(n: int): int -> seq<SampleImage> {
    k => GetPinterestImages(k, n)
  }

  /**
   * `getFeaturedPinterestImages(imagesPerCategory = 3)`: for each key of the
   * sample table in order, the key text is parsed back to a number and the
   * category's first `imagesPerCategory` images are kept under the key text
   * when there are any.
   */
  method GetFeaturedPinterestImages(imagesPerCategory: int := 3) returns (featured: map<string, seq<SampleImage>>)
    ensures featured == FeaturedFrom(SampleKeys, SampleSlices(imagesPerCategory))
    ensures forall k :: k in SampleImages ==>
      (IntToString(k) in featured <==> |GetPinterestImages(k, imagesPerCategory)| > 0)
    ensures forall k :: k in SampleImages && IntToString(k) in featured ==>
      featured[IntToString(k)] == GetPinterestImages(k, imagesPerCategory)
    ensures forall key :: key in featured ==> exists k :: k in SampleImages && key == IntToString(k)
  {
    featured := CollectFeatured(SampleKeys, SampleSlices(imagesPerCategory));
    FeaturedSamples(imagesPerCategory);
  }

  /** The featured map over the sample keys holds each sample category whose slice is non-empty, with that slice. */
  lemma FeaturedSamples(n: int)
    ensures var featured := FeaturedFrom(SampleKeys, SampleSlices(n));
      && (forall k :: k in SampleImages ==> (IntToString(k) in featured <==> |GetPinterestImages(k, n)| > 0))
      && (forall k :: k in SampleImages && IntToString(k) in featured ==> featured[IntToString(k)] == GetPinterestImages(k, n))
      && (forall key :: key in featured ==> exists k :: k in SampleImages && key == IntToString(k))
  {
    var slices := SampleSlices(n);
    SampleKeysExact();
    FeaturedFromEntries(SampleKeys, slices);
    assert forall k :: slices(k) == GetPinterestImages(k, n);
  }

  /**
   * With the shipped table the featured keys are exactly the four sample
   * categories for any size that leaves a slice non-empty, and none for a
   * size of 0 or of -3 and below.
   */
  lemma FeaturedCategories(imagesPerCategory: int, k: int)
    requires k in SampleImages
    ensures |GetPinterestImages(k, imagesPerCategory)| > 0 <==> imagesPerCategory > 0 || -3 < imagesPerCategory < 0
  {
    SampleListsShape();
  }

  // ---------------------------------------------------------- getPinterestBoardUrl

  /** `getPinterestBoardUrl(categoryId)`: the board address of ids 1 to 11, else null. */
  function GetPinterestBoardUrl(categoryId: int): (r: Option<string>)
    ensures r.Some? <==> 1 <= categoryId <= 11
    ensures r.Some? ==> r.value == BoardUrls[categoryId] && r.value != []
  {
    if categoryId in BoardUrls && BoardUrls[categoryId] != [] then Some(BoardUrls[categoryId]) else None
  }

  // ----------------------------------------------------------- hasPinterestContent

  /** `hasPinterestContent(categoryId)`: whether the category has sample images. */
  function HasPinterestContent(categoryId: int): (r: bool)
    ensures r <==> 1 <= categoryId <= 4
  {
    SampleListsShape();
    categoryId in SampleImages && |SampleImages[categoryId]| > 0
  }

  /** A category has content exactly when a positive-size request returns images. */
  lemma ContentIffImages(categoryId: int, limit: int)
    requires limit > 0
    ensures HasPinterestContent(categoryId) <==> |GetPinterestImages(categoryId, limit)| > 0
  {
    SampleListsShape();
  }
}
