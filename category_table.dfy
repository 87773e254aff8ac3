/**
 * The category table of the site (src/mockData/categoriesData.js): ten
 * categories, numbered 1 to 10, each with the translation key of its title.
 * Icons, colours and banner images are presentation and are not modelled.
 */
module CategoryTable {
  datatype Category = Category(id: int, titleKey: string)

  /** `categoriesData`, in table order. */
  const Categories: seq<Category> := [
    Category(1, "categories.origamiWorld"),
    Category(2, "categories.drawing"),
    Category(3, "categories.recyclingArt"),
    Category(4, "categories.beadsJewelry"),
    Category(5, "categories.clay"),
    Category(6, "categories.preschoolCrafts"),
    Category(7, "categories.perlerBeads"),
    Category(8, "categories.threeDPenFun"),
    Category(9, "categories.scienceDiy"),
    Category(10, "categories.miniatureWonders")
  ]

  /** The table numbers its categories 1 to 10 in order. */
  lemma CategoryIds()
    ensures |Categories| == 10
    ensures forall i :: 0 <= i < |Categories| ==> Categories[i].id == i + 1
  {
  }
}
