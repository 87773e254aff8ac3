/**
 * The full-screen image viewer (src/components/Pinterest/ImageModal.jsx):
 * which image it shows, how the arrows, thumbnails and keyboard move
 * through the list, and the loading/error flags each move resets. `T` is
 * the image record; the rendering is not modelled.
 */
module ImageModal {
  import opened Wrappers
  import opened Carousel

  /** The keys the `keydown` handler distinguishes. */
  datatype KeyName = Escape | ArrowLeft | ArrowRight | OtherKey

  /** `images[index] || image`: the list entry when there is one, else the single image. */
  function CurrentImage<T>(images: seq<T>, index: int, image: Option<T>): (r: Option<T>)
    ensures r.Some? <==> (0 <= index < |images| || image.Some?)
    ensures 0 <= index < |images| ==> r == Some(images[index])
    ensures r.Some? && !(0 <= index < |images|) ==> r == image
  {
    if 0 <= index < |images| then Some(images[index]) else image
  }

  /** What the modal renders: nothing while closed or when there is no image. */
  function Rendered<T>(isOpen: bool, images: seq<T>, index: int, image: Option<T>): (r: Option<T>)
    ensures r.Some? ==> isOpen
    ensures isOpen ==> r == CurrentImage(images, index, image)
  {
    if isOpen then CurrentImage(images, index, image) else None
  }

  /** The thumbnail strip exists only for 2 to 10 images. */
  predicate ThumbnailsShown(count: nat) {
    1 < count <= 10
  }

  /** An open modal with a non-empty list and an index inside it always shows a list entry. */
  lemma OpenInRangeRenders<T>(images: seq<T>, index: int, image: Option<T>)
    requires 0 <= index < |images|
    ensures Rendered(true, images, index, image) == Some(images[index])
    ensures Rendered(false, images, index, image) == None
  {
  }

  class Modal<T> {
    const isOpen: bool
    const image: Option<T>
    const images: seq<T>
    var index: int
    var isLoading: bool
    var imageError: bool
    /** How many times `onClose` has been called. */
    var closeRequests: nat

    /** The first render: the index comes from the `currentIndex` prop, and the image is loading. */
    constructor (isOpen: bool, image: Option<T>, images: seq<T>, currentIndex: int)
      ensures this.isOpen == isOpen && this.image == image && this.images == images
      ensures index == currentIndex && isLoading && !imageError && closeRequests == 0
    {
      this.isOpen := isOpen;
      this.image := image;
      this.images := images;
      index := currentIndex;
      isLoading := true;
      imageError := false;
      closeRequests := 0;
    }

    /** `goToNext`: with more than one image, step forward with wrap-around and reload. */
    method GoToNext()
      modifies this
      ensures |images| > 1 ==> index == NextIndex(old(index), |images|) && isLoading && !imageError
      ensures |images| <= 1 ==> index == old(index) && isLoading == old(isLoading) && imageError == old(imageError)
      ensures closeRequests == old(closeRequests)
    {
      if |images| > 1 {
        index := NextIndex(index, |images|);
        isLoading := true;
        imageError := false;
      }
    }

    /** `goToPrevious`: with more than one image, step back with wrap-around and reload. */
    method GoToPrevious()
      modifies this
      ensures |images| > 1 ==> index == PrevIndex(old(index), |images|) && isLoading && !imageError
      ensures |images| <= 1 ==> index == old(index) && isLoading == old(isLoading) && imageError == old(imageError)
      ensures closeRequests == old(closeRequests)
    {
      if |images| > 1 {
        index := PrevIndex(index, |images|);
        isLoading := true;
        imageError := false;
      }
    }

    /** A thumbnail click: only rendered thumbnails can be clicked. */
    method SelectThumbnail(k: nat)
      requires ThumbnailsShown(|images|) && k < |images|
      modifies this
      ensures index == k && isLoading && !imageError
      ensures closeRequests == old(closeRequests)
    {
      index := k;
      isLoading := true;
      imageError := false;
    }

    /** The image finished loading. */
    method ImageLoaded()
      modifies this
      ensures !isLoading && index == old(index) && imageError == old(imageError)
      ensures closeRequests == old(closeRequests)
    {
      isLoading := false;
    }

    /** The image failed to load. */
    method ImageFailed()
      modifies this
      ensures !isLoading && imageError && index == old(index)
      ensures closeRequests == old(closeRequests)
    {
      isLoading := false;
      imageError := true;
    }

    /** The `keydown` handler: ignored while closed; Escape closes, the arrows navigate. */
    method KeyPress(key: KeyName)
      modifies this
      ensures !isOpen || key == OtherKey ==>
        && index == old(index) && isLoading == old(isLoading) && imageError == old(imageError)
        && closeRequests == old(closeRequests)
      ensures isOpen && key == Escape ==>
        && closeRequests == old(closeRequests) + 1 && index == old(index)
        && isLoading == old(isLoading) && imageError == old(imageError)
      ensures isOpen && key == ArrowLeft && |images| > 1 ==> index == PrevIndex(old(index), |images|)
      ensures isOpen && key == ArrowRight && |images| > 1 ==> index == NextIndex(old(index), |images|)
      ensures isOpen && (key == ArrowLeft || key == ArrowRight) ==>
        && closeRequests == old(closeRequests)
        && (|images| > 1 ==> isLoading && !imageError)
        && (|images| <= 1 ==> index == old(index) && isLoading == old(isLoading) && imageError == old(imageError))
    {
      if !isOpen {
        return;
      }
      match key
      case Escape => closeRequests := closeRequests + 1;
      case ArrowLeft => GoToPrevious();
      case ArrowRight => GoToNext();
      case OtherKey =>
    }

    /** The effect on a new `currentIndex` prop: the index follows it, the flags stay. */
    method CurrentIndexChanged(currentIndex: int)
      modifies this
      ensures index == currentIndex && isLoading == old(isLoading) && imageError == old(imageError)
      ensures closeRequests == old(closeRequests)
    {
      index := currentIndex;
    }
  }

  /** Navigation keeps an index that starts inside the list inside it, and back undoes forward. */
  lemma NavigationStaysInRange(index: int, count: nat)
    requires 1 < count && 0 <= index < count
    ensures 0 <= NextIndex(index, count) < count && 0 <= PrevIndex(index, count) < count
    ensures PrevIndex(NextIndex(index, count), count) == index
  {
    PrevUndoesNext(index, count);
  }
}
