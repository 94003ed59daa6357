/** The property detail view's gallery state (PropertyDetails.tsx): the
    shown image index and the horizontal touch positions of a swipe. */
module PropertyDetails {
  import opened Basics
  import opened Carousel

  class PropertyGallery {
    /** `allImages` of the property on display. */
    const images: seq<string>
    var activeImageIndex: int
    /** `touchStart` / `touchEnd`: the x positions, or null. */
    var touchStart: Option<int>
    var touchEnd: Option<int>

    predicate Valid()
      reads this
    {
      InRange(activeImageIndex, |images|)
    }

    /** Opening the view: the first image, no touch recorded. */
    constructor (propertyImages: seq<string>)
      ensures images == AllImages(propertyImages)
      ensures activeImageIndex == 0 && touchStart == None && touchEnd == None
      ensures Valid()
    {
      images := AllImages(propertyImages);
      activeImageIndex := 0;
      touchStart, touchEnd := None, None;
    }

    /** `nextImage`. */
    method NextImage()
      requires Valid()
      modifies this`activeImageIndex
      ensures Valid()
      ensures activeImageIndex == NextIndex(old(activeImageIndex), |images|)
    {
      if |images| > 1 {
        activeImageIndex := if activeImageIndex < |images| - 1 then activeImageIndex + 1 else 0;
      }
    }

    /** `prevImage`. */
    method PrevImage()
      requires Valid()
      modifies this`activeImageIndex
      ensures Valid()
      ensures activeImageIndex == PrevIndex(old(activeImageIndex), |images|)
    {
      if |images| > 1 {
        activeImageIndex := if activeImageIndex > 0 then activeImageIndex - 1 else |images| - 1;
      }
    }

    /** `onTouchStart`: a new touch forgets the last end position. */
    method OnTouchStart(x: int)
      modifies this`touchStart, this`touchEnd
      ensures touchEnd == None && touchStart == Some(x)
    {
      touchEnd := None;
      touchStart := Some(x);
    }

    /** `onTouchMove`. */
    method OnTouchMove(x: int)
      modifies this`touchEnd
      ensures touchEnd == Some(x)
    {
      touchEnd := Some(x);
    }

    /** `onTouchEnd`: show the previous or next image as the swipe decides. */
    method OnTouchEnd()
      requires Valid()
      modifies this`activeImageIndex
      ensures Valid()
      ensures activeImageIndex == AfterSwipe(old(activeImageIndex), |images|, SwipeDecision(touchStart, touchEnd))
    {
      if touchStart.None? || touchEnd.None? || touchStart.value == 0 || touchEnd.value == 0 {
        return;
      }
      var distance := touchStart.value - touchEnd.value;
      var isLeftSwipe := distance > MinSwipeDistance;
      var isRightSwipe := distance < -MinSwipeDistance;
      if isLeftSwipe {
        PrevImage();
      }
      if isRightSwipe {
        NextImage();
      }
    }
  }
}
