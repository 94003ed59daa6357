/** The job detail view's gallery state (JobDetails.tsx): the shown image
    index, moved by the next and previous buttons and keys. */
module JobDetails {
  import opened Carousel

  class JobGallery {
    /** `allImages` of the job on display. */
    const images: seq<string>
    var activeImageIndex: int

    predicate Valid()
      reads this
    {
      InRange(activeImageIndex, |images|)
    }

    constructor (jobImages: seq<string>)
      ensures images == AllImages(jobImages)
      ensures activeImageIndex == 0
      ensures Valid()
    {
      images := AllImages(jobImages);
      activeImageIndex := 0;
    }

    /** `nextImage`. */
    method NextImage()
      requires Valid()
      modifies this`activeImageIndex
      ensures Valid()
      ensures activeImageIndex == NextIndex(old(activeImageIndex), |images|)
    {
      if |images| > 1 {
        activeImageIndex := if activeImageIndex < |images| - 1 then activeImageIndex + 1 else 0;
      }
    }

    /** `prevImage`. */
    method PrevImage()
      requires Valid()
      modifies this`activeImageIndex
      ensures Valid()
      ensures activeImageIndex == PrevIndex(old(activeImageIndex), |images|)
    {
      if |images| > 1 {
        activeImageIndex := if activeImageIndex > 0 then activeImageIndex - 1 else |images| - 1;
      }
    }
  }
}
