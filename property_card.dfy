/** The property card's choices (PropertyCard.tsx): which image becomes the
    thumbnail, and the price shown. */
module PropertyCard {
  import opened Basics

  /** The stock photo used when a listing has no usable image. */
  const FallbackHost := "https://images.unsplash.com/"
  const FallbackImage := FallbackHost + "photo-1560518883-ce09059eeffa" + "?q=80&w=400"

  /** `displayImage`: the first entry of `images` when there is one, else the
      legacy single `image` field (None: the field is absent). */
  function DisplayImage(images: seq<string>, legacyImage: Option<string>): (r: Option<string>)
    ensures images != [] ==> r == Some(images[0])
    ensures images == [] ==> r == legacyImage
  {
    if |images| > 0 then Some(images[0]) else legacyImage
  }

  /** `imageUrl`: the candidate when it is present and starts with "http",
      otherwise the fallback photo. */
  function ThumbnailUrl(images: seq<string>, legacyImage: Option<string>): (r: string)
    ensures StartsWith(r, "http")
    ensures r == FallbackImage || Some(r) == DisplayImage(images, legacyImage)
    ensures (var c := DisplayImage(images, legacyImage);
             c.Some? && StartsWith(c.value, "http") ==> r == c.value)
  {
    var candidate := DisplayImage(images, legacyImage);
    if candidate.Some? && StartsWith(candidate.value, "http") then candidate.value
    else
      assert FallbackHost[..4] == "http";
      assert FallbackImage[..4] == FallbackHost[..4];
      FallbackImage
  }

  /** A first image that is not a web address falls back to the stock photo,
      whatever the legacy field says. */
  lemma NonWebImageFallsBack(images: seq<string>, legacyImage: Option<string>)
    requires images != [] && !StartsWith(images[0], "http")
    ensures ThumbnailUrl(images, legacyImage) == FallbackImage
  {
  }

  /** `property.price || 0` (None: the price is absent). */
  function DisplayPrice(price: Option<int>): (r: int)
    ensures price.Some? && price.value != 0 ==> r == price.value
    ensures r == 0 <==> price.None? || price.value == 0
  {
    if price.Some? && price.value != 0 then price.value else 0
  }
}
