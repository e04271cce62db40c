/** The image analyzer: alt text (missing, empty, generic, long), explicit dimensions and lazy
    loading. */
module Images {
  import opened Wrappers
  import opened HtmlTypes
  import Text

  /** The words a generic alt text consists of, matched whole and without regard to ASCII case. */
  const GenericAltWords: seq<string> :=
    ["image", "photo", "picture", "img", "graphic", "icon", "logo", "banner", "untitled"]

  /** The longest alt text that is not flagged as long. */
  const MaxAltLength := 125

  predicate IsMissingAlt(img: ImageInfo) {
    !img.hasAlt
  }

  predicate IsEmptyAlt(img: ImageInfo) {
    img.hasAlt && img.alt == Some("")
  }

  /** An alt attribute with text in it; an attribute the parser reports as null is in none of the
      three alt classes. */
  predicate HasAltText(img: ImageInfo) {
    img.hasAlt && Present(img.alt)
  }

  predicate IsGenericAlt(img: ImageInfo) {
    HasAltText(img) && Text.ToLowerAscii(img.alt.value) in GenericAltWords
  }

  predicate IsLongAlt(img: ImageInfo) {
    HasAltText(img) && |img.alt.value| > MaxAltLength
  }

  predicate HasDimensions(img: ImageInfo) {
    Present(img.width) && Present(img.height)
  }

  predicate LacksDimensions(img: ImageInfo) {
    !HasDimensions(img)
  }

  predicate IsLazy(img: ImageInfo) {
    img.loading == Some("lazy")
  }

  /** The alt issues of one image: missing, else empty, else generic and long as they apply. */
  function AltIssues(img: ImageInfo): seq<ImageIssue> {
    if !img.hasAlt then [Issue(Error, MissingAlt, img)]
    else if img.alt == Some("") then [Issue(Warning, EmptyAlt, img)]
    else if Present(img.alt) then
      (if Text.ToLowerAscii(img.alt.value) in GenericAltWords then [Issue(Warning, GenericAlt, img)] else [])
      + (if |img.alt.value| > MaxAltLength then [Issue(Info, LongAlt, img)] else [])
    else []
  }

  /** The issues of one image: its alt issues, then a missing-dimensions issue. */
  function ImageIssues(img: ImageInfo): seq<ImageIssue> {
    AltIssues(img) + (if Present(img.width) && Present(img.height) then [] else [Issue(Warning, MissingDimensions, img)])
  }

  function ImagesIssues(images: seq<ImageInfo>): seq<ImageIssue> {
    Gather(images, ImageIssues)
  }

  /** The alt issues of one image, by type. */
  lemma AltIssueCounts(img: ImageInfo)
    ensures KindCount(AltIssues(img), MissingAlt) == (if IsMissingAlt(img) then 1 else 0)
    ensures KindCount(AltIssues(img), EmptyAlt) == (if IsEmptyAlt(img) then 1 else 0)
    ensures KindCount(AltIssues(img), GenericAlt) == (if IsGenericAlt(img) then 1 else 0)
    ensures KindCount(AltIssues(img), LongAlt) == (if IsLongAlt(img) then 1 else 0)
    ensures KindCount(AltIssues(img), MissingDimensions) == 0
  {
    if HasAltText(img) {
      var alt := img.alt.value;
      var generic: seq<ImageIssue> := if Text.ToLowerAscii(alt) in GenericAltWords then [Issue(Warning, GenericAlt, img)] else [];
      var long: seq<ImageIssue> := if |alt| > MaxAltLength then [Issue(Info, LongAlt, img)] else [];
      assert AltIssues(img) == generic + long;
      KindCountAppend(generic, long, MissingAlt);
      KindCountAppend(generic, long, EmptyAlt);
      KindCountAppend(generic, long, GenericAlt);
      KindCountAppend(generic, long, LongAlt);
      KindCountAppend(generic, long, MissingDimensions);
    }
  }

  /** The issues of one image, by type. */
  lemma ImageIssueCounts(img: ImageInfo)
    ensures KindCount(ImageIssues(img), MissingAlt) == (if IsMissingAlt(img) then 1 else 0)
    ensures KindCount(ImageIssues(img), EmptyAlt) == (if IsEmptyAlt(img) then 1 else 0)
    ensures KindCount(ImageIssues(img), GenericAlt) == (if IsGenericAlt(img) then 1 else 0)
    ensures KindCount(ImageIssues(img), LongAlt) == (if IsLongAlt(img) then 1 else 0)
    ensures KindCount(ImageIssues(img), MissingDimensions) == (if LacksDimensions(img) then 1 else 0)
  {
    var alt := AltIssues(img);
    var dims: seq<ImageIssue> := if Present(img.width) && Present(img.height) then [] else [Issue(Warning, MissingDimensions, img)];
    assert ImageIssues(img) == alt + dims;
    AltIssueCounts(img);
    KindCountAppend(alt, dims, MissingAlt);
    KindCountAppend(alt, dims, EmptyAlt);
    KindCountAppend(alt, dims, GenericAlt);
    KindCountAppend(alt, dims, LongAlt);
    KindCountAppend(alt, dims, MissingDimensions);
  }

  /** Each issue type occurs once per image of its class. */
  lemma ImagesIssuesCounts(images: seq<ImageInfo>)
    ensures KindCount(ImagesIssues(images), MissingAlt) == Count(images, IsMissingAlt)
    ensures KindCount(ImagesIssues(images), EmptyAlt) == Count(images, IsEmptyAlt)
    ensures KindCount(ImagesIssues(images), GenericAlt) == Count(images, IsGenericAlt)
    ensures KindCount(ImagesIssues(images), LongAlt) == Count(images, IsLongAlt)
    ensures KindCount(ImagesIssues(images), MissingDimensions) == Count(images, LacksDimensions)
  {
    forall img: ImageInfo
      ensures KindCount(ImageIssues(img), MissingAlt) == (if IsMissingAlt(img) then 1 else 0)
      ensures KindCount(ImageIssues(img), EmptyAlt) == (if IsEmptyAlt(img) then 1 else 0)
      ensures KindCount(ImageIssues(img), GenericAlt) == (if IsGenericAlt(img) then 1 else 0)
      ensures KindCount(ImageIssues(img), LongAlt) == (if IsLongAlt(img) then 1 else 0)
      ensures KindCount(ImageIssues(img), MissingDimensions) == (if LacksDimensions(img) then 1 else 0)
    {
      ImageIssueCounts(img);
    }
    GatherKindCount(images, ImageIssues, MissingAlt, IsMissingAlt);
    GatherKindCount(images, ImageIssues, EmptyAlt, IsEmptyAlt);
    GatherKindCount(images, ImageIssues, GenericAlt, IsGenericAlt);
    GatherKindCount(images, ImageIssues, LongAlt, IsLongAlt);
    GatherKindCount(images, ImageIssues, MissingDimensions, LacksDimensions);
  }

  /** No image is in two alt classes, so the three alt counters add up to at most the total. */
  lemma {:induction false} AltClassesBound(images: seq<ImageInfo>)
    ensures Count(images, IsMissingAlt) + Count(images, IsEmptyAlt) + Count(images, HasAltText) <= |images|
  {
    if |images| > 0 {
      AltClassesBound(images[..|images| - 1]);
    }
  }

  /** Every image either has both dimensions or lacks one. */
  lemma {:induction false} DimensionsPartition(images: seq<ImageInfo>)
    ensures Count(images, HasDimensions) + Count(images, LacksDimensions) == |images|
  {
    if |images| > 0 {
      DimensionsPartition(images[..|images| - 1]);
    }
  }

  /** One image's turn in the pass: its issues are appended and its counters bumped. */
  method ImageStep(img: ImageInfo, issues: seq<ImageIssue>, stats: ImageStats)
    returns (issues': seq<ImageIssue>, stats': ImageStats)
    ensures issues' == issues + ImageIssues(img)
    ensures stats'.total == stats.total
    ensures stats'.missingAlt == stats.missingAlt + (if IsMissingAlt(img) then 1 else 0)
    ensures stats'.emptyAlt == stats.emptyAlt + (if IsEmptyAlt(img) then 1 else 0)
    ensures stats'.withAlt == stats.withAlt + (if HasAltText(img) then 1 else 0)
    ensures stats'.withDimensions == stats.withDimensions + (if HasDimensions(img) then 1 else 0)
    ensures stats'.withLazyLoading == stats.withLazyLoading + (if IsLazy(img) then 1 else 0)
  {
    issues', stats' := issues, stats;
    if !img.hasAlt {
      stats' := stats'.(missingAlt := stats'.missingAlt + 1);
      issues' := issues' + [Issue(Error, MissingAlt, img)];
    } else if img.alt == Some("") {
      stats' := stats'.(emptyAlt := stats'.emptyAlt + 1);
      issues' := issues' + [Issue(Warning, EmptyAlt, img)];
    } else if img.alt.Some? && img.alt.value != "" {
      stats' := stats'.(withAlt := stats'.withAlt + 1);
      var altText := img.alt.value;
      if Text.ToLowerAscii(altText) in GenericAltWords {
        issues' := issues' + [Issue(Warning, GenericAlt, img)];
      }
      if |altText| > MaxAltLength {
        issues' := issues' + [Issue(Info, LongAlt, img)];
      }
    }
    assert issues' == issues + AltIssues(img);
    if Present(img.width) && Present(img.height) {
      stats' := stats'.(withDimensions := stats'.withDimensions + 1);
    } else {
      issues' := issues' + [Issue(Warning, MissingDimensions, img)];
    }
    if img.loading == Some("lazy") {
      stats' := stats'.(withLazyLoading := stats'.withLazyLoading + 1);
    }
  }

  /** The image pass: the issues and the five counters, image by image. */
  method ImagePass(images: seq<ImageInfo>) returns (issues: seq<ImageIssue>, stats: ImageStats)
    ensures issues == ImagesIssues(images)
    ensures stats.total == |images|
    ensures stats.missingAlt == Count(images, IsMissingAlt)
    ensures stats.emptyAlt == Count(images, IsEmptyAlt)
    ensures stats.withAlt == Count(images, HasAltText)
    ensures stats.withDimensions == Count(images, HasDimensions)
    ensures stats.withLazyLoading == Count(images, IsLazy)
  {
    issues := [];
    stats := ImageStats(|images|, 0, 0, 0, 0, 0);
    var i := 0;
    while i < |images|
      invariant 0 <= i <= |images|
      invariant issues == ImagesIssues(images[..i])
      invariant stats.total == |images|
      invariant stats.missingAlt == Count(images[..i], IsMissingAlt)
      invariant stats.emptyAlt == Count(images[..i], IsEmptyAlt)
      invariant stats.withAlt == Count(images[..i], HasAltText)
      invariant stats.withDimensions == Count(images[..i], HasDimensions)
      invariant stats.withLazyLoading == Count(images[..i], IsLazy)
    {
      GatherPrefixStep(images, i, ImageIssues);
      CountPrefixStep(images, i, IsMissingAlt);
      CountPrefixStep(images, i, IsEmptyAlt);
      CountPrefixStep(images, i, HasAltText);
      CountPrefixStep(images, i, HasDimensions);
      CountPrefixStep(images, i, IsLazy);
      issues, stats := ImageStep(images[i], issues, stats);
      i := i + 1;
    }
    assert images[..i] == images;
  }

  /** The image analysis of a page. Each alt counter counts its class and the issues of its type,
      the alt classes never overlap, and every image is either counted as having dimensions or
      gets exactly one missing-dimensions issue. */
  method AnalyzeImages(url: string, images: seq<ImageInfo>) returns (r: ImageAnalysis)
    ensures r.url == url && r.images == images
    ensures r.issues == ImagesIssues(images)
    ensures r.stats.total == |images|
    ensures r.stats.missingAlt == Count(images, IsMissingAlt) == KindCount(r.issues, MissingAlt)
    ensures r.stats.emptyAlt == Count(images, IsEmptyAlt) == KindCount(r.issues, EmptyAlt)
    ensures r.stats.withAlt == Count(images, HasAltText)
    ensures r.stats.withAlt + r.stats.missingAlt + r.stats.emptyAlt <= r.stats.total
    ensures KindCount(r.issues, GenericAlt) == Count(images, IsGenericAlt)
    ensures KindCount(r.issues, LongAlt) == Count(images, IsLongAlt)
    ensures r.stats.withDimensions + KindCount(r.issues, MissingDimensions) == r.stats.total
    ensures r.stats.withLazyLoading == Count(images, IsLazy)
  {
    var issues, stats := ImagePass(images);
    r := ImageAnalysis(url, images, issues, stats);
    ImagesIssuesCounts(images);
    AltClassesBound(images);
    DimensionsPartition(images);
  }
}
