/** The older progressive image component
    (`components/ImageWithThumbnail/ImageWithThumbnail.tsx`): a thumbnail
    layer while there is no error, then either the spinner and full image or
    an error box. */
module LegacyThumbnailImage {
  import opened Base
  import ProgressiveImage
  import LegacyProgressiveImage

  datatype View = View(thumbnail: Option<Source>, loading: bool, fullImage: Option<Source>, errorBox: bool)

  function Render(l: LegacyProgressiveImage.Loading, uri: Ref, thumbnailUri: Option<Ref>): (v: View)
    ensures var thumb := ProgressiveImage.ThumbUri(thumbnailUri);
      && (v.thumbnail.Some? <==> thumb.Some? && !l.hasError)
      && (v.thumbnail.Some? ==> v.thumbnail.value == ToSource(thumb.value))
      && (v.fullImage.Some? <==> !l.hasError)
      && (v.fullImage.Some? ==> v.fullImage.value == ToSource(uri))
      && (v.loading <==> !l.hasError && l.isLoading)
      && (v.errorBox <==> l.hasError)
  {
    var thumb := ProgressiveImage.ThumbUri(thumbnailUri);
    var thumbLayer := if thumb.Some? && !l.hasError then Some(ToSource(thumb.value)) else None;
    if !l.hasError then View(thumbLayer, l.isLoading, Some(ToSource(uri)), false)
    else View(thumbLayer, false, None, true)
  }

  /** Exactly one of the full image and the error box is mounted, and an
      error hides the thumbnail too. */
  lemma FullImageXorErrorBox(l: LegacyProgressiveImage.Loading, uri: Ref, thumbnailUri: Option<Ref>)
    ensures var v := Render(l, uri, thumbnailUri);
      && (v.fullImage.Some? != v.errorBox)
      && (v.errorBox ==> v.thumbnail.None? && !v.loading)
  {
  }

  /** In every reachable hook state, the spinner shows exactly while the
      full image is still loading. */
  lemma SpinnerWhileLoading(es: seq<LegacyProgressiveImage.Event>, uri: Ref, thumbnailUri: Option<Ref>)
    ensures var l := LegacyProgressiveImage.Run(LegacyProgressiveImage.Initial, es);
      Render(l, uri, thumbnailUri).loading <==> l.isLoading
  {
    LegacyProgressiveImage.RunStaysValid(es);
  }
}
