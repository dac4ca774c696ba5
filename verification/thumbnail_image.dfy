/** The newer progressive image component
    (`Molecules/ImageWithThumbnail/ImageWithThumbnail.tsx`): a full-image
    layer, a thumbnail layer above it until the full image loads, a spinner
    when there is no thumbnail, and an error box. Each URI's cache mode comes
    from a helper that is not part of this model and is passed in. */
module ThumbnailImage {
  import opened Base
  import ProgressiveImage
  import ImageCacheService

  datatype View = View(
    fullLayer: Option<ImageCacheService.CacheSource>,
    thumbnailLayer: Option<ImageCacheService.CacheSource>,
    loading: bool,
    errorBox: bool)

  /** The render for hook state `p`. The thumbnail is requested at high
      priority and the full image at normal priority. */
  function Render(p: ProgressiveImage.Progress, uri: Ref, thumbnailUri: Option<Ref>,
                  fullMode: Option<ImageCacheService.CacheMode>,
                  thumbMode: Option<ImageCacheService.CacheMode>): (v: View)
    ensures var thumb := ProgressiveImage.ThumbUri(thumbnailUri);
      && (v.fullLayer.Some? <==> !p.hasError || thumb.None?)
      && (v.fullLayer.Some? ==>
            v.fullLayer.value == ImageCacheService.GetCacheSource(uri, fullMode, Some(ImageCacheService.Normal)))
      && (v.thumbnailLayer.Some? <==> thumb.Some? && !p.isFullImageLoaded)
      && (v.thumbnailLayer.Some? ==>
            v.thumbnailLayer.value == ImageCacheService.GetCacheSource(thumb.value, thumbMode, Some(ImageCacheService.High)))
      && (v.loading <==> thumb.None? && !p.isFullImageLoaded && !p.hasError)
      && (v.errorBox <==> p.hasError && thumb.None?)
  {
    var thumb := ProgressiveImage.ThumbUri(thumbnailUri);
    var thumbSource := if thumb.None? then None
                       else Some(ImageCacheService.GetCacheSource(thumb.value, thumbMode, Some(ImageCacheService.High)));
    var fullSource := ImageCacheService.GetCacheSource(uri, fullMode, Some(ImageCacheService.Normal));
    View(
      if !p.hasError || (p.hasError && thumb.None?) then Some(fullSource) else None,
      if thumb.Some? && thumbSource.Some? && !p.isFullImageLoaded then thumbSource else None,
      thumb.None? && !p.isFullImageLoaded && !p.hasError,
      p.hasError && thumb.None?)
  }

  /** The spinner and the error box never show together, the spinner never
      shows over a thumbnail, and both sit over a mounted full-image layer. */
  lemma OverlaysExclusive(p: ProgressiveImage.Progress, uri: Ref, thumbnailUri: Option<Ref>,
                          fullMode: Option<ImageCacheService.CacheMode>, thumbMode: Option<ImageCacheService.CacheMode>)
    ensures var v := Render(p, uri, thumbnailUri, fullMode, thumbMode);
      && !(v.loading && v.errorBox)
      && !(v.loading && v.thumbnailLayer.Some?)
      && (v.loading || v.errorBox ==> v.fullLayer.Some?)
  {
  }

  /** Some image layer is mounted in every state except one: a thumbnail is
      present and the full image reported an error after it had loaded. */
  lemma SomeLayerShown(p: ProgressiveImage.Progress, uri: Ref, thumbnailUri: Option<Ref>,
                       fullMode: Option<ImageCacheService.CacheMode>, thumbMode: Option<ImageCacheService.CacheMode>)
    ensures var v := Render(p, uri, thumbnailUri, fullMode, thumbMode);
      (v.fullLayer.None? && v.thumbnailLayer.None?) <==> (p.hasError && p.isFullImageLoaded && TruthyRef(thumbnailUri))
  {
  }

  /** A full image that fails to load falls back to its thumbnail when it
      has one. */
  lemma ErrorFallsBackToThumbnail(uri: Ref, thumbnailUri: Option<Ref>,
                                  fullMode: Option<ImageCacheService.CacheMode>, thumbMode: Option<ImageCacheService.CacheMode>)
    requires TruthyRef(thumbnailUri)
    ensures var p := ProgressiveImage.OnError(ProgressiveImage.Mount(uri, thumbnailUri));
      var v := Render(p, uri, thumbnailUri, fullMode, thumbMode);
      v.fullLayer.None? && v.thumbnailLayer.Some? && !v.errorBox && !v.loading
  {
  }
}
