/** The progressive-image hook used by the newer thumbnail component
    (`components/ImageWithThumbnail/hooks/useProgressiveImage.ts`): tracks
    whether the full image loaded and whether it failed, and resets both
    when the image or thumbnail reference changes. */
module ProgressiveImage {
  import opened Base

  datatype Progress = Progress(
    isFullImageLoaded: bool,
    hasError: bool,
    previousUri: Ref,
    previousThumbnail: Option<Ref>)

  /** The hook on mount: nothing loaded, no error, references remembered. */
  function Mount(uri: Ref, thumbnailUri: Option<Ref>): (p: Progress)
    ensures !p.isFullImageLoaded && !p.hasError
    ensures p.previousUri == uri && p.previousThumbnail == thumbnailUri
  {
    Progress(false, false, uri, thumbnailUri)
  }

  /** The reset effect for new props: a change of either reference (strict
      inequality) clears both flags and remembers the new references; no
      change leaves the state alone. */
  function OnProps(p: Progress, uri: Ref, thumbnailUri: Option<Ref>): (p': Progress)
    ensures p'.previousUri == uri && p'.previousThumbnail == thumbnailUri
    ensures uri != p.previousUri || thumbnailUri != p.previousThumbnail ==>
      !p'.isFullImageLoaded && !p'.hasError
    ensures uri == p.previousUri && thumbnailUri == p.previousThumbnail ==> p' == p
  {
    if p.previousUri != uri || p.previousThumbnail != thumbnailUri then Progress(false, false, uri, thumbnailUri)
    else p
  }

  /** `onLoad`: loaded, and any earlier error cleared. */
  function OnLoad(p: Progress): (p': Progress)
    ensures p'.isFullImageLoaded && !p'.hasError
    ensures p'.previousUri == p.previousUri && p'.previousThumbnail == p.previousThumbnail
  {
    p.(isFullImageLoaded := true, hasError := false)
  }

  /** `onError`: failed; the loaded flag is left as it was. */
  function OnError(p: Progress): (p': Progress)
    ensures p'.hasError && p'.isFullImageLoaded == p.isFullImageLoaded
    ensures p'.previousUri == p.previousUri && p'.previousThumbnail == p.previousThumbnail
  {
    p.(hasError := true)
  }

  /** The thumbnail the hook returns: `thumbnailUri || null`. */
  function ThumbUri(thumbnailUri: Option<Ref>): (t: Option<Ref>)
    ensures t.Some? <==> TruthyRef(thumbnailUri)
    ensures t.Some? ==> t == thumbnailUri
  {
    if TruthyRef(thumbnailUri) then thumbnailUri else None
  }

  /** Re-rendering with unchanged props keeps a load, and a new image
      reference always starts over. */
  lemma PropsResetOnlyOnChange(p: Progress, uri: Ref)
    ensures OnProps(OnLoad(p), p.previousUri, p.previousThumbnail).isFullImageLoaded
    ensures uri != p.previousUri ==> !OnProps(OnLoad(p), uri, p.previousThumbnail).isFullImageLoaded
  {
  }
}
