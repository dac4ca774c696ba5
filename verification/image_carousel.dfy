/** The two-image carousel (`components/PostImageCarousel/PostImageCarousel.tsx`):
    scroll position to page index, the guarded index update, prefetch of the
    next image, and the pagination dots. */
module ImageCarousel {
  import opened Base
  import opened MediaTypes
  import MediaCarousel
  import ImagePrefetchHook

  /** `Math.round(x)`: the nearest integer, halves rounded up. */
  function Round(x: real): (n: int)
    ensures n as real - 0.5 <= x < n as real + 0.5
  {
    (x + 0.5).Floor
  }

  /** The page the scroll offset is nearest to. */
  function ScrollIndex(offsetX: real, screenWidth: real): (i: int)
    requires screenWidth > 0.0
    ensures (i as real - 0.5) * screenWidth <= offsetX < (i as real + 0.5) * screenWidth
  {
    var q := offsetX / screenWidth;
    var i := Round(q);
    var lo := i as real - 0.5;
    var hi := i as real + 0.5;
    assert lo <= q < hi;
    ScaleBounds(lo, q, hi, screenWidth);
    assert q * screenWidth == offsetX;
    assert lo * screenWidth <= offsetX;
    assert q * screenWidth < hi * screenWidth;
    assert offsetX < hi * screenWidth;
    i
  }

  /** Scaling by a positive width keeps the bounds of a quotient. */
  lemma ScaleBounds(lo: real, q: real, hi: real, w: real)
    requires w > 0.0 && lo <= q < hi
    ensures lo * w <= q * w < hi * w
  {
    assert (q - lo) * w >= 0.0;
    assert (hi - q) * w > 0.0;
  }

  /** The scroll handler: the page index is adopted only when it names an
      item and differs from the current one. */
  function OnScroll(c: MediaCarousel.Carousel, offsetX: real, screenWidth: real): (c': MediaCarousel.Carousel)
    requires screenWidth > 0.0
    ensures var i := ScrollIndex(offsetX, screenWidth);
      && (0 <= i < c.length && i != c.currentIndex ==> c' == MediaCarousel.SetCurrentIndex(c, i))
      && (!(0 <= i < c.length && i != c.currentIndex) ==> c' == c)
  {
    var i := ScrollIndex(offsetX, screenWidth);
    if i >= 0 && i < c.length && i != c.currentIndex then MediaCarousel.SetCurrentIndex(c, i) else c
  }

  /** Scrolling never takes an in-range index out of range, although it goes
      through the unguarded setter. */
  lemma ScrollKeepsInRange(c: MediaCarousel.Carousel, offsetX: real, screenWidth: real)
    requires screenWidth > 0.0 && MediaCarousel.InRange(c)
    ensures MediaCarousel.InRange(OnScroll(c, offsetX, screenWidth))
  {
  }

  /** The image the prefetch effect asks for: the next item, if there is one
      and it is an image. */
  function NextToPrefetch(media: seq<MediaItem>, currentIndex: int): (r: Option<Ref>)
    ensures r.Some? <==>
      currentIndex < |media| - 1 && 0 <= currentIndex + 1 && media[currentIndex + 1].kind == Image
    ensures r.Some? ==> r.value == media[currentIndex + 1].uri
  {
    if currentIndex < |media| - 1 && 0 <= currentIndex + 1 && media[currentIndex + 1].kind == Image then
      Some(media[currentIndex + 1].uri)
    else None
  }

  /** The prefetch effect against the carousel's hook; the thumbnail argument
      it passes is dropped by `prefetchImage`. */
  function PrefetchEffect(h: ImagePrefetchHook.Hook, media: seq<MediaItem>, currentIndex: int, throws: bool)
    : (h': ImagePrefetchHook.Hook)
    ensures NextToPrefetch(media, currentIndex).None? ==> h' == h
    ensures NextToPrefetch(media, currentIndex).Some? ==>
      h' == ImagePrefetchHook.PrefetchImage(h, NextToPrefetch(media, currentIndex).value, throws)
  {
    match NextToPrefetch(media, currentIndex)
    case None => h
    case Some(u) => ImagePrefetchHook.PrefetchImage(h, u, throws)
  }

  /** On the last item nothing is prefetched. */
  lemma LastItemPrefetchesNothing(media: seq<MediaItem>)
    requires |media| > 0
    ensures NextToPrefetch(media, |media| - 1).None?
  {
  }

  datatype Pagination = NoDots | Dots(count: nat, active: int)

  /** Dots appear only for more than one item, one per item, the current one
      highlighted. */
  function RenderPagination(media: seq<MediaItem>, currentIndex: int): (p: Pagination)
    ensures p.Dots? <==> |media| > 1
    ensures p.Dots? ==> p.count == |media| && p.active == currentIndex
  {
    if |media| > 1 then Dots(|media|, currentIndex) else NoDots
  }

  /** Every item is rendered as an image, whatever its kind; a video only
      triggers a warning. */
  function Slides(media: seq<MediaItem>): (s: seq<(Ref, Option<Ref>)>)
    ensures |s| == |media|
    ensures forall i :: 0 <= i < |media| ==> s[i] == (media[i].uri, media[i].thumbnail)
  {
    seq(|media|, i requires 0 <= i < |media| => (media[i].uri, media[i].thumbnail))
  }

  /** `hasVideos`, which only decides whether the warning is logged. */
  function HasVideos(media: seq<MediaItem>): (b: bool)
    ensures b <==> exists i :: 0 <= i < |media| && media[i].kind == Video
  {
    exists i :: 0 <= i < |media| && media[i].kind == Video
  }
}
