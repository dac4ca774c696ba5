/** The image cache service singleton (`services/imageCacheService.ts`):
    two independent sets of already-prefetched keys, one for full images and
    one for thumbnails, in front of the native `FastImage.preload`. Each
    native call is recorded in a log together with whether it threw; the
    caller supplies that outcome. */
module ImageCacheService {
  import opened Base

  datatype CachePriority = Low | Normal | High

  /** The native library's priority values. */
  datatype NativePriority = NativeLow | NativeNormal | NativeHigh

  datatype CacheMode = Immutable | Web | CacheOnly

  datatype PreloadRequest = PreloadRequest(uri: string, priority: NativePriority)

  /** One `FastImage.preload` call: its batch of requests and whether it threw. */
  datatype PreloadCall = PreloadCall(requests: seq<PreloadRequest>, threw: bool)

  datatype Service = Service(images: set<string>, thumbnails: set<string>, log: seq<PreloadCall>)

  /** The service as constructed: nothing tracked, nothing preloaded. */
  const Fresh: Service := Service({}, {}, [])

  /** An item of a batched prefetch: a full-image reference and an optional thumbnail. */
  datatype PrefetchItem = PrefetchItem(uri: Ref, thumbnailUri: Option<Ref>)

  /** `getCachePriority`: an absent priority means NORMAL, and only LOW and
      HIGH map to anything other than the native normal priority. */
  function NativePriorityOf(p: Option<CachePriority>): (r: NativePriority)
    ensures r == NativeLow <==> p == Some(Low)
    ensures r == NativeHigh <==> p == Some(High)
    ensures r == NativeNormal <==> p != Some(Low) && p != Some(High)
  {
    match p
    case Some(Low) => NativeLow
    case Some(High) => NativeHigh
    case _ => NativeNormal
  }

  /** The thumbnail key a reference contributes: only a non-empty string
      (`thumbnailUri && typeof thumbnailUri === 'string'`). */
  function ThumbKey(thumb: Option<Ref>): (k: Option<string>)
    ensures k.Some? <==> TruthyRef(thumb) && thumb.value.Str?
    ensures k.Some? ==> k.value == thumb.value.s
  {
    if thumb.Some? && thumb.value.Str? && thumb.value.s != "" then Some(thumb.value.s) else None
  }

  /** The full-image key a reference contributes: any string, even the empty
      one (`typeof uri === 'string'`); bundled handles contribute nothing. */
  function ImageKey(uri: Ref): (k: Option<string>)
    ensures k.Some? <==> uri.Str?
    ensures k.Some? ==> k.value == uri.s
  {
    if uri.Str? then Some(uri.s) else None
  }

  /** A key not yet in its tracked set. */
  predicate Untracked(key: Option<string>, tracked: set<string>) {
    key.Some? && key.value !in tracked
  }

  /** The calls a service made after the state `before`. */
  function NewCalls(before: Service, after: Service): seq<PreloadCall>
    requires |before.log| <= |after.log|
  {
    after.log[|before.log|..]
  }

  /** One key of `prefetchImage`: a tracked or absent key causes no call; an
      untracked key is preloaded alone and becomes tracked only if the
      preload did not throw. */
  function PreloadOne(tracked: set<string>, key: Option<string>, prio: NativePriority, throws: bool)
    : (r: (set<string>, seq<PreloadCall>))
    ensures tracked <= r.0
    ensures |r.1| == (if Untracked(key, tracked) then 1 else 0)
    ensures Untracked(key, tracked) ==> r.1[0] == PreloadCall([PreloadRequest(key.value, prio)], throws)
    ensures forall k :: k in r.0 <==> k in tracked || (Untracked(key, tracked) && k == key.value && !throws)
  {
    if Untracked(key, tracked) then
      var call := PreloadCall([PreloadRequest(key.value, prio)], throws);
      (if throws then tracked else tracked + {key.value}, [call])
    else
      (tracked, [])
  }

  /** `prefetchImage(uri, thumbnailUri, priority)`: the thumbnail is handled
      (and preloaded) before the full image; each preload carries one request. */
  function PrefetchImage(
    svc: Service, uri: Ref, thumb: Option<Ref>, priority: Option<CachePriority>,
    thumbThrows: bool, imageThrows: bool): (s: Service)
    ensures |svc.log| <= |s.log| && s.log[..|svc.log|] == svc.log
    ensures var n := NewCalls(svc, s);
      && |n| == (if Untracked(ThumbKey(thumb), svc.thumbnails) then 1 else 0)
              + (if Untracked(ImageKey(uri), svc.images) then 1 else 0)
      && (Untracked(ThumbKey(thumb), svc.thumbnails) ==>
            n[0] == PreloadCall([PreloadRequest(thumb.value.s, NativePriorityOf(priority))], thumbThrows))
      && (Untracked(ImageKey(uri), svc.images) ==>
            n[|n| - 1] == PreloadCall([PreloadRequest(uri.s, NativePriorityOf(priority))], imageThrows))
    ensures forall k :: k in s.thumbnails <==>
      k in svc.thumbnails || (Untracked(ThumbKey(thumb), svc.thumbnails) && k == thumb.value.s && !thumbThrows)
    ensures forall k :: k in s.images <==>
      k in svc.images || (Untracked(ImageKey(uri), svc.images) && k == uri.s && !imageThrows)
  {
    var p := NativePriorityOf(priority);
    var (thumbs, thumbCalls) := PreloadOne(svc.thumbnails, ThumbKey(thumb), p, thumbThrows);
    var (images, imageCalls) := PreloadOne(svc.images, ImageKey(uri), p, imageThrows);
    var s := Service(images, thumbs, svc.log + thumbCalls + imageCalls);
    assert NewCalls(svc, s) == thumbCalls + imageCalls;
    s
  }

  function ThumbKeys(items: seq<PrefetchItem>): (r: seq<Option<string>>)
    ensures |r| == |items|
    ensures forall i :: 0 <= i < |items| ==> r[i] == ThumbKey(items[i].thumbnailUri)
  {
    seq(|items|, i requires 0 <= i < |items| => ThumbKey(items[i].thumbnailUri))
  }

  function ImageKeys(items: seq<PrefetchItem>): (r: seq<Option<string>>)
    ensures |r| == |items|
    ensures forall i :: 0 <= i < |items| ==> r[i] == ImageKey(items[i].uri)
  {
    seq(|items|, i requires 0 <= i < |items| => ImageKey(items[i].uri))
  }

  /** Reference definition of one tier's batch: the present keys in input
      order, dropping keys already seen and repeats. */
  function FreshKeys(keys: seq<Option<string>>, seen: set<string>): (batch: seq<string>)
    ensures forall k :: k in batch <==> k !in seen && Some(k) in keys
    ensures NoDup(batch)
    decreases |keys|
  {
    if keys == [] then []
    else if Untracked(keys[0], seen) then
      var rest := FreshKeys(keys[1..], seen + {keys[0].value});
      assert forall k :: Some(k) in keys <==> keys[0] == Some(k) || Some(k) in keys[1..];
      [keys[0].value] + rest
    else
      var rest := FreshKeys(keys[1..], seen);
      assert forall k :: Some(k) in keys <==> keys[0] == Some(k) || Some(k) in keys[1..];
      rest
  }

  /** The keys present in a list of optional keys. */
  function KeySet(keys: seq<Option<string>>): set<string> {
    set j | 0 <= j < |keys| && keys[j].Some? :: keys[j].value
  }

  /** `FreshKeys` keeps input order: the batch of a concatenation is the
      batch of the first part followed by the batch of the second, judged
      against everything seen so far, the first part's keys included. */
  lemma {:induction false} FreshKeysAppend(a: seq<Option<string>>, b: seq<Option<string>>, seen: set<string>)
    ensures FreshKeys(a + b, seen) == FreshKeys(a, seen) + FreshKeys(b, seen + KeySet(a))
    decreases |a|
  {
    if a == [] {
      assert a + b == b;
      assert KeySet(a) == {};
      assert seen + KeySet(a) == seen;
    } else {
      assert (a + b)[1..] == a[1..] + b;
      assert KeySet(a) == (if a[0].Some? then {a[0].value} else {}) + KeySet(a[1..]) by {
        forall k | k in KeySet(a)
          ensures k in (if a[0].Some? then {a[0].value} else {}) + KeySet(a[1..])
        {
          var j :| 0 <= j < |a| && a[j].Some? && a[j].value == k;
          if j > 0 {
            assert a[1..][j - 1] == a[j];
          }
        }
        forall k | k in KeySet(a[1..])
          ensures k in KeySet(a)
        {
          var j :| 0 <= j < |a[1..]| && a[1..][j].Some? && a[1..][j].value == k;
          assert a[j + 1] == a[1..][j];
        }
      }
      if Untracked(a[0], seen) {
        FreshKeysAppend(a[1..], b, seen + {a[0].value});
        assert seen + {a[0].value} + KeySet(a[1..]) == seen + KeySet(a);
      } else {
        FreshKeysAppend(a[1..], b, seen);
        assert seen + KeySet(a[1..]) == seen + KeySet(a);
      }
    }
  }

  /** The state of `prefetchImages`' collection pass over the items. */
  datatype Collected = Collected(
    thumbBatch: seq<string>, imageBatch: seq<string>,
    thumbs: set<string>, images: set<string>)

  /** The `items.forEach` pass of `prefetchImages`, item by item: each
      untracked key is pushed onto its tier's batch and marked tracked at
      once, before any preload happens. */
  function Collect(items: seq<PrefetchItem>, thumbs: set<string>, images: set<string>): Collected
    decreases |items|
  {
    if items == [] then
      Collected([], [], thumbs, images)
    else
      var tk := ThumbKey(items[0].thumbnailUri);
      var ik := ImageKey(items[0].uri);
      var rest := Collect(items[1..],
        if Untracked(tk, thumbs) then thumbs + {tk.value} else thumbs,
        if Untracked(ik, images) then images + {ik.value} else images);
      Collected(
        (if Untracked(tk, thumbs) then [tk.value] else []) + rest.thumbBatch,
        (if Untracked(ik, images) then [ik.value] else []) + rest.imageBatch,
        rest.thumbs, rest.images)
  }

  /** Collecting both tiers item by item yields, per tier, exactly the
      reference batch, and marks exactly the batch's keys. */
  lemma {:induction false} CollectMatchesFreshKeys(items: seq<PrefetchItem>, thumbs: set<string>, images: set<string>)
    ensures var c := Collect(items, thumbs, images);
      && c.thumbBatch == FreshKeys(ThumbKeys(items), thumbs)
      && c.imageBatch == FreshKeys(ImageKeys(items), images)
      && (forall k :: k in c.thumbs <==> k in thumbs || k in c.thumbBatch)
      && (forall k :: k in c.images <==> k in images || k in c.imageBatch)
    decreases |items|
  {
    if items != [] {
      var tk := ThumbKey(items[0].thumbnailUri);
      var ik := ImageKey(items[0].uri);
      var thumbs1 := if Untracked(tk, thumbs) then thumbs + {tk.value} else thumbs;
      var images1 := if Untracked(ik, images) then images + {ik.value} else images;
      assert ThumbKeys(items)[1..] == ThumbKeys(items[1..]);
      assert ImageKeys(items)[1..] == ImageKeys(items[1..]);
      CollectMatchesFreshKeys(items[1..], thumbs1, images1);
    }
  }

  /** The requests of one batched preload: every key at the same priority. */
  function Requests(batch: seq<string>, p: NativePriority): (r: seq<PreloadRequest>)
    ensures |r| == |batch|
    ensures forall i :: 0 <= i < |batch| ==> r[i] == PreloadRequest(batch[i], p)
  {
    seq(|batch|, i requires 0 <= i < |batch| => PreloadRequest(batch[i], p))
  }

  /** `prefetchImages(items, priority)`: at most two preload calls, the
      thumbnail batch first, each holding only keys untracked at the start,
      without repeats; keys are tracked during collection, so they stay
      tracked even when the preload throws. */
  function PrefetchImages(
    svc: Service, items: seq<PrefetchItem>, priority: Option<CachePriority>,
    thumbThrows: bool, imageThrows: bool): (s: Service)
    ensures |svc.log| <= |s.log| <= |svc.log| + 2 && s.log[..|svc.log|] == svc.log
    ensures forall k :: k in s.thumbnails <==> k in svc.thumbnails || Some(k) in ThumbKeys(items)
    ensures forall k :: k in s.images <==> k in svc.images || Some(k) in ImageKeys(items)
    ensures var tb := FreshKeys(ThumbKeys(items), svc.thumbnails);
      var ib := FreshKeys(ImageKeys(items), svc.images);
      var p := NativePriorityOf(priority);
      NewCalls(svc, s)
        == (if |tb| > 0 then [PreloadCall(Requests(tb, p), thumbThrows)] else [])
         + (if |ib| > 0 then [PreloadCall(Requests(ib, p), imageThrows)] else [])
  {
    CollectMatchesFreshKeys(items, svc.thumbnails, svc.images);
    var c := Collect(items, svc.thumbnails, svc.images);
    var p := NativePriorityOf(priority);
    var thumbCalls := if |c.thumbBatch| > 0 then [PreloadCall(Requests(c.thumbBatch, p), thumbThrows)] else [];
    var imageCalls := if |c.imageBatch| > 0 then [PreloadCall(Requests(c.imageBatch, p), imageThrows)] else [];
    var s := Service(c.images, c.thumbs, svc.log + thumbCalls + imageCalls);
    assert NewCalls(svc, s) == thumbCalls + imageCalls;
    s
  }

  /** Some key of the list is present and untracked. */
  predicate SomeUntracked(keys: seq<Option<string>>, seen: set<string>) {
    exists j :: 0 <= j < |keys| && Untracked(keys[j], seen)
  }

  /** `rs` requests exactly the untracked keys of the list, at priority `p`. */
  ghost predicate RequestsUntracked(rs: seq<PreloadRequest>, keys: seq<Option<string>>, seen: set<string>, p: NativePriority) {
    forall r :: r in rs <==> exists j :: 0 <= j < |keys| && Untracked(keys[j], seen) && r == PreloadRequest(keys[j].value, p)
  }

  /** Every call `prefetchImages` makes is described by the items alone: a
      thumbnail call exactly when some item has an untracked thumbnail key,
      and then it comes first; an image call exactly when some item has an
      untracked image key, and then it comes last. Each call requests, at
      the mapped priority, every untracked key of its tier and nothing
      else, and carries that tier's outcome. */
  lemma PrefetchImagesBatchesFresh(
    svc: Service, items: seq<PrefetchItem>, priority: Option<CachePriority>,
    thumbThrows: bool, imageThrows: bool)
    ensures var s := PrefetchImages(svc, items, priority, thumbThrows, imageThrows);
      var n := NewCalls(svc, s);
      var p := NativePriorityOf(priority);
      var thumbCall := SomeUntracked(ThumbKeys(items), svc.thumbnails);
      var imageCall := SomeUntracked(ImageKeys(items), svc.images);
      && |n| == (if thumbCall then 1 else 0) + (if imageCall then 1 else 0)
      && (forall c :: c in n ==> |c.requests| > 0)
      && (thumbCall ==>
          && n[0].threw == thumbThrows
          && RequestsUntracked(n[0].requests, ThumbKeys(items), svc.thumbnails, p))
      && (imageCall ==>
          && n[|n| - 1].threw == imageThrows
          && RequestsUntracked(n[|n| - 1].requests, ImageKeys(items), svc.images, p))
  {
    var p := NativePriorityOf(priority);
    var tb := FreshKeys(ThumbKeys(items), svc.thumbnails);
    var ib := FreshKeys(ImageKeys(items), svc.images);
    TierRequests(ThumbKeys(items), svc.thumbnails, p);
    TierRequests(ImageKeys(items), svc.images, p);
    CallsOfBatches(tb, ib, p, thumbThrows, imageThrows);
  }

  /** The calls made for two batches: one per non-empty batch, thumbnails
      first. */
  lemma CallsOfBatches(tb: seq<string>, ib: seq<string>, p: NativePriority, thumbThrows: bool, imageThrows: bool)
    ensures var n := (if |tb| > 0 then [PreloadCall(Requests(tb, p), thumbThrows)] else [])
                   + (if |ib| > 0 then [PreloadCall(Requests(ib, p), imageThrows)] else []);
      && |n| == (if |tb| > 0 then 1 else 0) + (if |ib| > 0 then 1 else 0)
      && (forall c :: c in n ==> |c.requests| > 0)
      && (|tb| > 0 ==> n[0] == PreloadCall(Requests(tb, p), thumbThrows))
      && (|ib| > 0 ==> n[|n| - 1] == PreloadCall(Requests(ib, p), imageThrows))
  {
  }

  /** One tier's batch is non-empty exactly when some key is untracked, and
      its requests are exactly the untracked keys at the given priority. */
  lemma TierRequests(keys: seq<Option<string>>, seen: set<string>, p: NativePriority)
    ensures var tb := FreshKeys(keys, seen);
      && (|tb| > 0 <==> SomeUntracked(keys, seen))
      && RequestsUntracked(Requests(tb, p), keys, seen, p)
  {
    var tb := FreshKeys(keys, seen);
    var rs := Requests(tb, p);
    if |tb| > 0 {
      assert tb[0] in tb;
      var j :| 0 <= j < |keys| && keys[j] == Some(tb[0]);
      assert Untracked(keys[j], seen);
    }
    forall r | r in rs
      ensures exists j :: 0 <= j < |keys| && Untracked(keys[j], seen) && r == PreloadRequest(keys[j].value, p)
    {
      var i :| 0 <= i < |tb| && rs[i] == r;
      assert tb[i] in tb;
      var j :| 0 <= j < |keys| && keys[j] == Some(tb[i]);
      assert Untracked(keys[j], seen) && r == PreloadRequest(keys[j].value, p);
    }
    forall j | 0 <= j < |keys| && Untracked(keys[j], seen)
      ensures PreloadRequest(keys[j].value, p) in rs
    {
      assert keys[j] in keys;
      var i :| 0 <= i < |tb| && tb[i] == keys[j].value;
      assert rs[i] == PreloadRequest(keys[j].value, p);
    }
  }

  /** `isPrefetched`: only a string key can be tracked. */
  function IsPrefetched(svc: Service, uri: Ref): (b: bool)
    ensures b <==> uri.Str? && uri.s in svc.images
  {
    match uri
    case Str(s) => s in svc.images
    case Num(_) => false
  }

  /** `isThumbnailPrefetched`: only a string key can be tracked. */
  function IsThumbnailPrefetched(svc: Service, uri: Ref): (b: bool)
    ensures b <==> uri.Str? && uri.s in svc.thumbnails
  {
    match uri
    case Str(s) => s in svc.thumbnails
    case Num(_) => false
  }

  /** `clearPrefetchTracking`: both tracked sets emptied; the native cache
      (and so the call log) is not touched. */
  function ClearPrefetchTracking(svc: Service): (s: Service)
    ensures forall r :: !IsPrefetched(s, r) && !IsThumbnailPrefetched(s, r)
    ensures s.log == svc.log
  {
    Service({}, {}, svc.log)
  }

  /** The source object handed to the image component. */
  datatype CacheSource =
    | BundledSource(handle: int)
    | CachedUri(uri: string, cache: CacheMode, priority: NativePriority)

  /** `getCacheSource(uri, cacheMode, priority)`: a bundled handle is
      returned as is; a string gets the requested cache mode (immutable when
      none is given) and the mapped priority. */
  function GetCacheSource(uri: Ref, mode: Option<CacheMode>, priority: Option<CachePriority>): (src: CacheSource)
    ensures uri.Num? ==> src == BundledSource(uri.n)
    ensures uri.Str? ==>
      && src.CachedUri? && src.uri == uri.s
      && src.cache == mode.GetOr(Immutable) && src.priority == NativePriorityOf(priority)
  {
    match uri
    case Num(n) => BundledSource(n)
    case Str(s) => CachedUri(s, mode.GetOr(Immutable), NativePriorityOf(priority))
  }

  /** A successful `prefetchImage` makes a repeat of the same call silent:
      no further preload, nothing changes. */
  lemma PrefetchImageIdempotent(
    svc: Service, uri: Ref, thumb: Option<Ref>, priority: Option<CachePriority>, t2: bool, i2: bool)
    ensures var s1 := PrefetchImage(svc, uri, thumb, priority, false, false);
      PrefetchImage(s1, uri, thumb, priority, t2, i2) == s1
  {
  }

  /** The two entry points disagree when the native preload throws: the
      single-image path leaves the key untracked, the batched path has
      already tracked it. */
  lemma ThrowingPreloadTracking(u: string)
    ensures !IsPrefetched(PrefetchImage(Fresh, Str(u), None, None, false, true), Str(u))
    ensures IsPrefetched(PrefetchImages(Fresh, [PrefetchItem(Str(u), None)], None, false, true), Str(u))
  {
    assert ImageKeys([PrefetchItem(Str(u), None)])[0] == Some(u);
  }
}
