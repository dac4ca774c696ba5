/** The `useImagePrefetch` hook (`hooks/useImagePrefetch.ts`): a per-component
    set of already-preloaded URIs in front of `FastImage.preload`, which here
    is called without a priority. Each native call is logged with whether it
    threw; the caller supplies that outcome. */
module ImagePrefetchHook {
  import opened Base

  /** One `FastImage.preload` call: the URIs requested and whether it threw. */
  datatype HookCall = HookCall(uris: seq<string>, threw: bool)

  datatype Hook = Hook(tracked: set<string>, log: seq<HookCall>)

  /** The hook as first mounted. */
  const Mounted: Hook := Hook({}, [])

  /** `getImageUri`: strings are preloadable, bundled handles map to `''`. */
  function GetImageUri(uri: Ref): (s: string)
    ensures uri.Str? ==> s == uri.s
    ensures uri.Num? ==> s == ""
  {
    match uri
    case Str(u) => u
    case Num(_) => ""
  }

  /** A URI the hook would still preload. */
  predicate Eligible(u: string, tracked: set<string>) {
    u != "" && u !in tracked
  }

  /** `prefetchImage(uri)`: an empty or already tracked URI does nothing; any
      other is preloaded alone and tracked only if the preload did not throw. */
  function PrefetchImage(h: Hook, uri: Ref, throws: bool): (h': Hook)
    ensures h.tracked <= h'.tracked
    ensures !Eligible(GetImageUri(uri), h.tracked) ==> h' == h
    ensures Eligible(GetImageUri(uri), h.tracked) ==>
      && h'.log == h.log + [HookCall([uri.s], throws)]
      && h'.tracked == (if throws then h.tracked else h.tracked + {uri.s})
  {
    var u := GetImageUri(uri);
    if !Eligible(u, h.tracked) then h
    else if throws then Hook(h.tracked, h.log + [HookCall([u], true)])
    else Hook(h.tracked + {u}, h.log + [HookCall([u], false)])
  }

  /** The URIs of a list of references, `uris.map(getImageUri)`. */
  function ImageUris(uris: seq<Ref>): (r: seq<string>)
    ensures |r| == |uris|
    ensures forall i :: 0 <= i < |uris| ==> r[i] == GetImageUri(uris[i])
  {
    seq(|uris|, i requires 0 <= i < |uris| => GetImageUri(uris[i]))
  }

  /** The batch `prefetchImages` builds: the eligible URIs in input order,
      judged against the set as it stood at the start of the call. */
  function Batch(us: seq<string>, tracked: set<string>): (b: seq<string>)
    ensures |b| <= |us|
    ensures forall k :: k in b <==> k in us && Eligible(k, tracked)
    ensures forall k :: Eligible(k, tracked) ==> multiset(b)[k] == multiset(us)[k]
    ensures forall k :: !Eligible(k, tracked) ==> multiset(b)[k] == 0
  {
    if us == [] then []
    else
      var rest := Batch(us[1..], tracked);
      assert us == [us[0]] + us[1..];
      if Eligible(us[0], tracked) then [us[0]] + rest else rest
  }

  /** `Batch` keeps input order: it distributes over concatenation, every
      part judged against the same tracked set. */
  lemma {:induction false} BatchAppend(a: seq<string>, b: seq<string>, tracked: set<string>)
    ensures Batch(a + b, tracked) == Batch(a, tracked) + Batch(b, tracked)
  {
    if a == [] {
      assert a + b == b;
    } else {
      assert (a + b)[1..] == a[1..] + b;
      BatchAppend(a[1..], b, tracked);
    }
  }

  /** The body of `prefetchImages` once its argument has been mapped through
      `getImageUri`: a single preload of the batch when it is non-empty, none
      otherwise; the batch is tracked only if the preload did not throw. */
  function PrefetchUris(h: Hook, us: seq<string>, throws: bool): (h': Hook)
    ensures var b := Batch(us, h.tracked);
      && (b == [] ==> h' == h)
      && (b != [] ==> h'.log == h.log + [HookCall(b, throws)])
      && (forall k :: k in h'.tracked <==> k in h.tracked || (!throws && k in b))
  {
    var b := Batch(us, h.tracked);
    if b == [] then h
    else if throws then Hook(h.tracked, h.log + [HookCall(b, true)])
    else Hook(h.tracked + (set k | k in b), h.log + [HookCall(b, false)])
  }

  /** `prefetchImages(uris)`. */
  function PrefetchImages(h: Hook, uris: seq<Ref>, throws: bool): (h': Hook)
    ensures h' == PrefetchUris(h, ImageUris(uris), throws)
  {
    PrefetchUris(h, ImageUris(uris), throws)
  }

  /** `prefetchImages` preloads exactly when some reference is an untracked
      non-empty string. */
  lemma PrefetchImagesCallsIff(h: Hook, uris: seq<Ref>, throws: bool)
    ensures |PrefetchImages(h, uris, throws).log| == |h.log| + 1
      <==> exists i :: 0 <= i < |uris| && uris[i].Str? && Eligible(uris[i].s, h.tracked)
    ensures |PrefetchImages(h, uris, throws).log| == |h.log|
      <==> forall i :: 0 <= i < |uris| ==> !(uris[i].Str? && Eligible(uris[i].s, h.tracked))
  {
    var us := ImageUris(uris);
    var b := Batch(us, h.tracked);
    if exists i :: 0 <= i < |uris| && uris[i].Str? && Eligible(uris[i].s, h.tracked) {
      var i :| 0 <= i < |uris| && uris[i].Str? && Eligible(uris[i].s, h.tracked);
      assert us[i] in b;
    }
  }

  /** The tracked set never shrinks, whatever the calls and outcomes. */
  lemma TrackedNeverShrinks(h: Hook, uri: Ref, uris: seq<Ref>, t1: bool, t2: bool)
    ensures h.tracked <= PrefetchImage(h, uri, t1).tracked
    ensures h.tracked <= PrefetchImages(h, uris, t2).tracked
  {
  }

  /** A URI repeated in one call is repeated in the batch, because the filter
      consults only the set as it stood when the call began. */
  lemma RepeatedUriStaysRepeated(h: Hook, u: string, throws: bool)
    requires Eligible(u, h.tracked)
    ensures PrefetchImages(h, [Str(u), Str(u)], throws).log == h.log + [HookCall([u, u], throws)]
  {
    var us := ImageUris([Str(u), Str(u)]);
    assert us == [u, u];
    assert us[1..] == [u] && [u][1..] == [];
    assert Batch([u], h.tracked) == [u];
    assert Batch(us, h.tracked) == [u, u];
  }
}
