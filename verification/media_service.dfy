/** The mock media backend of the search grid (`services/mediaService.ts`):
    twenty images, a third of them remote, then ten bundled videos with
    known lengths, and a search that keeps every even position and a coin
    flip's worth of the others. The bundled handles are parameters, and
    the `n`-th `Math.random()` call of a search returns `rnd(n)`. */
module MediaService {
  import opened Base
  import opened Text
  import opened MediaTypes

  /** `VIDEO_DURATIONS`, in seconds, of video-1 to video-10. */
  const VideoDurations: seq<real> := [8.0, 7.0, 7.0, 5.0, 5.0, 12.0, 32.0, 50.0, 12.0, 49.0]

  /** `EXTERNAL_IMAGE_URLS`. */
  const ExternalImageUrls: seq<string> := [
    "https://sample-videos.com/img/Sample-jpg-image-10mb.jpg",
    "https://sample-videos.com/img/Sample-jpg-image-15mb.jpg",
    "https://sample-videos.com/img/Sample-jpg-image-20mb.jpg"
  ]

  /** `getVideoDurationByIndex`: a duration exactly for the ten known
      indices, `undefined` for every other number. */
  function VideoDurationByIndex(index: int): (d: Option<real>)
    ensures d.Some? <==> 0 <= index < 10
    ensures d.Some? ==> d.value == VideoDurations[index] && d.value > 0.0
  {
    if index >= 0 && index < |VideoDurations| then Some(VideoDurations[index]) else None
  }

  /** The four bundled images and the four bundled videos of the grid. */
  predicate BundledUris(imageUris: seq<Ref>, videoUris: seq<Ref>) {
    |imageUris| == 4 && |videoUris| == 4
  }

  /** The `i`-th image of the first loop. */
  function MockImage(i: nat, imageUris: seq<Ref>): (m: MediaItem)
    requires |imageUris| == 4
    ensures m.id == "media_img_" + NatToString(i) && m.kind == Image
    ensures i % 3 == 0 ==> m.uri == Str(ExternalImageUrls[0])
    ensures i % 3 != 0 ==> m.uri == imageUris[i % 4]
    ensures m.thumbnail.None? && m.duration.None?
  {
    MediaItem("media_img_" + NatToString(i), Image,
              if i % 3 == 0 then Str(ExternalImageUrls[i % |ExternalImageUrls|]) else imageUris[i % |imageUris|],
              None, None)
  }

  /** The `i`-th video of the second loop. */
  function MockVideo(i: nat, videoUris: seq<Ref>): (m: MediaItem)
    requires |videoUris| == 4
    ensures m.id == "media_video_" + NatToString(i) && m.kind == Video
    ensures m.uri == videoUris[i % 4]
    ensures m.duration == Some(VideoDurations[i % 4]) && m.thumbnail.None?
  {
    var videoIndex := i % |videoUris|;
    MediaItem("media_video_" + NatToString(i), Video, videoUris[videoIndex], None, VideoDurationByIndex(videoIndex))
  }

  /** The thirty items the two loops of `generateMockMedia` produce:
      twenty images, then ten videos. */
  function MockMediaList(imageUris: seq<Ref>, videoUris: seq<Ref>): (media: seq<MediaItem>)
    requires BundledUris(imageUris, videoUris)
    ensures |media| == 30
    ensures forall i :: 0 <= i < 20 ==> media[i] == MockImage(i, imageUris)
    ensures forall i :: 20 <= i < 30 ==> media[i] == MockVideo(i - 20, videoUris)
  {
    seq(20, i requires 0 <= i < 20 => MockImage(i, imageUris))
      + seq(10, i requires 0 <= i < 10 => MockVideo(i, videoUris))
  }

  /** `generateMockMedia`: the two loops, images first. */
  method GenerateMockMedia(imageUris: seq<Ref>, videoUris: seq<Ref>) returns (media: seq<MediaItem>)
    requires BundledUris(imageUris, videoUris)
    ensures media == MockMediaList(imageUris, videoUris)
    ensures |media| == 30
    ensures forall i :: 0 <= i < 20 ==> media[i] == MockImage(i, imageUris)
    ensures forall i :: 20 <= i < 30 ==> media[i] == MockVideo(i - 20, videoUris)
  {
    media := [];
    var i := 0;
    while i < 20
      invariant 0 <= i <= 20 && |media| == i
      invariant forall k :: 0 <= k < i ==> media[k] == MockImage(k, imageUris)
    {
      media := media + [MockImage(i, imageUris)];
      i := i + 1;
    }
    i := 0;
    while i < 10
      invariant 0 <= i <= 10 && |media| == 20 + i
      invariant forall k :: 0 <= k < 20 ==> media[k] == MockImage(k, imageUris)
      invariant forall k :: 20 <= k < 20 + i ==> media[k] == MockVideo(k - 20, videoUris)
    {
      media := media + [MockVideo(i, videoUris)];
      i := i + 1;
    }
  }

  /** The generated media: twenty images then ten videos; an image is remote
      exactly at positions divisible by three, and is then always the first
      external URL; every video has a known length. */
  lemma MockMediaShape(media: seq<MediaItem>, imageUris: seq<Ref>, videoUris: seq<Ref>)
    requires BundledUris(imageUris, videoUris)
    requires |media| == 30
    requires forall i :: 0 <= i < 20 ==> media[i] == MockImage(i, imageUris)
    requires forall i :: 20 <= i < 30 ==> media[i] == MockVideo(i - 20, videoUris)
    ensures forall i :: 0 <= i < 30 ==> (media[i].kind == Image <==> i < 20)
    ensures forall i :: 0 <= i < 20 && i % 3 == 0 ==> media[i].uri == Str(ExternalImageUrls[0])
    ensures forall i :: 0 <= i < 20 && i % 3 != 0 ==> media[i].uri in imageUris
    ensures forall i :: 20 <= i < 30 ==> media[i].duration.Some? && media[i].uri in videoUris
  {
  }

  /** No two generated items share an id. */
  lemma MockMediaIdsDistinct(media: seq<MediaItem>, imageUris: seq<Ref>, videoUris: seq<Ref>)
    requires BundledUris(imageUris, videoUris)
    requires |media| == 30
    requires forall i :: 0 <= i < 20 ==> media[i] == MockImage(i, imageUris)
    requires forall i :: 20 <= i < 30 ==> media[i] == MockVideo(i - 20, videoUris)
    ensures forall i, j :: 0 <= i < j < 30 ==> media[i].id != media[j].id
  {
    forall i, j | 0 <= i < j < 30
      ensures media[i].id != media[j].id
    {
      if j < 20 {
        if media[i].id == media[j].id {
          TaggedNumberInjective("media_img_", i, "", j, "");
        }
      } else if i >= 20 {
        if media[i].id == media[j].id {
          TaggedNumberInjective("media_video_", i - 20, "", j - 20, "");
        }
      } else {
        assert media[i].id[6] == 'i' && media[j].id[6] == 'v';
      }
    }
  }

  /** The positions the search filter keeps among `from` up to `n`: every
      even one, and an odd one `j` when the `j / 2`-th random draw exceeds
      one half (the random call is skipped at even positions, so the odd
      position `j` makes draw `j / 2`). */
  function KeptFrom(from: nat, n: nat, rnd: nat -> real): (idx: seq<nat>)
    ensures from <= n ==> |idx| <= n - from
    ensures forall k :: 0 <= k < |idx| ==> from <= idx[k] < n
    ensures forall k, l :: 0 <= k < l < |idx| ==> idx[k] < idx[l]
    ensures forall j :: j in idx <==> from <= j < n && (j % 2 == 0 || rnd(j / 2) > 0.5)
    decreases n - from
  {
    if from >= n then []
    else
      var rest := KeptFrom(from + 1, n, rnd);
      if from % 2 == 0 || rnd(from / 2) > 0.5 then [from] + rest else rest
  }

  /** The entries of `ms` at the positions `idx`. */
  function Pick(ms: seq<MediaItem>, idx: seq<nat>): (r: seq<MediaItem>)
    requires forall k :: 0 <= k < |idx| ==> idx[k] < |ms|
    ensures |r| == |idx|
    ensures forall k :: 0 <= k < |idx| ==> r[k] == ms[idx[k]]
  {
    seq(|idx|, k requires 0 <= k < |idx| => ms[idx[k]])
  }

  /** `searchMedia`'s filter on the generated list: the whole list for a
      blank query, otherwise the kept positions. The reply delay is not
      modelled. */
  function SearchResults(query: string, allMedia: seq<MediaItem>, rnd: nat -> real): (r: seq<MediaItem>)
    ensures AllSpace(query) ==> r == allMedia
    ensures |r| <= |allMedia|
  {
    if Trim(query) != "" then Pick(allMedia, KeptFrom(0, |allMedia|, rnd)) else allMedia
  }

  /** `searchMedia(query)`. */
  method SearchMedia(query: string, imageUris: seq<Ref>, videoUris: seq<Ref>, rnd: nat -> real)
    returns (results: seq<MediaItem>)
    requires BundledUris(imageUris, videoUris)
    ensures results == SearchResults(query, MockMediaList(imageUris, videoUris), rnd)
    ensures AllSpace(query) ==> |results| == 30
    ensures |results| <= 30
    ensures forall m :: m in results ==> m.kind == Image || m.duration.Some?
    ensures forall i :: 0 <= i < 20 && i % 2 == 0 ==> MockImage(i, imageUris) in results
    ensures forall i :: 0 <= i < 10 && i % 2 == 0 ==> MockVideo(i, videoUris) in results
  {
    var allMedia := GenerateMockMedia(imageUris, videoUris);
    results := SearchResults(query, allMedia, rnd);
    forall j | 0 <= j < 30 && j % 2 == 0
      ensures allMedia[j] in results
    {
      if Trim(query) != "" {
        var idx := KeptFrom(0, |allMedia|, rnd);
        assert j in idx;
        var k :| 0 <= k < |idx| && idx[k] == j;
        assert results[k] == allMedia[j];
      }
    }
    assert forall i :: 0 <= i < 10 && i % 2 == 0 ==> allMedia[i + 20] == MockVideo(i, videoUris);
    forall m | m in results
      ensures m.kind == Image || m.duration.Some?
    {
      MockMediaShape(allMedia, imageUris, videoUris);
      if Trim(query) != "" {
        var idx := KeptFrom(0, |allMedia|, rnd);
        var k :| 0 <= k < |results| && results[k] == m;
        assert m == allMedia[idx[k]];
      }
    }
  }

  /** A non-blank query yields a subsequence of the list that contains every
      item at an even position, and an odd position's item exactly when its
      draw exceeds one half. */
  lemma SearchKeepsEvenPositions(query: string, allMedia: seq<MediaItem>, rnd: nat -> real)
    requires !AllSpace(query)
    ensures var r := SearchResults(query, allMedia, rnd);
      exists idx: seq<nat> ::
        && |idx| == |r|
        && (forall k :: 0 <= k < |idx| ==> idx[k] < |allMedia| && r[k] == allMedia[idx[k]])
        && (forall k, l :: 0 <= k < l < |idx| ==> idx[k] < idx[l])
        && (forall j :: 0 <= j < |allMedia| && j % 2 == 0 ==> j in idx)
        && (forall j :: 0 <= j < |allMedia| && j % 2 == 1 ==> (j in idx <==> rnd(j / 2) > 0.5))
  {
    var idx := KeptFrom(0, |allMedia|, rnd);
    var r := SearchResults(query, allMedia, rnd);
    assert r == Pick(allMedia, idx);
  }
}
