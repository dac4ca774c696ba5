/** The mock post backend (`services/postService.ts`): bundled image and video
    assets, a Fisher-Yates shuffle, the generator of a page of posts, paging
    and caption/username search. `Math.random()` and `Date.now()` are
    oracles: the `n`-th random draw of a call is `rnd(n)` and the `n`-th
    clock reading is `clock(n)`. */
module PostService {
  import opened Base
  import opened Text
  import opened MediaTypes

  /** A bundled image with its bundled thumbnail. */
  datatype ImageAsset = ImageAsset(uri: Ref, thumbnail: Ref)

  /** A bundled video with its length in seconds. */
  datatype VideoAsset = VideoAsset(uri: Ref, duration: real)

  /** `VIDEO_DURATIONS`, the lengths of video-1 to video-10. */
  const VideoDurations: seq<real> := [12.0, 8.5, 14.0, 13.3, 7.9, 8.4, 5.8, 10.3, 7.5, 7.1]

  /** `getAllImageAssets`: the `i`-th bundled image paired with the `i`-th
      bundled thumbnail. The handles themselves are assigned by the bundler
      and are parameters here. */
  function ImageAssetsOf(images: seq<Ref>, thumbnails: seq<Ref>): (assets: seq<ImageAsset>)
    requires |thumbnails| == |images|
    ensures |assets| == |images|
    ensures forall i :: 0 <= i < |images| ==> assets[i].uri == images[i] && assets[i].thumbnail == thumbnails[i]
  {
    seq(|images|, i requires 0 <= i < |images| => ImageAsset(images[i], thumbnails[i]))
  }

  /** `getAllVideoAssets`: the `i`-th bundled video with duration
      `VIDEO_DURATIONS[i]`. */
  function VideoAssetsOf(videos: seq<Ref>): (assets: seq<VideoAsset>)
    requires |videos| == |VideoDurations|
    ensures |assets| == |videos|
    ensures forall i :: 0 <= i < |videos| ==> assets[i].uri == videos[i] && assets[i].duration == VideoDurations[i]
  {
    seq(|videos|, i requires 0 <= i < |videos| => VideoAsset(videos[i], VideoDurations[i]))
  }

  /** The two asset lists the generator draws from. */
  datatype Assets = Assets(images: seq<ImageAsset>, videos: seq<VideoAsset>)

  /** Ten images with pairwise different handles, and the ten videos with
      their durations. */
  predicate ValidAssets(a: Assets) {
    && |a.images| == 10 && |a.videos| == 10
    && (forall i, j :: 0 <= i < j < 10 ==> a.images[i].uri != a.images[j].uri)
    && (forall i :: 0 <= i < 10 ==> a.videos[i].duration == VideoDurations[i])
  }

  /** The assets built from the bundle's thirty files are valid whenever the
      bundler gives the ten image files different handles. */
  lemma BundledAssetsValid(images: seq<Ref>, thumbnails: seq<Ref>, videos: seq<Ref>)
    requires |images| == 10 && |thumbnails| == 10 && |videos| == 10 && NoDup(images)
    ensures ValidAssets(Assets(ImageAssetsOf(images, thumbnails), VideoAssetsOf(videos)))
  {
  }

  /** Image assets with different handles are different, so a valid list
      has no repeated entry; and two different entries differ in handle. */
  lemma ImageAssetsDistinct(a: Assets)
    requires ValidAssets(a)
    ensures NoDup(a.images)
    ensures forall x, y :: x in a.images && y in a.images && x != y ==> x.uri != y.uri
  {
  }

  // ---------------------------------------------------------------------
  // Counting lemmas: a duplicate-free list holds each value at most once.

  lemma {:induction false} NoDupCount<T>(a: seq<T>, x: T)
    requires NoDup(a)
    ensures multiset(a)[x] <= 1
  {
    if a != [] {
      assert a == [a[0]] + a[1..];
      assert NoDup(a[1..]) by {
        forall i, j | 0 <= i < j < |a[1..]|
          ensures a[1..][i] != a[1..][j]
        {
          assert a[1..][i] == a[i + 1] && a[1..][j] == a[j + 1];
        }
      }
      NoDupCount(a[1..], x);
      if a[0] == x {
        assert x !in a[1..] by {
          forall k | 0 <= k < |a[1..]|
            ensures a[1..][k] != x
          {
            assert a[1..][k] == a[k + 1];
          }
        }
      }
    }
  }

  lemma TwoCopies<T>(b: seq<T>, i: nat, j: nat)
    requires i < j < |b| && b[i] == b[j]
    ensures multiset(b)[b[i]] >= 2
  {
    assert b == b[..i] + [b[i]] + b[i + 1..j] + [b[j]] + b[j + 1..];
  }

  /** A permutation of a duplicate-free list is duplicate-free. */
  lemma PermutationKeepsNoDup<T>(a: seq<T>, b: seq<T>)
    requires multiset(a) == multiset(b) && NoDup(a)
    ensures NoDup(b)
  {
    forall i, j | 0 <= i < j < |b|
      ensures b[i] != b[j]
    {
      if b[i] == b[j] {
        TwoCopies(b, i, j);
        NoDupCount(a, b[i]);
      }
    }
  }

  /** A permutation of a list with distinct post ids has distinct post ids. */
  lemma PermutationKeepsDistinctIds(a: seq<Post>, b: seq<Post>)
    requires multiset(a) == multiset(b) && DistinctIds(a)
    ensures DistinctIds(b)
  {
    assert NoDup(a);
    forall i, j | 0 <= i < j < |b|
      ensures b[i].id != b[j].id
    {
      if b[i] == b[j] {
        TwoCopies(b, i, j);
        NoDupCount(a, b[i]);
      } else {
        assert b[i] in multiset(a) && b[j] in multiset(a);
        var i' :| 0 <= i' < |a| && a[i'] == b[i];
        var j' :| 0 <= j' < |a| && a[j'] == b[j];
        assert i' != j';
      }
    }
  }

  // ---------------------------------------------------------------------
  // shuffleArray

  /** The loop of `shuffleArray` from position `i` down to 1: position `i`
      is exchanged with a position `j <= i` drawn from `rnd(draw)`, and the
      later positions take the following draws. */
  function ShuffleFrom<T>(s: seq<T>, i: nat, rnd: nat -> real, draw: nat): (t: seq<T>)
    requires UnitOracle(rnd) && i < |s|
    ensures |t| == |s|
    decreases i
  {
    if i == 0 then s
    else
      var j := RandomIndex(rnd(draw), i + 1);
      ShuffleFrom(s[i := s[j]][j := s[i]], i - 1, rnd, draw + 1)
  }

  /** Every exchange keeps the entries, so the loop permutes its list. */
  lemma {:induction false} ShuffleFromPermutes<T>(s: seq<T>, i: nat, rnd: nat -> real, draw: nat)
    requires UnitOracle(rnd) && i < |s|
    ensures multiset(ShuffleFrom(s, i, rnd, draw)) == multiset(s)
    decreases i
  {
    if i > 0 {
      var j := RandomIndex(rnd(draw), i + 1);
      var s' := s[i := s[j]][j := s[i]];
      assert multiset(s') == multiset(s);
      ShuffleFromPermutes(s', i - 1, rnd, draw + 1);
    }
  }

  /** The number of random draws `shuffleArray` makes on a list of `n` entries. */
  function ShuffleDraws(n: nat): nat {
    if n == 0 then 0 else n - 1
  }

  /** `shuffleArray`: a permutation of its argument, which it leaves alone. */
  function Shuffle<T>(s: seq<T>, rnd: nat -> real, draw: nat): (t: seq<T>)
    requires UnitOracle(rnd)
    ensures |t| == |s|
    ensures multiset(t) == multiset(s)
  {
    if |s| == 0 then s
    else
      ShuffleFromPermutes(s, |s| - 1, rnd, draw);
      ShuffleFrom(s, |s| - 1, rnd, draw)
  }

  /** The first two entries of a shuffled duplicate-free list differ. */
  lemma ShuffleHeadsDiffer<T>(s: seq<T>, rnd: nat -> real, draw: nat)
    requires UnitOracle(rnd) && NoDup(s) && |s| >= 2
    ensures Shuffle(s, rnd, draw)[0] != Shuffle(s, rnd, draw)[1]
  {
    PermutationKeepsNoDup(s, Shuffle(s, rnd, draw));
  }

  // ---------------------------------------------------------------------
  // generateMockPosts

  const Usernames: seq<string> :=
    ["johndoe", "janedoe", "photographer", "traveler", "artist", "explorer", "creator", "wanderer"]

  /** The captions; the first ends in the four characters the source file
      holds where an emoji was meant (its UTF-8 bytes read as Windows-1252). */
  const Captions: seq<string> := [
    "Beautiful sunset today! \U{00F0}\U{0178}\U{0152}\U{2026}",
    "Exploring new places",
    "Life is beautiful",
    "Nature never fails to amaze",
    "Living the moment",
    "Adventure awaits",
    "Making memories",
    "Chasing dreams",
    "Every moment is a new beginning",
    "Finding beauty in simplicity"]

  /** Random draws per generated post: two shuffles of ten, then likes,
      comments and the liked flag. */
  const DrawsPerPost: nat := 21

  /** One hour in milliseconds, the age step between consecutive posts. */
  const HourMs: int := 3600000

  function PostId(k: nat): string {
    "post_" + NatToString(k)
  }

  /** Post ids name the post index. */
  lemma PostIdInjective(a: nat, b: nat)
    requires PostId(a) == PostId(b)
    ensures a == b
  {
    TaggedNumberInjective("post_", a, "", b, "");
  }

  /** The media id `<tag>_<k>_<slot>`. */
  function MediaId(tag: string, k: nat, slot: nat): string {
    tag + "_" + NatToString(k) + "_" + NatToString(slot)
  }

  /** A media item built from one of the image assets: its handle, its
      thumbnail, no duration. */
  predicate FromImageAsset(m: MediaItem, id: string, images: seq<ImageAsset>) {
    && m.id == id && m.kind == Image && m.thumbnail.Some? && m.duration.None?
    && ImageAsset(m.uri, m.thumbnail.value) in images
  }

  /** A media item built from one of the video assets: its handle and its
      duration, no thumbnail. */
  predicate FromVideoAsset(m: MediaItem, id: string, videos: seq<VideoAsset>) {
    && m.id == id && m.kind == Video && m.thumbnail.None? && m.duration.Some?
    && VideoAsset(m.uri, m.duration.value) in videos
  }

  /** The media of post `k`: both asset lists are shuffled (from draws
      `draw` and `draw + 9`), then an odd index takes the first video and an
      even one the first two images. */
  function PostMedia(k: nat, assets: Assets, rnd: nat -> real, draw: nat): (media: seq<MediaItem>)
    requires ValidAssets(assets) && UnitOracle(rnd)
    ensures k % 2 == 1 ==> |media| == 1 && FromVideoAsset(media[0], MediaId("video", k, 1), assets.videos)
    ensures k % 2 == 0 ==>
      && |media| == 2
      && FromImageAsset(media[0], MediaId("img", k, 1), assets.images)
      && FromImageAsset(media[1], MediaId("img", k, 2), assets.images)
      && media[0].uri != media[1].uri
  {
    var images := Shuffle(assets.images, rnd, draw);
    var videos := Shuffle(assets.videos, rnd, draw + ShuffleDraws(|assets.images|));
    assert videos[0] in multiset(assets.videos);
    assert images[0] in multiset(assets.images) && images[1] in multiset(assets.images);
    ImageAssetsDistinct(assets);
    ShuffleHeadsDiffer(assets.images, rnd, draw);
    if k % 2 == 1 then
      [MediaItem(MediaId("video", k, 1), Video, videos[0].uri, None, Some(videos[0].duration))]
    else
      [MediaItem(MediaId("img", k, 1), Image, images[0].uri, Some(images[0].thumbnail), None),
       MediaItem(MediaId("img", k, 2), Image, images[1].uri, Some(images[1].thumbnail), None)]
  }

  /** One iteration of the generator's loop for post index `k`, with the
      iteration's first random draw at `draw` and clock reading `now`. */
  function MakePost(k: nat, assets: Assets, rnd: nat -> real, draw: nat, now: int): (p: Post)
    requires ValidAssets(assets) && UnitOracle(rnd)
    ensures p.id == PostId(k) && p.userId == "user_" + NatToString(k)
    ensures p.username == Usernames[k % 8] && p.caption == Captions[k % 10] && p.userAvatar.None?
    ensures p.kind == VideoPost <==> k % 2 == 1
    ensures p.media == PostMedia(k, assets, rnd, draw)
    ensures 50 <= p.likes < 1050 && 5 <= p.comments < 105
    ensures p.isLiked <==> rnd(draw + 20) > 0.7
    ensures p.timestamp == now - k * 3600000
  {
    Post(PostId(k), "user_" + NatToString(k), Usernames[k % 8], None, if k % 2 == 1 then VideoPost else Images,
         PostMedia(k, assets, rnd, draw), Captions[k % 10],
         RandomIndex(rnd(draw + 18), 1000) + 50, RandomIndex(rnd(draw + 19), 100) + 5,
         now - k * 3600000, rnd(draw + 20) > 0.7)
  }

  /** The loop of `generateMockPosts`: `limit` iterations in order, where
      iteration `i` makes post index `start + i`, takes its random draws from
      `draw + 21 * i` and reads the clock at tick `tick + i`. */
  function Generate(start: nat, limit: nat, assets: Assets, rnd: nat -> real, draw: nat, clock: nat -> int, tick: nat)
    : (ps: seq<Post>)
    requires ValidAssets(assets) && UnitOracle(rnd)
    ensures |ps| == limit
    ensures forall i :: 0 <= i < limit ==> ps[i] == MakePost(start + i, assets, rnd, draw + 21 * i, clock(tick + i))
  {
    seq(limit, i requires 0 <= i < limit => MakePost(start + i, assets, rnd, draw + 21 * i, clock(tick + i)))
  }

  /** Timestamps never increase along the list. */
  predicate NewestFirst(ps: seq<Post>) {
    forall i, j :: 0 <= i < j < |ps| ==> ps[i].timestamp >= ps[j].timestamp
  }

  /** Inserts `p` before the first post that is not newer than it. */
  function Insert(p: Post, ps: seq<Post>): (r: seq<Post>)
    requires NewestFirst(ps)
    ensures |r| == |ps| + 1
    ensures multiset(r) == multiset(ps) + multiset{p}
    ensures forall x :: x in r <==> x == p || x in ps
    ensures NewestFirst(r)
  {
    if ps == [] || ps[0].timestamp <= p.timestamp then
      assert forall x :: x in ps ==> x.timestamp <= p.timestamp by {
        assert forall k :: 0 <= k < |ps| ==> ps[k].timestamp <= p.timestamp;
      }
      ConsNewestFirst(p, ps);
      [p] + ps
    else
      var tail := ps[1..];
      assert NewestFirst(tail);
      var rest := Insert(p, tail);
      assert ps == [ps[0]] + tail;
      assert forall x :: x in rest ==> x.timestamp <= ps[0].timestamp by {
        assert forall x :: x in tail ==> x.timestamp <= ps[0].timestamp;
      }
      ConsNewestFirst(ps[0], rest);
      [ps[0]] + rest
  }

  /** A post no older than every post of a newest-first list can go in
      front of it. */
  lemma ConsNewestFirst(h: Post, ps: seq<Post>)
    requires NewestFirst(ps)
    requires forall x :: x in ps ==> x.timestamp <= h.timestamp
    ensures NewestFirst([h] + ps)
  {
    assert forall k :: 0 <= k < |ps| ==> ps[k] in ps;
  }

  /** `posts.sort((a, b) => b.timestamp - a.timestamp)`: a stable sort,
      newest first. */
  function SortNewestFirst(ps: seq<Post>): (r: seq<Post>)
    ensures |r| == |ps|
    ensures multiset(r) == multiset(ps)
    ensures NewestFirst(r)
  {
    if ps == [] then []
    else
      assert ps == [ps[0]] + ps[1..];
      Insert(ps[0], SortNewestFirst(ps[1..]))
  }

  /** A list already newest first is left as it is: the sort is stable. */
  lemma {:induction false} SortKeepsSortedList(ps: seq<Post>)
    requires NewestFirst(ps)
    ensures SortNewestFirst(ps) == ps
  {
    if ps != [] {
      SortKeepsSortedList(ps[1..]);
      assert ps == [ps[0]] + ps[1..];
    }
  }

  /** The clock readings of a loop of `n` iterations from tick `tick` lie
      within an hour of the first one and never go back. */
  ghost predicate WithinAnHour(clock: nat -> int, tick: nat, n: nat) {
    forall t :: tick <= t < tick + n ==> clock(tick) <= clock(t) < clock(tick) + HourMs
  }

  /** When the loop runs for less than an hour, its posts come out newest
      first, so the sort returns them in generation order. */
  lemma GeneratedNewestFirst(start: nat, limit: nat, assets: Assets, rnd: nat -> real, draw: nat, clock: nat -> int, tick: nat)
    requires ValidAssets(assets) && UnitOracle(rnd) && WithinAnHour(clock, tick, limit)
    ensures NewestFirst(Generate(start, limit, assets, rnd, draw, clock, tick))
    ensures SortNewestFirst(Generate(start, limit, assets, rnd, draw, clock, tick)) == Generate(start, limit, assets, rnd, draw, clock, tick)
  {
    var ps := Generate(start, limit, assets, rnd, draw, clock, tick);
    forall i, j | 0 <= i < j < |ps|
      ensures ps[i].timestamp >= ps[j].timestamp
    {
      assert ps[i].timestamp == clock(tick + i) - (start + i) * 3600000;
      assert ps[j].timestamp == clock(tick + j) - (start + j) * 3600000;
      assert (start + j) * 3600000 - (start + i) * 3600000 == (j - i) * HourMs;
    }
    SortKeepsSortedList(ps);
  }

  /** The post index of the first post of a page: `(page - 1) * limit`. */
  function PageStart(page: nat, limit: nat): (start: nat)
    requires page >= 1
    ensures start + limit == page * limit
  {
    MulMonotone(page, page, limit);
    (page - 1) * limit
  }

  /** `generateMockPosts(page, limit)` for a page from 1 up. */
  function GenerateMockPosts(page: nat, limit: nat, assets: Assets, rnd: nat -> real, draw: nat, clock: nat -> int, tick: nat)
    : (ps: seq<Post>)
    requires page >= 1 && ValidAssets(assets) && UnitOracle(rnd)
    ensures |ps| == limit
    ensures NewestFirst(ps)
    ensures multiset(ps) == multiset(Generate(PageStart(page, limit), limit, assets, rnd, draw, clock, tick))
  {
    SortNewestFirst(Generate(PageStart(page, limit), limit, assets, rnd, draw, clock, tick))
  }

  /** What a post of the loop carries from its post index. */
  predicate IndexedPost(p: Post, k: nat) {
    p.id == PostId(k) && p.username == Usernames[k % 8] && p.caption == Captions[k % 10]
  }

  /** Iteration `i` makes the post of index `start + i`. */
  lemma GenerateIndexed(start: nat, limit: nat, assets: Assets, rnd: nat -> real, draw: nat, clock: nat -> int, tick: nat)
    requires ValidAssets(assets) && UnitOracle(rnd)
    ensures forall i :: 0 <= i < limit ==> IndexedPost(Generate(start, limit, assets, rnd, draw, clock, tick)[i], start + i)
  {
    var gs := Generate(start, limit, assets, rnd, draw, clock, tick);
    forall i | 0 <= i < limit
      ensures IndexedPost(gs[i], start + i)
    {
      assert gs[i] == MakePost(start + i, assets, rnd, draw + 21 * i, clock(tick + i));
    }
  }

  /** Every entry of a permutation is an entry of the original. */
  lemma PermutationMembers<T>(a: seq<T>, b: seq<T>, x: T)
    requires multiset(a) == multiset(b) && x in b
    ensures exists i :: 0 <= i < |a| && a[i] == x
  {
    assert x in multiset(a);
  }

  /** Posts carrying consecutive post indices have distinct ids. */
  lemma IndexedDistinctIds(start: nat, gs: seq<Post>)
    requires forall i :: 0 <= i < |gs| ==> IndexedPost(gs[i], start + i)
    ensures DistinctIds(gs)
  {
    forall i, j | 0 <= i < j < |gs|
      ensures gs[i].id != gs[j].id
    {
      if gs[i].id == gs[j].id {
        assert IndexedPost(gs[i], start + i) && IndexedPost(gs[j], start + j);
        PostIdInjective(start + i, start + j);
      }
    }
  }

  /** Every post of a reordering of the loop's posts has a post index from
      `start` up to `start + limit`. */
  lemma PermutedGenerateIndexed(start: nat, limit: nat, gs: seq<Post>, ps: seq<Post>)
    requires |gs| == limit && multiset(ps) == multiset(gs)
    requires forall i :: 0 <= i < limit ==> IndexedPost(gs[i], start + i)
    ensures forall p :: p in ps ==> exists k :: start <= k < start + limit && IndexedPost(p, k)
  {
    forall p | p in ps
      ensures exists k :: start <= k < start + limit && IndexedPost(p, k)
    {
      PermutationMembers(gs, ps, p);
      var i :| 0 <= i < |gs| && gs[i] == p;
      assert IndexedPost(p, start + i);
    }
  }

  /** The loop's posts, in whatever order, have distinct ids and are those
      of post indices `start` up to `start + limit`. */
  lemma SortedGenerateFacts(start: nat, limit: nat, assets: Assets, rnd: nat -> real, draw: nat, clock: nat -> int, tick: nat)
    requires ValidAssets(assets) && UnitOracle(rnd)
    ensures DistinctIds(SortNewestFirst(Generate(start, limit, assets, rnd, draw, clock, tick)))
    ensures forall p :: p in SortNewestFirst(Generate(start, limit, assets, rnd, draw, clock, tick)) ==>
      exists k :: start <= k < start + limit && IndexedPost(p, k)
  {
    var gs := Generate(start, limit, assets, rnd, draw, clock, tick);
    var ps := SortNewestFirst(gs);
    GenerateIndexed(start, limit, assets, rnd, draw, clock, tick);
    IndexedDistinctIds(start, gs);
    PermutationKeepsDistinctIds(gs, ps);
    PermutedGenerateIndexed(start, limit, gs, ps);
  }

  /** The posts of a page are those of post indices `(page - 1) * limit`
      up to `page * limit`, and no two share an id. */
  lemma PageFacts(page: nat, limit: nat, assets: Assets, rnd: nat -> real, draw: nat, clock: nat -> int, tick: nat)
    requires page >= 1 && ValidAssets(assets) && UnitOracle(rnd)
    ensures DistinctIds(GenerateMockPosts(page, limit, assets, rnd, draw, clock, tick))
    ensures forall p :: p in GenerateMockPosts(page, limit, assets, rnd, draw, clock, tick) ==>
      exists k :: PageStart(page, limit) <= k < PageStart(page, limit) + limit && IndexedPost(p, k)
  {
    SortedGenerateFacts(PageStart(page, limit), limit, assets, rnd, draw, clock, tick);
  }

  /** A page's usernames and captions come from the generator's lists. */
  lemma PageFromLists(page: nat, limit: nat, assets: Assets, rnd: nat -> real, draw: nat, clock: nat -> int, tick: nat)
    requires page >= 1 && ValidAssets(assets) && UnitOracle(rnd)
    ensures forall p :: p in GenerateMockPosts(page, limit, assets, rnd, draw, clock, tick) ==>
      p.username in Usernames && p.caption in Captions
  {
    PageFacts(page, limit, assets, rnd, draw, clock, tick);
    forall p | p in GenerateMockPosts(page, limit, assets, rnd, draw, clock, tick)
      ensures p.username in Usernames && p.caption in Captions
    {
      var k :| PageStart(page, limit) <= k < PageStart(page, limit) + limit && IndexedPost(p, k);
      assert p.username == Usernames[k % 8] && p.caption == Captions[k % 10];
    }
  }

  /** Two different pages of the same size share no post id. */
  lemma PagesShareNoIds(p1: nat, p2: nat, limit: nat, assets: Assets, rnd: nat -> real, draw1: nat, draw2: nat,
                        clock: nat -> int, tick1: nat, tick2: nat)
    requires p1 >= 1 && p2 >= 1 && p1 != p2 && ValidAssets(assets) && UnitOracle(rnd)
    ensures PostIds(GenerateMockPosts(p1, limit, assets, rnd, draw1, clock, tick1))
      !! PostIds(GenerateMockPosts(p2, limit, assets, rnd, draw2, clock, tick2))
  {
    var a := GenerateMockPosts(p1, limit, assets, rnd, draw1, clock, tick1);
    var b := GenerateMockPosts(p2, limit, assets, rnd, draw2, clock, tick2);
    PageFacts(p1, limit, assets, rnd, draw1, clock, tick1);
    PageFacts(p2, limit, assets, rnd, draw2, clock, tick2);
    forall id | id in PostIds(a)
      ensures id !in PostIds(b)
    {
      var x :| x in a && x.id == id;
      var k1 :| PageStart(p1, limit) <= k1 < PageStart(p1, limit) + limit && IndexedPost(x, k1);
      if id in PostIds(b) {
        var y :| y in b && y.id == id;
        var k2 :| PageStart(p2, limit) <= k2 < PageStart(p2, limit) + limit && IndexedPost(y, k2);
        PostIdInjective(k1, k2);
        PageIndexInjective(p1, k1 - PageStart(p1, limit), p2, k2 - PageStart(p2, limit), limit);
      }
    }
  }

  lemma PageIndexInjective(p1: nat, i: nat, p2: nat, j: nat, limit: nat)
    requires p1 >= 1 && p2 >= 1 && i < limit && j < limit
    requires PageStart(p1, limit) + i == PageStart(p2, limit) + j
    ensures p1 == p2
  {
    if p1 < p2 {
      MulMonotone(p1, p2 - 1, limit);
    } else if p2 < p1 {
      MulMonotone(p2, p1 - 1, limit);
    }
  }

  lemma MulMonotone(a: nat, b: nat, c: nat)
    requires a <= b
    ensures a * c <= b * c && (a - 1) * c + c == a * c
  {
  }

  // ---------------------------------------------------------------------
  // getPosts

  /** The total number of pages the mock backend pretends to hold. */
  const TotalPages: nat := 10

  datatype PostsPage = PostsPage(posts: seq<Post>, hasMore: bool, total: nat, currentPage: nat)

  /** `getPosts(page, limit)` for a page from 1 up; the reply delay is not
      modelled. */
  function GetPosts(page: nat, limit: nat, assets: Assets, rnd: nat -> real, clock: nat -> int): (r: PostsPage)
    requires page >= 1 && ValidAssets(assets) && UnitOracle(rnd)
    ensures |r.posts| == limit && NewestFirst(r.posts) && DistinctIds(r.posts)
    ensures forall p :: p in r.posts ==> exists k :: PageStart(page, limit) <= k < page * limit && p.id == PostId(k)
    ensures r.hasMore <==> page < TotalPages
    ensures r.total == TotalPages * limit
    ensures r.currentPage == page
  {
    var ps := GenerateMockPosts(page, limit, assets, rnd, 0, clock, 0);
    PageFacts(page, limit, assets, rnd, 0, clock, 0);
    PostsPage(ps, page < TotalPages, TotalPages * limit, page)
  }

  // ---------------------------------------------------------------------
  // searchPosts

  /** The pages of ten posts `searchPosts` generates. */
  const SearchPages: nat := 10

  /** The posts `searchPosts` builds: pages 1 to `n` of ten, in page order;
      each page makes 210 random draws and reads the clock ten times. */
  function SearchCorpus(n: nat, assets: Assets, rnd: nat -> real, clock: nat -> int): (ps: seq<Post>)
    requires ValidAssets(assets) && UnitOracle(rnd)
    ensures |ps| == 10 * n
    ensures forall p :: p in ps ==> p.username in Usernames && p.caption in Captions
  {
    if n == 0 then []
    else
      var prev := SearchCorpus(n - 1, assets, rnd, clock);
      var page := GenerateMockPosts(n, 10, assets, rnd, (n - 1) * 210, clock, (n - 1) * 10);
      PageFromLists(n, 10, assets, rnd, (n - 1) * 210, clock, (n - 1) * 10);
      assert forall p :: p in prev + page ==> p in prev || p in page;
      prev + page
  }

  /** The filter's test against the lower-cased, trimmed query. */
  predicate SearchMatches(p: Post, lowerQuery: string) {
    Contains(Lower(p.caption), lowerQuery) || Contains(Lower(p.username), lowerQuery)
  }

  function Filter(ps: seq<Post>, lowerQuery: string): (r: seq<Post>)
    ensures |r| <= |ps|
    ensures forall p :: p in r <==> p in ps && SearchMatches(p, lowerQuery)
  {
    if ps == [] then []
    else
      var rest := Filter(ps[1..], lowerQuery);
      assert forall p :: p in ps <==> p == ps[0] || p in ps[1..];
      if SearchMatches(ps[0], lowerQuery) then [ps[0]] + rest else rest
  }

  /** `Filter` keeps list order: it distributes over concatenation, and
      with the membership and length bound it is the order-preserving
      filter. */
  lemma {:induction false} FilterAppend(a: seq<Post>, b: seq<Post>, lowerQuery: string)
    ensures Filter(a + b, lowerQuery) == Filter(a, lowerQuery) + Filter(b, lowerQuery)
  {
    if a == [] {
      assert a + b == b;
    } else {
      assert (a + b)[1..] == a[1..] + b;
      FilterAppend(a[1..], b, lowerQuery);
    }
  }

  /** Searching the first `n` pages gives the matches of the first `n - 1`
      pages followed by the matches of page `n`: results come page by page,
      in each page's order. */
  lemma SearchCorpusPageOrder(n: nat, lowerQuery: string, assets: Assets, rnd: nat -> real, clock: nat -> int)
    requires ValidAssets(assets) && UnitOracle(rnd) && n >= 1
    ensures Filter(SearchCorpus(n, assets, rnd, clock), lowerQuery)
      == Filter(SearchCorpus(n - 1, assets, rnd, clock), lowerQuery)
       + Filter(GenerateMockPosts(n, 10, assets, rnd, (n - 1) * 210, clock, (n - 1) * 10), lowerQuery)
  {
    FilterAppend(SearchCorpus(n - 1, assets, rnd, clock),
                 GenerateMockPosts(n, 10, assets, rnd, (n - 1) * 210, clock, (n - 1) * 10), lowerQuery);
  }

  /** `searchPosts(query)`: the posts of pages 1 to 10 whose caption or
      username contains the lower-cased, trimmed query, ignoring case; the
      reply delay is not modelled. */
  function SearchPosts(query: string, assets: Assets, rnd: nat -> real, clock: nat -> int): (r: seq<Post>)
    requires ValidAssets(assets) && UnitOracle(rnd)
    ensures forall p :: p in r <==> p in SearchCorpus(SearchPages, assets, rnd, clock) && SearchMatches(p, Trim(Lower(query)))
    ensures r == Filter(SearchCorpus(SearchPages, assets, rnd, clock), Trim(Lower(query)))
    ensures |r| <= 100
  {
    Filter(SearchCorpus(SearchPages, assets, rnd, clock), Trim(Lower(query)))
  }

  /** Filtering with the empty query keeps everything. */
  lemma {:induction false} FilterEmptyKeepsAll(ps: seq<Post>)
    ensures Filter(ps, "") == ps
  {
    if ps != [] {
      ContainsEmpty(Lower(ps[0].caption));
      FilterEmptyKeepsAll(ps[1..]);
    }
  }

  /** A blank query keeps every post, in order. */
  lemma BlankQueryKeepsAll(query: string, ps: seq<Post>)
    requires AllSpace(query)
    ensures Filter(ps, Trim(Lower(query))) == ps
  {
    assert AllSpace(Lower(query));
    FilterEmptyKeepsAll(ps);
  }

  /** A blank query returns all one hundred generated posts, in order. */
  lemma BlankQueryReturnsAll(query: string, assets: Assets, rnd: nat -> real, clock: nat -> int)
    requires ValidAssets(assets) && UnitOracle(rnd) && AllSpace(query)
    ensures SearchPosts(query, assets, rnd, clock) == SearchCorpus(SearchPages, assets, rnd, clock)
    ensures |SearchPosts(query, assets, rnd, clock)| == 100
  {
    BlankQueryKeepsAll(query, SearchCorpus(SearchPages, assets, rnd, clock));
  }

  /** Every username is already lower-case and trimmed. */
  lemma UsernamesNormal(u: string)
    requires u in Usernames
    ensures Lower(u) == u && Trim(u) == u
  {
    assert forall k :: 0 <= k < |u| ==> !('A' <= u[k] <= 'Z');
    TrimOfTrimmed(u);
  }

  /** Searching for a post's username, in any ASCII letter case and with
      surrounding blanks, finds that post. */
  lemma SearchFindsUsername(p: Post, query: string, assets: Assets, rnd: nat -> real, clock: nat -> int)
    requires ValidAssets(assets) && UnitOracle(rnd) && p in SearchCorpus(SearchPages, assets, rnd, clock)
    requires Trim(Lower(query)) == p.username
    ensures p in SearchPosts(query, assets, rnd, clock)
  {
    UsernameMatches(p, query);
  }

  /** A post matches a query that is its username up to case and blanks. */
  lemma UsernameMatches(p: Post, query: string)
    requires p.username in Usernames && Trim(Lower(query)) == p.username
    ensures SearchMatches(p, Trim(Lower(query)))
  {
    UsernamesNormal(p.username);
    assert OccursAt(Lower(p.username), p.username, 0);
  }
}
