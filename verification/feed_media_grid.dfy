/** The search-tab media grid (`components/Organisms/MediaGrid/MediaGrid.tsx`):
    the media of the posts whose caption matches the query, the end-of-list
    trigger, the footer and empty-list choices, and the prefetch effect. */
module FeedMediaGrid {
  import opened Base
  import opened Text
  import opened MediaTypes
  import ImagePrefetchHook
  import ImageCacheService
  import PlayerVisibility

  /** The posts hook's state as the grid reads it; `error` carries the
      message of a present error object. */
  datatype FeedView = FeedView(
    posts: seq<Post>,
    isLoading: bool,
    isLoadingMore: bool,
    error: Option<string>,
    hasMore: bool)

  /** `handleEndReached`: asks for the next page exactly when there is more
      and no page is already loading. */
  function HandleEndReached(f: FeedView): (callsLoadMore: bool)
    ensures callsLoadMore <==> f.hasMore && !f.isLoadingMore
  {
    f.hasMore && !f.isLoadingMore
  }

  /** A post is kept when its lower-cased caption contains the lower-cased
      query; the username is not searched. */
  predicate MatchesQuery(p: Post, query: string) {
    Contains(Lower(p.caption), Lower(query))
  }

  /** All media of `posts`, post by post, in order. */
  function Flatten(posts: seq<Post>): (ms: seq<MediaItem>)
    ensures forall m :: m in ms <==> exists i :: 0 <= i < |posts| && m in posts[i].media
  {
    if posts == [] then []
    else
      var rest := Flatten(posts[1..]);
      assert forall i :: 1 <= i < |posts| ==> posts[i] == posts[1..][i - 1];
      posts[0].media + rest
  }

  /** The posts that match the query, in order. */
  function Matching(posts: seq<Post>, query: string): (ps: seq<Post>)
    ensures |ps| <= |posts|
    ensures forall p :: p in ps <==> p in posts && MatchesQuery(p, query)
  {
    if posts == [] then []
    else
      var rest := Matching(posts[1..], query);
      if MatchesQuery(posts[0], query) then [posts[0]] + rest else rest
  }

  /** The `media` memo: the media of the matching posts, flattened in order. */
  function Media(posts: seq<Post>, query: string): (ms: seq<MediaItem>)
    ensures forall m :: m in ms <==> exists p :: p in posts && MatchesQuery(p, query) && m in p.media
  {
    var ps := Matching(posts, query);
    assert forall p :: p in ps ==> exists i :: 0 <= i < |ps| && ps[i] == p;
    Flatten(ps)
  }

  /** `Flatten` keeps post order and each post's media order: it is the
      concatenation of the posts' media lists. */
  lemma {:induction false} FlattenAppend(a: seq<Post>, b: seq<Post>)
    ensures Flatten(a + b) == Flatten(a) + Flatten(b)
    ensures |a| == 1 ==> Flatten(a) == a[0].media
  {
    if a == [] {
      assert a + b == b;
    } else {
      assert (a + b)[1..] == a[1..] + b;
      FlattenAppend(a[1..], b);
      if |a| == 1 {
        assert a[1..] == [];
      }
    }
  }

  /** `Matching` keeps the posts' order: it distributes over
      concatenation, and with the membership and length bound it is the
      order-preserving filter. */
  lemma {:induction false} MatchingAppend(a: seq<Post>, b: seq<Post>, query: string)
    ensures Matching(a + b, query) == Matching(a, query) + Matching(b, query)
  {
    if a == [] {
      assert a + b == b;
    } else {
      assert (a + b)[1..] == a[1..] + b;
      MatchingAppend(a[1..], b, query);
    }
  }

  /** The grid shows the media post by post in list order, each matching
      post contributing all its media and every other post none. */
  lemma MediaAppend(a: seq<Post>, b: seq<Post>, query: string)
    ensures Media(a + b, query) == Media(a, query) + Media(b, query)
    ensures |a| == 1 ==> Media(a, query) == if MatchesQuery(a[0], query) then a[0].media else []
  {
    MatchingAppend(a, b, query);
    FlattenAppend(Matching(a, query), Matching(b, query));
    if |a| == 1 {
      assert a[1..] == [];
      var m := Matching(a, query);
      if MatchesQuery(a[0], query) {
        assert m == [a[0]];
        FlattenAppend(m, []);
      } else {
        assert m == [];
      }
    }
  }

  /** An empty query matches every caption, so the grid shows all media. */
  lemma {:induction false} EmptyQueryShowsAll(posts: seq<Post>)
    ensures Media(posts, "") == Flatten(posts)
  {
    if posts != [] {
      ContainsEmpty(Lower(posts[0].caption));
      EmptyQueryShowsAll(posts[1..]);
    }
  }

  /** Queries that differ only in ASCII letter case select the same media. */
  lemma QueryCaseInsensitive(posts: seq<Post>, q1: string, q2: string)
    requires Lower(q1) == Lower(q2)
    ensures Media(posts, q1) == Media(posts, q2)
  {
    assert forall p :: MatchesQuery(p, q1) == MatchesQuery(p, q2);
    assert Matching(posts, q1) == Matching(posts, q2) by {
      MatchingDependsOnLowerQuery(posts, q1, q2);
    }
  }

  lemma {:induction false} MatchingDependsOnLowerQuery(posts: seq<Post>, q1: string, q2: string)
    requires Lower(q1) == Lower(q2)
    ensures Matching(posts, q1) == Matching(posts, q2)
  {
    if posts != [] {
      MatchingDependsOnLowerQuery(posts[1..], q1, q2);
    }
  }

  datatype Footer = EndMessage | NoFooter | FooterLoader

  /** `renderFooter`: the end message once the feed is exhausted and not
      empty, otherwise a spinner only while a page is loading. */
  function RenderFooter(f: FeedView): (r: Footer)
    ensures r == EndMessage <==> !f.hasMore && |f.posts| > 0
    ensures r == FooterLoader <==> (f.hasMore || |f.posts| == 0) && f.isLoadingMore
  {
    if !f.hasMore && |f.posts| > 0 then EndMessage
    else if !f.isLoadingMore then NoFooter
    else FooterLoader
  }

  /** The footer and the end-of-list trigger agree: while the spinner or
      the end message shows, reaching the end asks for no page, and with
      no footer shown and more pages to come it always asks for one. */
  lemma FooterBlocksLoadMore(f: FeedView)
    ensures RenderFooter(f) != NoFooter ==> !HandleEndReached(f)
    ensures RenderFooter(f) == NoFooter && f.hasMore ==> HandleEndReached(f)
  {
  }

  /** What the list shows when it has no media. */
  datatype EmptyView =
    | Skeletons(count: nat)
    | NetworkEmpty(message: string)
    | FeedEmpty

  /** `renderEmpty`: skeletons while loading, the error's message (with a
      retry) when there is an error, else the "no posts yet" state. */
  function RenderEmpty(f: FeedView): (r: EmptyView)
    ensures f.isLoading <==> r.Skeletons?
    ensures r.Skeletons? ==> r.count == 3
    ensures r.NetworkEmpty? <==> !f.isLoading && f.error.Some?
    ensures r.NetworkEmpty? ==> r.message == f.error.value
    ensures r == FeedEmpty <==> !f.isLoading && f.error.None?
  {
    if f.isLoading then Skeletons(3)
    else if f.error.Some? then NetworkEmpty(f.error.value)
    else FeedEmpty
  }

  /** A grid cell is marked visible exactly when the visibility hook reports
      its index; this grid has no pause switch. */
  function CellVisible(visible: PlayerVisibility.Visibility, index: int): (b: bool)
    ensures b <==> index in visible.order
  {
    PlayerVisibility.IsItemVisible(visible, index)
  }

  /** The `{uri, thumbnailUri}` objects the prefetch effect builds: every
      image of every post, ignoring the query. */
  function PrefetchArgs(posts: seq<Post>): (items: seq<ImageCacheService.PrefetchItem>)
    ensures forall it :: it in items <==>
      exists m :: m in Flatten(posts) && m.kind == Image && it == ImageCacheService.PrefetchItem(m.uri, m.thumbnail)
  {
    ImagesOf(Flatten(posts))
  }

  function ImagesOf(ms: seq<MediaItem>): (items: seq<ImageCacheService.PrefetchItem>)
    ensures |items| <= |ms|
    ensures forall it :: it in items <==>
      exists m :: m in ms && m.kind == Image && it == ImageCacheService.PrefetchItem(m.uri, m.thumbnail)
  {
    if ms == [] then []
    else
      var rest := ImagesOf(ms[1..]);
      assert forall m :: m in ms[1..] ==> m in ms;
      assert forall m :: m in ms ==> m == ms[0] || m in ms[1..];
      if ms[0].kind == Image then [ImageCacheService.PrefetchItem(ms[0].uri, ms[0].thumbnail)] + rest else rest
  }

  /** One object per image medium, in order: `ImagesOf` distributes over
      concatenation and maps a single medium to one object or none. */
  lemma {:induction false} ImagesOfAppend(a: seq<MediaItem>, b: seq<MediaItem>)
    ensures ImagesOf(a + b) == ImagesOf(a) + ImagesOf(b)
    ensures |a| == 1 ==> ImagesOf(a) == if a[0].kind == Image then [ImageCacheService.PrefetchItem(a[0].uri, a[0].thumbnail)] else []
  {
    if a == [] {
      assert a + b == b;
    } else {
      assert (a + b)[1..] == a[1..] + b;
      ImagesOfAppend(a[1..], b);
      if |a| == 1 {
        assert a[1..] == [];
      }
    }
  }

  /** The effect's argument lists the images post by post in list order. */
  lemma PrefetchArgsAppend(a: seq<Post>, b: seq<Post>)
    ensures PrefetchArgs(a + b) == PrefetchArgs(a) + PrefetchArgs(b)
  {
    FlattenAppend(a, b);
    ImagesOfAppend(Flatten(a), Flatten(b));
  }

  /** `getImageUri` applied to each object of the effect's argument: none is a
      string, so each becomes `''`. */
  function ObjectUris(items: seq<ImageCacheService.PrefetchItem>): (us: seq<string>)
    ensures |us| == |items|
    ensures forall k :: 0 <= k < |us| ==> us[k] == ""
  {
    seq(|items|, _ => "")
  }

  /** The prefetch effect as written: when there are posts with at least one
      image, it hands the objects to the `useImagePrefetch` hook, which
      expects strings or bundled handles. */
  function PrefetchEffectAsWritten(h: ImagePrefetchHook.Hook, posts: seq<Post>, throws: bool): (h': ImagePrefetchHook.Hook)
    ensures |PrefetchArgs(posts)| == 0 ==> h' == h
  {
    var items := PrefetchArgs(posts);
    if |posts| > 0 && |items| > 0 then
      ImagePrefetchHook.PrefetchUris(h, ObjectUris(items), throws)
    else h
  }

  /** The effect as written never preloads and never tracks anything: every
      argument maps to the empty URI, which the hook skips. */
  lemma AsWrittenPrefetchesNothing(h: ImagePrefetchHook.Hook, posts: seq<Post>, throws: bool)
    ensures PrefetchEffectAsWritten(h, posts, throws) == h
  {
    var items := PrefetchArgs(posts);
    var us := ObjectUris(items);
    assert forall k :: k in us ==> k == "";
    assert ImagePrefetchHook.Batch(us, h.tracked) == [];
  }

  /** A single post with one string image: the effect as written still
      leaves the hook's log empty. */
  lemma AsWrittenExample()
    ensures var m := MediaItem("m1", Image, Str("https://example.com/a.jpg"), None, None);
      var p := Post("p1", "u1", "user", None, Images, [m], "caption", 0, 0, 0, false);
      PrefetchEffectAsWritten(ImagePrefetchHook.Mounted, [p], false).log == []
  {
    var m := MediaItem("m1", Image, Str("https://example.com/a.jpg"), None, None);
    var p := Post("p1", "u1", "user", None, Images, [m], "caption", 0, 0, 0, false);
    AsWrittenPrefetchesNothing(ImagePrefetchHook.Mounted, [p], false);
  }

  /** The effect as intended: the `{uri, thumbnailUri}` objects are exactly
      the items `imageCacheService.prefetchImages` takes, with thumbnails
      first, at the default priority. */
  function PrefetchEffect(svc: ImageCacheService.Service, posts: seq<Post>, thumbThrows: bool, imageThrows: bool)
    : (s: ImageCacheService.Service)
    ensures |PrefetchArgs(posts)| == 0 ==> s == svc
    ensures |PrefetchArgs(posts)| > 0 ==>
      s == ImageCacheService.PrefetchImages(svc, PrefetchArgs(posts), None, thumbThrows, imageThrows)
  {
    var items := PrefetchArgs(posts);
    if |posts| > 0 && |items| > 0 then
      ImageCacheService.PrefetchImages(svc, items, None, thumbThrows, imageThrows)
    else svc
  }

  /** After the intended effect, every image of every post whose URI is a
      string is tracked, whatever the query and whether the preloads threw. */
  lemma PrefetchEffectTracksAllImages(svc: ImageCacheService.Service, posts: seq<Post>, thumbThrows: bool, imageThrows: bool,
                                      m: MediaItem)
    requires m in Flatten(posts) && m.kind == Image && m.uri.Str?
    ensures m.uri.s in PrefetchEffect(svc, posts, thumbThrows, imageThrows).images
  {
    var items := PrefetchArgs(posts);
    var it := ImageCacheService.PrefetchItem(m.uri, m.thumbnail);
    assert it in items;
    var i :| 0 <= i < |items| && items[i] == it;
    assert |posts| > 0;
    assert ImageCacheService.ImageKeys(items)[i] == Some(m.uri.s);
  }
}
