/** The search screen (`screens/Search/SearchScreen.tsx`): the column count,
    the reaction to typing, the prefetch of the first images, which of the
    five content states shows, the retry action and the press on a cell.
    The search hook it reads (`useSearchRTK`) is not part of this model: its
    results are parameters. */
module SearchScreen {
  import opened Base
  import opened Text
  import opened MediaTypes
  import Breakpoints
  import ImagePrefetchHook
  import PlayerVisibility
  import LegacyMediaGrid

  /** The search hook's state as the screen reads it; `error` is the message
      of a present error object, and `postOf` is `mediaToPostMap`. */
  datatype SearchView = SearchView(
    media: seq<MediaItem>,
    postOf: map<string, Post>,
    isLoading: bool,
    error: Option<string>,
    hasInitialContent: bool)

  /** The `numColumns` memo: five from `lg` up, four on `md`, three below. */
  function NumColumns(b: Breakpoints.Breakpoint): (n: nat)
    ensures n == 5 <==> b == Breakpoints.Lg || b == Breakpoints.Xl
    ensures n == 4 <==> b == Breakpoints.Md
    ensures n == 3 <==> b == Breakpoints.Xs || b == Breakpoints.Sm
  {
    match b
    case Xl => 5
    case Lg => 5
    case Md => 4
    case Sm => 3
    case Xs => 3
  }

  /** The screen picks the same columns as the older grid does without a
      column prop. */
  lemma NumColumnsAgreesWithGrid(b: Breakpoints.Breakpoint)
    ensures NumColumns(b) == LegacyMediaGrid.NumColumns(None, b)
  {
  }

  /** The hook call a keystroke makes. */
  datatype SearchAction = Search(query: string) | ClearSearch

  /** `handleSearchChange(text)`: the raw text is stored; the hook searches
      for the trimmed text, or is cleared when the text is blank. */
  function HandleSearchChange(text: string): (r: (string, SearchAction))
    ensures r.0 == text
    ensures r.1.Search? <==> !AllSpace(text)
    ensures r.1.Search? ==> r.1.query == Trim(text) && r.1.query != ""
  {
    if Trim(text) != "" then (text, Search(Trim(text))) else (text, ClearSearch)
  }

  /** The query a search sends carries no surrounding whitespace, and typing
      it again with other surrounding blanks sends the same query. */
  lemma SearchQueryTrimmed(text: string)
    requires !AllSpace(text)
    ensures var q := HandleSearchChange(text).1.query;
      && !IsSpace(q[0]) && !IsSpace(q[|q| - 1])
      && HandleSearchChange(q).1 == Search(q)
  {
    TrimIdempotent(text);
  }

  /** The most media the prefetch effect looks at. */
  const PrefetchWindow: nat := 12

  /** The URIs of the image items of `ms`, in order. */
  function ImageUrisOf(ms: seq<MediaItem>): (us: seq<Ref>)
    ensures |us| <= |ms|
    ensures forall u :: u in us <==> exists m :: m in ms && m.kind == Image && m.uri == u
  {
    if ms == [] then []
    else
      var rest := ImageUrisOf(ms[1..]);
      assert forall m :: m in ms <==> m == ms[0] || m in ms[1..];
      if ms[0].kind == Image then [ms[0].uri] + rest else rest
  }

  /** `ImageUrisOf` keeps media order: it distributes over concatenation,
      and a single medium gives its URI exactly when it is an image. */
  lemma {:induction false} ImageUrisOfAppend(a: seq<MediaItem>, b: seq<MediaItem>)
    ensures ImageUrisOf(a + b) == ImageUrisOf(a) + ImageUrisOf(b)
    ensures |a| == 1 ==> ImageUrisOf(a) == if a[0].kind == Image then [a[0].uri] else []
  {
    if a == [] {
      assert a + b == b;
    } else {
      assert (a + b)[1..] == a[1..] + b;
      ImageUrisOfAppend(a[1..], b);
      if |a| == 1 {
        assert a[1..] == [];
      }
    }
  }

  /** The prefetch effect's argument: the image URIs among the first twelve
      media, or `None` when there is no such image and no call is made. */
  function SearchPrefetch(media: seq<MediaItem>): (r: Option<seq<Ref>>)
    ensures r.Some? <==> exists i :: 0 <= i < |media| && i < PrefetchWindow && media[i].kind == Image
    ensures r.Some? ==> r.value != [] && |r.value| <= PrefetchWindow
    ensures r.Some? ==> r.value == ImageUrisOf(if |media| <= PrefetchWindow then media else media[..PrefetchWindow])
    ensures r.Some? ==> forall u :: u in r.value <==>
      exists i :: 0 <= i < |media| && i < PrefetchWindow && media[i].kind == Image && media[i].uri == u
  {
    var visibleItems := if |media| <= PrefetchWindow then media else media[..PrefetchWindow];
    var us := ImageUrisOf(visibleItems);
    assert forall m :: m in visibleItems <==> exists i :: 0 <= i < |media| && i < PrefetchWindow && media[i] == m;
    assert |us| > 0 ==> us[0] in us;
    assert forall i :: 0 <= i < |media| && i < PrefetchWindow ==> visibleItems[i] == media[i] && media[i] in visibleItems;
    assert forall i :: 0 <= i < |media| && i < PrefetchWindow && media[i].kind == Image ==> media[i].uri in us;
    if |media| > 0 && |us| > 0 then Some(us) else None
  }

  /** The effect on the prefetch hook. */
  function PrefetchEffect(h: ImagePrefetchHook.Hook, media: seq<MediaItem>, throws: bool): (h': ImagePrefetchHook.Hook)
    ensures SearchPrefetch(media).None? ==> h' == h
    ensures SearchPrefetch(media).Some? ==> h' == ImagePrefetchHook.PrefetchImages(h, SearchPrefetch(media).value, throws)
  {
    match SearchPrefetch(media)
    case None => h
    case Some(us) => ImagePrefetchHook.PrefetchImages(h, us, throws)
  }

  /** After a preload that did not throw, every remote image among the
      first twelve results is tracked. */
  lemma PrefetchCoversFirstTwelve(h: ImagePrefetchHook.Hook, media: seq<MediaItem>, i: nat)
    requires i < |media| && i < PrefetchWindow && media[i].kind == Image && media[i].uri.Str? && media[i].uri.s != ""
    ensures media[i].uri.s in PrefetchEffect(h, media, false).tracked
  {
    var us := SearchPrefetch(media).value;
    assert media[i].uri in us;
    var k :| 0 <= k < |us| && us[k] == media[i].uri;
    assert ImagePrefetchHook.ImageUris(us)[k] == media[i].uri.s;
  }

  /** What fills the screen below the search bar. */
  datatype Content =
    | LoadingSkeleton(columns: nat)
    | NetworkError(message: string)
    | NoResults
    | InitialSkeleton(columns: nat)
    | Grid(data: seq<MediaItem>, columns: nat, pauseVideos: bool)

  /** The render's chain of conditions: the loading skeleton, then the
      network error, then "no results" for an empty list under a non-blank
      query, then the first-visit skeleton, then the grid with videos
      paused. */
  function Render(v: SearchView, query: string, b: Breakpoints.Breakpoint): (c: Content)
    ensures c.LoadingSkeleton? <==> v.isLoading
    ensures c.NetworkError? <==> !v.isLoading && v.error.Some?
    ensures c.NetworkError? ==> c.message == v.error.value
    ensures c.NoResults? <==> !v.isLoading && v.error.None? && v.media == [] && !AllSpace(query)
    ensures c.InitialSkeleton? <==>
      !v.isLoading && v.error.None? && v.media == [] && AllSpace(query) && !v.hasInitialContent
    ensures c.Grid? ==> c.data == v.media && c.pauseVideos
    ensures (c.LoadingSkeleton? || c.InitialSkeleton? || c.Grid?) ==> c.columns == NumColumns(b)
  {
    if v.isLoading then LoadingSkeleton(NumColumns(b))
    else if v.error.Some? then NetworkError(v.error.value)
    else if |v.media| == 0 && Trim(query) != "" then NoResults
    else if |v.media| == 0 && !v.hasInitialContent then InitialSkeleton(NumColumns(b))
    else Grid(v.media, NumColumns(b), true)
  }

  /** The grid shows whenever no earlier state applies, and then it has
      media or the search has shown content before. */
  lemma GridIsTheFallback(v: SearchView, query: string, b: Breakpoints.Breakpoint)
    ensures Render(v, query, b).Grid? <==>
      !v.isLoading && v.error.None? && (v.media != [] || (AllSpace(query) && v.hasInitialContent))
  {
  }

  /** Every video the screen shows in its grid is paused, wherever the
      visibility hook says it is. */
  lemma SearchVideosPaused(v: SearchView, query: string, b: Breakpoints.Breakpoint,
                           visible: PlayerVisibility.Visibility, index: nat)
    requires Render(v, query, b).Grid? && index < |v.media| && v.media[index].kind == Video
    ensures var c := Render(v, query, b);
      LegacyMediaGrid.RenderCell(c.data, index, c.pauseVideos, visible).content.paused
  {
    LegacyMediaGrid.VideoPlaysIffVisible(v.media, index, true, visible);
  }

  /** The error state's retry: searches again for the trimmed stored query,
      and does nothing when it is blank. */
  function OnRetry(query: string): (r: Option<string>)
    ensures r.Some? <==> !AllSpace(query)
    ensures r.Some? ==> r.value == Trim(query)
    ensures r.Some? ==> Search(r.value) == HandleSearchChange(query).1
  {
    if Trim(query) != "" then Some(Trim(query)) else None
  }

  /** `handleItemPress`: the post the pressed item belongs to, to open in
      the detail screen, or nothing when the item maps to no post. */
  function HandleItemPress(v: SearchView, item: MediaItem): (r: Option<Post>)
    ensures r.Some? <==> item.id in v.postOf
    ensures r.Some? ==> r.value == v.postOf[item.id]
  {
    if item.id in v.postOf then Some(v.postOf[item.id]) else None
  }
}
