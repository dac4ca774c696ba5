/** The older media grid (`components/MediaGrid/MediaGrid.tsx`) and its cell
    (`components/MediaGrid/MediaGridItem.tsx`): column count, the prefetch of
    visible images, which cells play video, and the fixed-height layout. */
module LegacyMediaGrid {
  import opened Base
  import opened MediaTypes
  import Breakpoints
  import PlayerVisibility
  import ImagePrefetchHook

  /** The grid asks the visibility hook for this threshold, which the hook
      ignores. */
  const VisibilityThreshold: int := 50

  /** At most this many visible indices are considered for prefetching. */
  const PrefetchWindow: nat := 12

  /** The `numColumns` memo: a truthy (non-zero) prop wins; otherwise five
      columns from `lg` up, four on `md`, three below. */
  function NumColumns(prop: Option<int>, b: Breakpoints.Breakpoint): (n: int)
    ensures prop.Some? && prop.value != 0 ==> n == prop.value
    ensures (prop.None? || prop.value == 0) ==>
      n == (if Breakpoints.Rank(b) >= Breakpoints.Rank(Breakpoints.Lg) then 5
            else if b == Breakpoints.Md then 4 else 3)
    ensures n != 0
  {
    if prop.Some? && prop.value != 0 then prop.value
    else if b == Breakpoints.Xl || b == Breakpoints.Lg then 5
    else if b == Breakpoints.Md then 4
    else 3
  }

  /** The image URIs among `data` at the given indices, in index order;
      indices outside the array name no item and are skipped. */
  function ImageUrisAt(data: seq<MediaItem>, idxs: seq<int>): (us: seq<Ref>)
    ensures |us| <= |idxs|
    ensures forall u :: u in us <==>
      exists k :: 0 <= k < |idxs| && 0 <= idxs[k] < |data| && data[idxs[k]].kind == Image && data[idxs[k]].uri == u
  {
    if idxs == [] then []
    else
      var i := idxs[0];
      var rest := ImageUrisAt(data, idxs[1..]);
      assert forall k :: 1 <= k < |idxs| ==> idxs[k] == idxs[1..][k - 1];
      if 0 <= i < |data| && data[i].kind == Image then [data[i].uri] + rest else rest
  }

  /** `ImageUrisAt` follows the order of the indices, repeats included: it
      distributes over concatenation, and a single index gives the URI of
      the image it names or nothing. */
  lemma {:induction false} ImageUrisAtAppend(data: seq<MediaItem>, a: seq<int>, b: seq<int>)
    ensures ImageUrisAt(data, a + b) == ImageUrisAt(data, a) + ImageUrisAt(data, b)
    ensures |a| == 1 ==>
      ImageUrisAt(data, a) == if 0 <= a[0] < |data| && data[a[0]].kind == Image then [data[a[0]].uri] else []
  {
    if a == [] {
      assert a + b == b;
    } else {
      assert (a + b)[1..] == a[1..] + b;
      ImageUrisAtAppend(data, a[1..], b);
      if |a| == 1 {
        assert a[1..] == [];
      }
    }
  }

  /** The argument of the prefetch effect's `prefetchImages` call, or `None`
      when the effect makes no call: the data or the visible set is empty, or
      none of the first twelve visible indices (in insertion order) names an
      image. */
  function VisiblePrefetch(data: seq<MediaItem>, visible: PlayerVisibility.Visibility): (r: Option<seq<Ref>>)
    ensures r.Some? ==> r.value != [] && |r.value| <= PrefetchWindow
    ensures r.Some? ==> r.value == ImageUrisAt(data, visible.order[..Min(PrefetchWindow, |visible.order|)])
    ensures r.Some? <==>
      && data != []
      && (exists k :: 0 <= k < |visible.order| && k < PrefetchWindow
           && 0 <= visible.order[k] < |data| && data[visible.order[k]].kind == Image)
    ensures r.Some? ==> forall u :: u in r.value <==>
      exists k :: 0 <= k < |visible.order| && k < PrefetchWindow
        && 0 <= visible.order[k] < |data| && data[visible.order[k]].kind == Image && data[visible.order[k]].uri == u
  {
    if |data| == 0 || |visible.order| == 0 then None
    else
      var window := visible.order[..Min(PrefetchWindow, |visible.order|)];
      var us := ImageUrisAt(data, window);
      assert forall k :: 0 <= k < |window| ==> window[k] == visible.order[k];
      if |us| > 0 then
        assert us[0] in us;
        Some(us)
      else
        forall k | 0 <= k < |visible.order| && k < PrefetchWindow && 0 <= visible.order[k] < |data|
          ensures data[visible.order[k]].kind != Image
        {
          assert window[k] == visible.order[k];
          assert data[window[k]].uri !in us;
        }
        None
  }

  /** The prefetch effect run against the grid's `useImagePrefetch` state. */
  function PrefetchEffect(h: ImagePrefetchHook.Hook, data: seq<MediaItem>, visible: PlayerVisibility.Visibility,
                          throws: bool): (h': ImagePrefetchHook.Hook)
    ensures VisiblePrefetch(data, visible).None? ==> h' == h
    ensures VisiblePrefetch(data, visible).Some? ==>
      h' == ImagePrefetchHook.PrefetchImages(h, VisiblePrefetch(data, visible).value, throws)
  {
    match VisiblePrefetch(data, visible)
    case None => h
    case Some(us) => ImagePrefetchHook.PrefetchImages(h, us, throws)
  }

  /** `isVisible` as `renderItem` computes it for the cell at `index`. */
  function CellVisible(pauseVideos: bool, visible: PlayerVisibility.Visibility, index: int): (b: bool)
    ensures b <==> !pauseVideos && index in visible.order
  {
    if pauseVideos then false else PlayerVisibility.IsItemVisible(visible, index)
  }

  /** What a cell shows: a progressive image, or the legacy video player. */
  datatype CellContent =
    | ImageCell(uri: Ref, thumbnailUri: Option<Ref>)
    | VideoCell(video: MediaItem, paused: bool)

  datatype Cell = Cell(content: CellContent, pressable: bool)

  /** `MediaGridItem`: images by URI and thumbnail, videos paused exactly
      when not visible; wrapped in a pressable only when `onPress` is given.
      The `index` prop is not used. */
  function GridItem(item: MediaItem, isVisible: bool, hasOnPress: bool): (c: Cell)
    ensures c.pressable <==> hasOnPress
    ensures item.kind == Image <==> c.content.ImageCell?
    ensures c.content.ImageCell? ==> c.content.uri == item.uri && c.content.thumbnailUri == item.thumbnail
    ensures c.content.VideoCell? ==> c.content.video == item && (c.content.paused <==> !isVisible)
  {
    var content := if item.kind == Image then ImageCell(item.uri, item.thumbnail) else VideoCell(item, !isVisible);
    Cell(content, hasOnPress)
  }

  /** `renderItem`: the grid always passes a press handler, so every cell is
      pressable. */
  function RenderCell(data: seq<MediaItem>, index: nat, pauseVideos: bool, visible: PlayerVisibility.Visibility): (c: Cell)
    requires index < |data|
    ensures c == GridItem(data[index], CellVisible(pauseVideos, visible, index), true)
  {
    GridItem(data[index], CellVisible(pauseVideos, visible, index), true)
  }

  /** A video cell plays exactly when videos are not paused grid-wide and the
      visibility hook reports its index. */
  lemma VideoPlaysIffVisible(data: seq<MediaItem>, index: nat, pauseVideos: bool, visible: PlayerVisibility.Visibility)
    requires index < |data| && data[index].kind == Video
    ensures var c := RenderCell(data, index, pauseVideos, visible);
      c.pressable && c.content.VideoCell? && (!c.content.paused <==> !pauseVideos && index in visible.order)
  {
  }

  /** `Math.floor(a / b)` on integers: the unique `q` with `q <= a / b < q + 1`
      in exact arithmetic, written for either sign of the divisor. */
  function FloorDiv(a: int, b: int): (q: int)
    requires b != 0
    ensures b > 0 ==> q * b <= a < (q + 1) * b
    ensures b < 0 ==> (q + 1) * b < a <= q * b
  {
    if b > 0 || a % b == 0 then a / b else a / b - 1
  }

  /** `getItemLayout`: every cell has the same height; its offset is its row
      times that height. */
  datatype Layout = Layout(length: real, offset: real, index: int)

  /** The item height: the screen width shared among the columns, at a 4:5
      aspect ratio. */
  function ItemHeight(screenWidth: real, numColumns: int): real
    requires numColumns != 0
  {
    screenWidth / numColumns as real * 1.25
  }

  function ItemLayout(screenWidth: real, numColumns: int, index: int): (l: Layout)
    requires numColumns != 0
    ensures l.index == index
    ensures l.length == ItemHeight(screenWidth, numColumns)
    ensures l.offset == FloorDiv(index, numColumns) as real * l.length
  {
    var h := ItemHeight(screenWidth, numColumns);
    Layout(h, FloorDiv(index, numColumns) as real * h, index)
  }

  /** With a positive column count a later index never sits in an earlier row. */
  lemma RowMonotone(i: int, j: int, n: int)
    requires n > 0 && i <= j
    ensures FloorDiv(i, n) <= FloorDiv(j, n)
  {
  }

  /** Cells of one row share an offset, and a later row never sits higher. */
  lemma LayoutOffsetsMonotone(screenWidth: real, numColumns: int, i: int, j: int)
    requires numColumns > 0 && screenWidth >= 0.0
    requires i <= j
    ensures ItemLayout(screenWidth, numColumns, i).offset <= ItemLayout(screenWidth, numColumns, j).offset
    ensures FloorDiv(i, numColumns) == FloorDiv(j, numColumns) ==>
      ItemLayout(screenWidth, numColumns, i).offset == ItemLayout(screenWidth, numColumns, j).offset
  {
    RowMonotone(i, j, numColumns);
    var h := ItemHeight(screenWidth, numColumns);
    assert h >= 0.0;
    var ri, rj := FloorDiv(i, numColumns) as real, FloorDiv(j, numColumns) as real;
    assert ri * h <= rj * h by {
      assert (rj - ri) * h >= 0.0;
    }
  }
}
