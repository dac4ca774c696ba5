/** The `useMediaPlayerVisibility` hook (`hooks/useMediaPlayerVisibility.ts`):
    the set of item indices the list currently reports as viewable. The set
    is kept as a duplicate-free sequence in insertion order, which is the
    order in which a JavaScript `Set` is iterated. */
module PlayerVisibility {
  import opened Base

  /** One entry of a viewability report; `index` may be null. */
  datatype ViewToken = ViewToken(index: Option<int>, isViewable: bool)

  /** The hook's state: the visible indices in insertion order. */
  datatype Visibility = Visibility(order: seq<int>) {
    ghost predicate Valid() { NoDup(order) }
  }

  /** A token that counts: a non-null index reported as viewable. */
  predicate Counts(t: ViewToken) {
    t.index.Some? && t.isViewable
  }

  /** The hook on mount: indices 0 and 1, whatever threshold the caller
      passes (the argument is unused). */
  function Mount(threshold: int): (v: Visibility)
    ensures v.Valid()
    ensures forall i :: i in v.order <==> i == 0 || i == 1
  {
    Visibility([0, 1])
  }

  /** The `for` loop of `onViewableItemsChanged`, adding each counting
      token's index to `acc` unless already present. */
  function AddViewable(acc: seq<int>, tokens: seq<ViewToken>): (r: seq<int>)
    requires NoDup(acc)
    ensures NoDup(r)
    ensures |acc| <= |r| && acc == r[..|acc|]
    ensures forall i :: i in r <==> i in acc || exists k :: 0 <= k < |tokens| && Counts(tokens[k]) && tokens[k].index.value == i
    decreases |tokens|
  {
    if tokens == [] then acc
    else
      var t := tokens[0];
      var acc' := if Counts(t) && t.index.value !in acc then acc + [t.index.value] else acc;
      var r := AddViewable(acc', tokens[1..]);
      assert forall k :: 1 <= k < |tokens| ==> tokens[k] == tokens[1..][k - 1];
      r
  }

  /** `onViewableItemsChanged`: the whole set is replaced by the indices of
      this report's counting tokens; the previous state is not consulted. */
  function OnViewableItemsChanged(v: Visibility, tokens: seq<ViewToken>): (v': Visibility)
    ensures v'.Valid()
    ensures forall i :: i in v'.order <==> exists k :: 0 <= k < |tokens| && Counts(tokens[k]) && tokens[k].index.value == i
  {
    Visibility(AddViewable([], tokens))
  }

  /** `isItemVisible(index)`. */
  function IsItemVisible(v: Visibility, index: int): (b: bool)
    ensures b <==> index in v.order
  {
    index in v.order
  }

  /** Reports replace rather than merge: an index absent from the latest
      report is not visible, whatever earlier reports or the mount said. */
  lemma ReportReplaces(v: Visibility, earlier: seq<ViewToken>, latest: seq<ViewToken>, i: int)
    requires forall k :: 0 <= k < |latest| ==> latest[k].index != Some(i)
    ensures !IsItemVisible(OnViewableItemsChanged(OnViewableItemsChanged(v, earlier), latest), i)
  {
  }

  /** The result of a report does not depend on the state it was applied to,
      so applying the same report twice gives the same set. */
  lemma ReportIdempotent(v: Visibility, w: Visibility, tokens: seq<ViewToken>)
    ensures OnViewableItemsChanged(v, tokens) == OnViewableItemsChanged(w, tokens)
    ensures OnViewableItemsChanged(OnViewableItemsChanged(v, tokens), tokens) == OnViewableItemsChanged(v, tokens)
  {
  }
}
