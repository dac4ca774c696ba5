/** The `useMediaCarousel` hook (`hooks/useMediaCarousel.ts`): a current index
    over a media list with bounds-checked navigation. */
module MediaCarousel {
  import opened Base

  datatype Carousel = Carousel(currentIndex: int, length: nat)

  /** The hook on mount; the initial index (default 0) is not checked. */
  function Mount(length: nat, initialIndex: Option<int>): (c: Carousel)
    ensures c.length == length && c.currentIndex == initialIndex.GetOr(0)
  {
    Carousel(initialIndex.GetOr(0), length)
  }

  /** The index names an item. */
  predicate InRange(c: Carousel) {
    0 <= c.currentIndex < c.length
  }

  /** `goToIndex`: moves only to an index inside the list. */
  function GoToIndex(c: Carousel, index: int): (c': Carousel)
    ensures c'.length == c.length
    ensures 0 <= index < c.length ==> c'.currentIndex == index
    ensures !(0 <= index < c.length) ==> c' == c
  {
    if index >= 0 && index < c.length then c.(currentIndex := index) else c
  }

  function CanGoNext(c: Carousel): (b: bool)
    ensures b <==> c.currentIndex + 1 < c.length
  {
    c.currentIndex < c.length - 1
  }

  function CanGoPrevious(c: Carousel): (b: bool)
    ensures b <==> c.currentIndex >= 1
  {
    c.currentIndex > 0
  }

  /** `goToNext`: one step forward when possible. */
  function GoToNext(c: Carousel): (c': Carousel)
    ensures c'.length == c.length
    ensures CanGoNext(c) ==> c'.currentIndex == c.currentIndex + 1
    ensures !CanGoNext(c) ==> c' == c
  {
    if c.currentIndex < c.length - 1 then c.(currentIndex := c.currentIndex + 1) else c
  }

  /** `goToPrevious`: one step back when possible. */
  function GoToPrevious(c: Carousel): (c': Carousel)
    ensures c'.length == c.length
    ensures CanGoPrevious(c) ==> c'.currentIndex == c.currentIndex - 1
    ensures !CanGoPrevious(c) ==> c' == c
  {
    if c.currentIndex > 0 then c.(currentIndex := c.currentIndex - 1) else c
  }

  /** `setCurrentIndex`, exposed unguarded. */
  function SetCurrentIndex(c: Carousel, index: int): (c': Carousel)
    ensures c'.currentIndex == index && c'.length == c.length
  {
    c.(currentIndex := index)
  }

  /** The guarded moves keep an in-range index in range, and the unguarded
      setter does not. */
  lemma NavigationKeepsInRange(c: Carousel, index: int)
    requires InRange(c)
    ensures InRange(GoToIndex(c, index)) && InRange(GoToNext(c)) && InRange(GoToPrevious(c))
    ensures !InRange(SetCurrentIndex(c, c.length))
  {
  }

  /** From an in-range index, forward then back returns to the start when a
      forward step is possible, and back then forward when a backward step
      is. */
  lemma NextPreviousInverse(c: Carousel)
    requires InRange(c)
    ensures CanGoNext(c) ==> GoToPrevious(GoToNext(c)) == c
    ensures CanGoPrevious(c) ==> GoToNext(GoToPrevious(c)) == c
  {
  }
}
