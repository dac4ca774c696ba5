/** The `useVideoPlayer` hook (`hooks/useVideoPlayer.ts`): a playing flag
    driven by explicit play/pause/toggle calls and by a visibility effect. */
module VideoPlayer {
  import opened Base
  import CustomVideo

  /** The hook's arguments with defaults applied (both default to true). */
  datatype Args = Args(isVisible: bool, autoPlay: bool)

  function WithDefaults(isVisible: Option<bool>, autoPlay: Option<bool>): (a: Args)
    ensures !a.isVisible <==> isVisible == Some(false)
    ensures !a.autoPlay <==> autoPlay == Some(false)
  {
    Args(isVisible.GetOr(true), autoPlay.GetOr(true))
  }

  /** The visibility effect: off-screen stops playback, on-screen with
      autoplay starts it, on-screen without autoplay leaves it. */
  function VisibilityEffect(isPlaying: bool, a: Args): (playing: bool)
    ensures !a.isVisible ==> !playing
    ensures a.isVisible && a.autoPlay ==> playing
    ensures a.isVisible && !a.autoPlay ==> playing == isPlaying
  {
    if !a.isVisible then false
    else if a.autoPlay && a.isVisible then true
    else isPlaying
  }

  /** State after mount: `autoPlay && isVisible`, then the effect. */
  function Mount(a: Args): (playing: bool)
    ensures playing <==> a.autoPlay && a.isVisible
  {
    VisibilityEffect(a.autoPlay && a.isVisible, a)
  }

  /** The calls the hook exposes. */
  datatype Call = Play | Pause | Toggle

  function ApplyCall(isPlaying: bool, c: Call): (playing: bool)
    ensures c == Play ==> playing
    ensures c == Pause ==> !playing
    ensures c == Toggle ==> playing == !isPlaying
  {
    match c
    case Play => true
    case Pause => false
    case Toggle => !isPlaying
  }

  /** `isPaused` is the negation of `isPlaying`. */
  function IsPaused(isPlaying: bool): (paused: bool)
    ensures paused != isPlaying
  {
    !isPlaying
  }

  /** The error and loading flags are never updated after mount. */
  const HasError: bool := false
  const IsLoading: bool := true

  /** The buffer sizes the hook reports: the same figures `CustomVideo` uses
      in aggressive memory mode. */
  const Buffer: CustomVideo.BufferConfig := CustomVideo.BufferConfig(1000, 2000, 500, 1000)

  lemma BufferMatchesCustomVideo()
    ensures Buffer == CustomVideo.ExtraProps(true).value.bufferConfig
  {
  }

  /** A hidden player stops playback whatever calls came before. */
  lemma HideStopsPlayback(isPlaying: bool, calls: seq<Call>, a: Args)
    requires !a.isVisible
    ensures !VisibilityEffect(ApplyAll(isPlaying, calls), a)
  {
  }

  function ApplyAll(isPlaying: bool, calls: seq<Call>): bool
    decreases |calls|
  {
    if calls == [] then isPlaying else ApplyAll(ApplyCall(isPlaying, calls[0]), calls[1..])
  }

  /** What happens to a mounted hook: a call from the component, or a
      re-render with (possibly new) arguments. */
  datatype Event = Do(call: Call) | Rerender(args: Args)

  /** The hook between events: the playing flag and the current arguments. */
  datatype PlayerState = PlayerState(playing: bool, args: Args)

  /** One event. The effect depends on `[isVisible, autoPlay]`, so a
      re-render runs it only when an argument changed. */
  function Step(st: PlayerState, e: Event): (st': PlayerState)
    ensures e.Do? ==> st'.args == st.args && st'.playing == ApplyCall(st.playing, e.call)
    ensures e.Rerender? ==> st'.args == e.args
    ensures e.Rerender? && e.args == st.args ==> st'.playing == st.playing
  {
    match e
    case Do(c) => st.(playing := ApplyCall(st.playing, c))
    case Rerender(a) => PlayerState(if a != st.args then VisibilityEffect(st.playing, a) else st.playing, a)
  }

  function Run(st: PlayerState, events: seq<Event>): PlayerState
    decreases |events|
  {
    if events == [] then st else Run(Step(st, events[0]), events[1..])
  }

  /** The hook's own promise: it plays only while visible, and always while
      visible with autoplay. */
  predicate FollowsVisibility(st: PlayerState) {
    && (st.playing ==> st.args.isVisible)
    && (st.args.isVisible && st.args.autoPlay ==> st.playing)
  }

  /** With no explicit calls the hook keeps that promise through any
      sequence of re-renders after mount. */
  lemma {:induction false} RerendersFollowVisibility(st: PlayerState, events: seq<Event>)
    requires FollowsVisibility(st)
    requires forall k :: 0 <= k < |events| ==> events[k].Rerender?
    ensures FollowsVisibility(Run(st, events))
    decreases |events|
  {
    if events != [] {
      var st1 := Step(st, events[0]);
      assert FollowsVisibility(st1);
      RerendersFollowVisibility(st1, events[1..]);
    }
  }

  /** The mounted hook keeps it from the start. */
  lemma MountFollowsVisibility(a: Args, events: seq<Event>)
    requires forall k :: 0 <= k < |events| ==> events[k].Rerender?
    ensures FollowsVisibility(Run(PlayerState(Mount(a), a), events))
  {
    RerendersFollowVisibility(PlayerState(Mount(a), a), events);
  }

  /** An explicit `play` while hidden does start playback: the effect does
      not run again until an argument changes. */
  lemma PlayWhileHidden(a: Args)
    requires !a.isVisible
    ensures Run(PlayerState(Mount(a), a), [Do(Play), Rerender(a)]).playing
  {
    var st1 := Step(PlayerState(Mount(a), a), Do(Play));
    assert Run(st1, [Rerender(a)]) == Run(Step(st1, Rerender(a)), []);
  }
}
