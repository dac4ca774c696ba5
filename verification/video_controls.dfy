/** The `useVideoControls` hook (`CustomVideo/hooks/useVideoControls.ts`; the
    copy under `Organisms/` behaves the same): tap-to-play on top of a
    visibility-driven `paused` prop. The hook keeps an internal paused flag
    (React state) and a "user paused" flag (a ref). */
module VideoControls {
  import opened Base

  /** The hook's parameters with their defaults applied. */
  datatype Props = Props(pausedProp: bool, enableTapToPlay: bool, showPlayButton: bool)

  /** Defaults: tap-to-play off, play button on. */
  function WithDefaults(pausedProp: bool, enableTapToPlay: Option<bool>, showPlayButton: Option<bool>): (p: Props)
    ensures p.pausedProp == pausedProp
    ensures p.enableTapToPlay <==> enableTapToPlay == Some(true)
    ensures !p.showPlayButton <==> showPlayButton == Some(false)
  {
    Props(pausedProp, enableTapToPlay.GetOr(false), showPlayButton.GetOr(true))
  }

  datatype Controls = Controls(internalPaused: bool, userPaused: bool)

  /** The effect on `[enableTapToPlay, pausedProp]`: without tap-to-play the
      internal flag follows the prop; with it, a paused prop pauses and clears
      the user's pause, and an unpaused prop resumes unless the user paused. */
  function SyncProps(c: Controls, p: Props): (c': Controls)
    ensures !p.enableTapToPlay ==> c' == Controls(p.pausedProp, false)
    ensures p.enableTapToPlay && p.pausedProp ==> c' == Controls(true, false)
    ensures p.enableTapToPlay && !p.pausedProp && !c.userPaused ==> c' == Controls(false, false)
    ensures p.enableTapToPlay && !p.pausedProp && c.userPaused ==> c' == c
  {
    if !p.enableTapToPlay then Controls(p.pausedProp, false)
    else if p.pausedProp then Controls(true, false)
    else if !c.userPaused then Controls(false, c.userPaused)
    else c
  }

  /** State after mount: initial state `pausedProp`, then the effect runs. */
  function Mount(p: Props): (c: Controls)
    ensures !c.userPaused && c.internalPaused == p.pausedProp
  {
    SyncProps(Controls(p.pausedProp, false), p)
  }

  /** `actualPaused`: the internal flag under tap-to-play, else the prop. */
  function ActualPaused(c: Controls, p: Props): (paused: bool)
    ensures p.enableTapToPlay ==> paused == c.internalPaused
    ensures !p.enableTapToPlay ==> paused == p.pausedProp
  {
    if p.enableTapToPlay then c.internalPaused else p.pausedProp
  }

  /** The result of `handleTap`: the new controls and whether it called
      `onErrorReset`. */
  datatype TapOutcome = TapOutcome(controls: Controls, resetsError: bool)

  /** `handleTap`: with an error, reset it and resume unless the prop pauses;
      otherwise, under tap-to-play, toggle and record the user's choice. */
  function HandleTap(c: Controls, p: Props, hasError: bool): (t: TapOutcome)
    ensures t.resetsError <==> hasError
    ensures hasError ==> t.controls.userPaused == c.userPaused
    ensures hasError && !p.pausedProp ==> !t.controls.internalPaused
    ensures hasError && p.pausedProp ==> t.controls == c
    ensures !hasError && !p.enableTapToPlay ==> t.controls == c
    ensures !hasError && p.enableTapToPlay ==>
      t.controls.internalPaused == !c.internalPaused && t.controls.userPaused == t.controls.internalPaused
  {
    if hasError then
      TapOutcome(if !p.pausedProp then Controls(false, c.userPaused) else c, true)
    else if !p.enableTapToPlay then
      TapOutcome(c, false)
    else
      var next := !c.internalPaused;
      TapOutcome(Controls(next, next), false)
  }

  /** `syncWithAutoplay`: resume, unless tap-to-play is off, the prop pauses,
      or the user paused. */
  function SyncWithAutoplay(c: Controls, p: Props): (c': Controls)
    ensures !p.enableTapToPlay || p.pausedProp || c.userPaused ==> c' == c
    ensures p.enableTapToPlay && !p.pausedProp && !c.userPaused ==> c' == Controls(false, c.userPaused)
  {
    if !p.enableTapToPlay || p.pausedProp || c.userPaused then c else Controls(false, c.userPaused)
  }

  /** The container takes touches only under tap-to-play. */
  function PointerEventsAuto(p: Props): (auto: bool)
    ensures auto <==> p.enableTapToPlay
  {
    p.enableTapToPlay
  }

  /** `showTapOverlay`. */
  function ShowTapOverlay(p: Props): (overlay: bool)
    ensures overlay <==> p.enableTapToPlay
  {
    p.enableTapToPlay
  }

  /** `shouldShowPlayButton`: always on error; otherwise while paused, if
      tap-to-play is on or the button is enabled. */
  function ShouldShowPlayButton(c: Controls, p: Props, hasError: bool): (shown: bool)
    ensures hasError ==> shown
    ensures !hasError ==> (shown <==> ActualPaused(c, p) && (p.enableTapToPlay || p.showPlayButton))
    ensures !ActualPaused(c, p) ==> (shown <==> hasError)
  {
    hasError || (ActualPaused(c, p) && (p.enableTapToPlay || p.showPlayButton))
  }

  /** Without tap-to-play the hook is transparent: the prop decides, and a
      tap without an error changes nothing. */
  lemma WithoutTapToPlayPropDecides(c: Controls, p: Props)
    requires !p.enableTapToPlay
    ensures ActualPaused(SyncProps(c, p), p) == p.pausedProp
    ensures HandleTap(c, p, false).controls == c
    ensures SyncWithAutoplay(c, p) == c
  {
  }

  /** A paused prop wins over any earlier tap and forgets the user's pause. */
  lemma PausedPropWins(c: Controls, p: Props)
    requires p.pausedProp
    ensures ActualPaused(SyncProps(c, p), p)
    ensures !SyncProps(c, p).userPaused
  {
  }

  /** A user's pause survives visibility and load syncs while the prop stays
      unpaused. */
  lemma UserPauseSurvivesSync(c: Controls, p: Props)
    requires p.enableTapToPlay && !p.pausedProp && c.userPaused
    ensures SyncProps(c, p) == c
    ensures SyncWithAutoplay(c, p) == c
  {
  }

  /** Two taps without an error restore the state before the first, when
      the user flag agreed with the paused flag. */
  lemma TapTwiceRestores(c: Controls, p: Props)
    requires p.enableTapToPlay && c.userPaused == c.internalPaused
    ensures HandleTap(HandleTap(c, p, false).controls, p, false).controls == c
  {
  }

  /** The user flag implies the paused flag. */
  predicate Consistent(c: Controls) {
    c.userPaused ==> c.internalPaused
  }

  /** Mount establishes consistency, and every step other than an error tap
      keeps it. */
  lemma ConsistencyPreserved(c: Controls, p: Props)
    requires Consistent(c)
    ensures Consistent(Mount(p))
    ensures Consistent(SyncProps(c, p))
    ensures Consistent(SyncWithAutoplay(c, p))
    ensures Consistent(HandleTap(c, p, false).controls)
    ensures p.pausedProp ==> Consistent(HandleTap(c, p, true).controls)
  {
  }

  /** An error tap that resumes playback keeps a stale user pause: the video
      plays while the user flag still says paused. */
  lemma ErrorTapCanLeaveStaleUserPause()
    ensures var p := Props(false, true, true);
      var c := Controls(true, true);
      Consistent(c) && !Consistent(HandleTap(c, p, true).controls)
  {
  }
}
