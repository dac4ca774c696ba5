/** The `CustomVideo` component (`Molecules/CustomVideo/CustomVideo.tsx`): a
    native player wrapped with source validation, memory-saving buffer
    settings, error recovery through a remount key, and the tap/play-button
    layer of `useVideoControls`. */
module CustomVideo {
  import opened Base
  import opened Text
  import VideoError
  import VideoControls

  /** The `source` prop: absent, a bundled handle, or an object that may carry
      a `uri`. */
  datatype Src = NullSrc | NumSrc(n: int) | ObjSrc(uri: Option<string>)

  /** `isValidSource`: a truthy handle, or an object with a truthy `uri`. */
  function IsValidSource(s: Src): (valid: bool)
    ensures valid <==> (s.NumSrc? && s.n != 0) || (s.ObjSrc? && s.uri.Some? && s.uri.value != "")
  {
    match s
    case NullSrc => false
    case NumSrc(n) => n != 0
    case ObjSrc(u) => TruthyString(u)
  }

  datatype BufferConfig = BufferConfig(
    minBufferMs: nat, maxBufferMs: nat, bufferForPlaybackMs: nat, bufferForPlaybackAfterRebufferMs: nat)

  /** The extra player props spread in under aggressive memory mode. */
  datatype MemoryProps = MemoryProps(
    bufferConfig: BufferConfig,
    maxBitRate: nat,
    disableFocus: bool,
    hideShutterView: bool,
    playInBackground: bool,
    playWhenInactive: bool)

  const AggressiveBuffer: BufferConfig := BufferConfig(1000, 2000, 500, 1000)
  const MaxBitRate: nat := 2000000

  /** The extra props: present exactly in aggressive memory mode. */
  function ExtraProps(aggressiveMemoryMode: bool): (m: Option<MemoryProps>)
    ensures m.Some? <==> aggressiveMemoryMode
    ensures m.Some? ==>
      && m.value.bufferConfig == BufferConfig(1000, 2000, 500, 1000)
      && m.value.bufferConfig.minBufferMs <= m.value.bufferConfig.maxBufferMs
      && m.value.bufferConfig.bufferForPlaybackMs <= m.value.bufferConfig.minBufferMs
      && m.value.bufferConfig.bufferForPlaybackAfterRebufferMs <= m.value.bufferConfig.maxBufferMs
      && m.value.maxBitRate == 2000000
      && m.value.disableFocus && m.value.hideShutterView
      && !m.value.playInBackground && !m.value.playWhenInactive
  {
    if aggressiveMemoryMode then Some(MemoryProps(AggressiveBuffer, MaxBitRate, true, true, false, false)) else None
  }

  /** The component's props with defaults applied. */
  datatype Config = Config(
    source: Src,
    paused: bool,
    repeat: bool,
    muted: bool,
    aggressiveMemoryMode: bool,
    duration: Option<real>,
    showTimer: bool,
    enableTapToPlay: bool,
    showPlayButton: bool)

  /** Defaults: playing, looping, sound on, aggressive memory mode, timer on,
      tap-to-play off, play button on. */
  function Configure(
    source: Src, paused: Option<bool>, repeat: Option<bool>, muted: Option<bool>,
    aggressiveMemoryMode: Option<bool>, duration: Option<real>, showTimer: Option<bool>,
    enableTapToPlay: Option<bool>, showPlayButton: Option<bool>): (cfg: Config)
    ensures cfg.source == source && cfg.duration == duration
    ensures cfg.paused <==> paused == Some(true)
    ensures !cfg.repeat <==> repeat == Some(false)
    ensures cfg.muted <==> muted == Some(true)
    ensures !cfg.aggressiveMemoryMode <==> aggressiveMemoryMode == Some(false)
    ensures !cfg.showTimer <==> showTimer == Some(false)
    ensures cfg.enableTapToPlay <==> enableTapToPlay == Some(true)
    ensures !cfg.showPlayButton <==> showPlayButton == Some(false)
  {
    Config(source, paused.GetOr(false), repeat.GetOr(true), muted.GetOr(false),
           aggressiveMemoryMode.GetOr(true), duration, showTimer.GetOr(true),
           enableTapToPlay.GetOr(false), showPlayButton.GetOr(true))
  }

  /** The props the component hands to `useVideoControls`. */
  function ControlProps(cfg: Config): (p: VideoControls.Props)
    ensures p == VideoControls.Props(cfg.paused, cfg.enableTapToPlay, cfg.showPlayButton)
  {
    VideoControls.Props(cfg.paused, cfg.enableTapToPlay, cfg.showPlayButton)
  }

  /** The component's hook state. */
  datatype Player = Player(err: VideoError.ErrorState, ctl: VideoControls.Controls)

  function Mount(cfg: Config): (pl: Player)
    ensures !pl.err.hasError && pl.err.retryKey == 0
    ensures pl.ctl == VideoControls.Mount(ControlProps(cfg))
  {
    Player(VideoError.Initial, VideoControls.Mount(ControlProps(cfg)))
  }

  /** `handleVideoLoad`: clear any error, then resume if autoplay allows. */
  function OnLoad(pl: Player, cfg: Config): (pl': Player)
    ensures pl'.err == VideoError.ResetError(pl.err)
    ensures pl'.ctl == VideoControls.SyncWithAutoplay(pl.ctl, ControlProps(cfg))
  {
    Player(VideoError.ResetError(pl.err), VideoControls.SyncWithAutoplay(pl.ctl, ControlProps(cfg)))
  }

  /** `handleVideoError`: raise the error flag. */
  function OnError(pl: Player): (pl': Player)
    ensures pl'.err.hasError && pl'.err.retryKey == pl.err.retryKey && pl'.ctl == pl.ctl
  {
    Player(VideoError.HandleError(pl.err), pl.ctl)
  }

  /** A tap on the overlay or play button: `handleTap`, whose error branch
      calls `resetError`. */
  function OnTap(pl: Player, cfg: Config): (pl': Player)
    ensures var t := VideoControls.HandleTap(pl.ctl, ControlProps(cfg), pl.err.hasError);
      && pl'.ctl == t.controls
      && pl'.err == (if t.resetsError then VideoError.ResetError(pl.err) else pl.err)
  {
    var t := VideoControls.HandleTap(pl.ctl, ControlProps(cfg), pl.err.hasError);
    Player(if t.resetsError then VideoError.ResetError(pl.err) else pl.err, t.controls)
  }

  /** The React key of the native player, `video-${retryKey}`. */
  function VideoKey(retryKey: nat): (key: string)
    ensures StartsWith(key, "video-") && |key| > 6
  {
    "video-" + NatToString(retryKey)
  }

  /** Distinct retry counts give distinct keys, so each retry remounts. */
  lemma VideoKeyInjective(a: nat, b: nat)
    requires a != b
    ensures VideoKey(a) != VideoKey(b)
  {
    if VideoKey(a) == VideoKey(b) {
      assert VideoKey(a)[6..] == NatToString(a);
      assert VideoKey(b)[6..] == NatToString(b);
      NatToStringInjective(a, b);
    }
  }

  /** What the component renders. */
  datatype View =
    | Fallback
    | VideoView(
        key: string,
        paused: bool,
        repeat: bool,
        muted: bool,
        extra: Option<MemoryProps>,
        pointerEventsAuto: bool,
        tapOverlay: bool,
        playButton: bool)

  /** The render: a blank fallback for an invalid source, else the player
      with its overlay. A tap reaches `handleTap` through the overlay under
      tap-to-play, or through the play button when that is shown. */
  function Render(pl: Player, cfg: Config): (v: View)
    ensures v.Fallback? <==> !IsValidSource(cfg.source)
    ensures v.VideoView? ==>
      var p := ControlProps(cfg);
      && v.key == VideoKey(pl.err.retryKey)
      && v.paused == VideoControls.ActualPaused(pl.ctl, p)
      && v.repeat == cfg.repeat && v.muted == cfg.muted
      && v.extra == ExtraProps(cfg.aggressiveMemoryMode)
      && (v.pointerEventsAuto <==> cfg.enableTapToPlay)
      && (v.tapOverlay <==> cfg.enableTapToPlay)
      && v.playButton == VideoControls.ShouldShowPlayButton(pl.ctl, p, pl.err.hasError)
  {
    if !IsValidSource(cfg.source) then Fallback
    else
      var p := ControlProps(cfg);
      VideoView(VideoKey(pl.err.retryKey), VideoControls.ActualPaused(pl.ctl, p), cfg.repeat, cfg.muted,
                ExtraProps(cfg.aggressiveMemoryMode), VideoControls.PointerEventsAuto(p),
                VideoControls.ShowTapOverlay(p), VideoControls.ShouldShowPlayButton(pl.ctl, p, pl.err.hasError))
  }

  /** Whether a tap can reach `handleTap` in the rendered view: the
      container must let touches through (`pointerEvents` `'none'` blocks
      its whole subtree), and the overlay or the play button must be there. */
  predicate Tappable(v: View) {
    v.VideoView? && v.pointerEventsAuto && (v.tapOverlay || v.playButton)
  }

  /** After a playback error the play button is drawn, but a tap reaches
      the handler exactly when tap-to-play is on: without it the container
      swallows every touch, play button included. */
  lemma ErrorRetryNeedsTapToPlay(pl: Player, cfg: Config)
    requires IsValidSource(cfg.source) && pl.err.hasError
    ensures Render(pl, cfg).playButton
    ensures Tappable(Render(pl, cfg)) <==> cfg.enableTapToPlay
  {
  }

  /** With the defaults (tap-to-play off) nothing in the rendered player
      ever reaches the handler, whatever the play button shows. */
  lemma DefaultPlayerIgnoresTaps(pl: Player, cfg: Config)
    requires !cfg.enableTapToPlay
    ensures !Tappable(Render(pl, cfg))
  {
  }

  /** A tap after an error clears it, remounts the player under a new key,
      and resumes playback unless the prop pauses. */
  lemma ErrorTapRemountsAndResumes(pl: Player, cfg: Config)
    requires IsValidSource(cfg.source) && pl.err.hasError
    ensures var pl' := OnTap(pl, cfg);
      && !pl'.err.hasError
      && Render(pl', cfg).key != Render(pl, cfg).key
      && (!cfg.paused ==> !Render(pl', cfg).paused)
  {
    VideoKeyInjective(pl.err.retryKey, pl.err.retryKey + 1);
  }

  /** A load without a prior error keeps the key, so the player is not
      remounted. */
  lemma CleanLoadKeepsKey(pl: Player, cfg: Config)
    requires !pl.err.hasError
    ensures OnLoad(pl, cfg).err == pl.err
  {
  }
}
