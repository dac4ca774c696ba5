/** The feed's video cell (`Organisms/PostVideo/PostVideo.tsx`): derives the
    pause, tap-to-play, play-button and timer settings of `CustomVideo` from
    `paused` and `isVisible`, and shows the thumbnail over a paused video. */
module PostVideo {
  import opened Base
  import opened MediaTypes
  import CustomVideo

  /** `getVideoSource`: a string becomes `{uri}`, a bundled handle is passed
      through. */
  function VideoSource(uri: Ref): (s: CustomVideo.Src)
    ensures uri.Str? ==> s == CustomVideo.ObjSrc(Some(uri.s))
    ensures uri.Num? ==> s == CustomVideo.NumSrc(uri.n)
  {
    match uri
    case Str(u) => CustomVideo.ObjSrc(Some(u))
    case Num(n) => CustomVideo.NumSrc(n)
  }

  /** `getThumbnailSource`: a truthy thumbnail as an image source, else none. */
  function ThumbnailSource(thumbnail: Option<Ref>): (s: Option<Source>)
    ensures s.Some? <==> TruthyRef(thumbnail)
    ensures s.Some? ==> s.value == ToSource(thumbnail.value)
  {
    if TruthyRef(thumbnail) then Some(ToSource(thumbnail.value)) else None
  }

  datatype View = View(pointerEventsAuto: bool, thumbnail: Option<Source>, video: CustomVideo.Config)

  /** The component: optional props `paused` (default false), `isVisible`
      (default true), and explicit overrides of tap-to-play, play button and
      timer. */
  function Render(video: MediaItem, paused: Option<bool>, isVisible: Option<bool>,
                  showPlayButton: Option<bool>, showTimer: Option<bool>, enableTapToPlay: Option<bool>): (v: View)
    ensures var visible := isVisible.GetOr(true);
      var shouldPause := paused.GetOr(false) || !visible;
      var tap := enableTapToPlay.GetOr(visible);
      && v.video.paused == shouldPause
      && v.video.enableTapToPlay == tap
      && v.video.showPlayButton == showPlayButton.GetOr(shouldPause || tap)
      && v.video.showTimer == showTimer.GetOr(visible && !shouldPause)
      && (v.pointerEventsAuto <==> tap)
      && (v.thumbnail.Some? <==> TruthyRef(video.thumbnail) && shouldPause)
      && v.video.source == VideoSource(video.uri)
      && v.video.duration == video.duration
      && !v.video.muted && v.video.repeat && v.video.aggressiveMemoryMode
  {
    var visible := isVisible.GetOr(true);
    var shouldPause := paused.GetOr(false) || !visible;
    var tap := enableTapToPlay.GetOr(visible);
    var button := showPlayButton.GetOr(shouldPause || tap);
    var timer := showTimer.GetOr(visible && !shouldPause);
    var thumb := if shouldPause then ThumbnailSource(video.thumbnail) else None;
    View(tap, thumb,
         CustomVideo.Configure(VideoSource(video.uri), Some(shouldPause), Some(true), Some(false), None,
                               video.duration, Some(timer), Some(tap), Some(button)))
  }

  /** With no overrides, the timer runs exactly while the video plays, and
      the thumbnail covers it exactly while it is paused. */
  lemma DefaultTimerTracksPlayback(video: MediaItem, paused: Option<bool>, isVisible: Option<bool>)
    requires TruthyRef(video.thumbnail)
    ensures var v := Render(video, paused, isVisible, None, None, None);
      && (v.video.showTimer <==> !v.video.paused)
      && (v.thumbnail.Some? <==> v.video.paused)
  {
  }

  /** With no overrides, an off-screen video is paused, cannot be tapped, and
      shows its play button. */
  lemma OffscreenVideoIsInert(video: MediaItem, paused: Option<bool>)
    ensures var v := Render(video, paused, Some(false), None, None, None);
      && v.video.paused && !v.pointerEventsAuto && !v.video.enableTapToPlay && v.video.showPlayButton
  {
  }
}
