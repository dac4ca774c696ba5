/** The older video cell (`components/PostVideo/PostVideo.tsx`): while paused
    it renders no player at all, only the thumbnail or a black placeholder;
    while playing it layers the player over the thumbnail. */
module LegacyPostVideo {
  import opened Base
  import opened MediaTypes
  import CustomVideo
  import PostVideo

  datatype View =
    | PausedView(thumbnail: Option<Source>)
    | PlayingView(thumbnail: Option<Source>, video: CustomVideo.Config)

  /** The component; `paused` defaults to false. A `None` thumbnail in the
      paused view is the black placeholder. */
  function Render(video: MediaItem, paused: Option<bool>): (v: View)
    ensures v.PausedView? <==> paused == Some(true)
    ensures v.thumbnail == PostVideo.ThumbnailSource(video.thumbnail)
    ensures v.PlayingView? ==>
      && !v.video.paused && v.video.showTimer && v.video.enableTapToPlay && v.video.showPlayButton
      && v.video.source == PostVideo.VideoSource(video.uri)
      && v.video.duration == video.duration
      && v.video.aggressiveMemoryMode && v.video.repeat && !v.video.muted
  {
    var thumb := PostVideo.ThumbnailSource(video.thumbnail);
    if paused.GetOr(false) then PausedView(thumb)
    else PlayingView(thumb, CustomVideo.Configure(PostVideo.VideoSource(video.uri), Some(false), None, None, None,
                                                  video.duration, Some(true), Some(true), Some(true)))
  }

  /** A paused cell holds no player, and a playing one holds a player that is
      not paused at mount. */
  lemma PausedCellHoldsNoPlayer(video: MediaItem, paused: bool)
    ensures Render(video, Some(paused)).PlayingView? <==> !paused
    ensures !paused ==>
      var cfg := Render(video, Some(paused)).video;
      !CustomVideo.Render(CustomVideo.Mount(cfg), cfg).Fallback? ==> !CustomVideo.Render(CustomVideo.Mount(cfg), cfg).paused
  {
  }
}
