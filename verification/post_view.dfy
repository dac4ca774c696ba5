/** The feed's post card (`components/Post/Post.tsx`): which media layout a
    post gets, how visibility pauses its video, and the like button. */
module PostView {
  import opened Base
  import opened MediaTypes
  import LegacyPostVideo

  datatype MediaView =
    | CarouselView(media: seq<MediaItem>)
    | SingleVideoView(video: LegacyPostVideo.View)
    | NoMediaView

  /** The media layout: a carousel for an image post of exactly two items, a
      single player for a video post of exactly one, nothing otherwise. A
      post that is not visible passes `paused` to the player. */
  function RenderMedia(post: Post, isVisible: Option<bool>): (v: MediaView)
    ensures v.CarouselView? <==> post.kind == Images && |post.media| == 2
    ensures v.CarouselView? ==> v.media == post.media
    ensures v.SingleVideoView? <==> post.kind == VideoPost && |post.media| == 1
    ensures v.SingleVideoView? ==>
      v.video == LegacyPostVideo.Render(post.media[0], Some(!isVisible.GetOr(true)))
  {
    var visible := isVisible.GetOr(true);
    if post.kind == Images && |post.media| == 2 then CarouselView(post.media)
    else if post.kind == VideoPost && |post.media| == 1 then SingleVideoView(LegacyPostVideo.Render(post.media[0], Some(!visible)))
    else NoMediaView
  }

  /** A post that is not visible never holds a video player, and a visible
      video post always does. */
  lemma HiddenPostHoldsNoPlayer(post: Post, isVisible: Option<bool>)
    requires post.kind == VideoPost && |post.media| == 1
    ensures RenderMedia(post, isVisible).video.PlayingView? <==> isVisible != Some(false)
  {
  }

  /** `handleLike`: reports the post's id to `onLike`. */
  function HandleLike(post: Post): (postId: string)
    ensures postId == post.id
  {
    post.id
  }

  /** The like button's accessibility label. */
  function LikeLabel(post: Post): (name: string)
    ensures post.isLiked ==> name == "Unlike post"
    ensures !post.isLiked ==> name == "Like post"
  {
    if post.isLiked then "Unlike post" else "Like post"
  }
}
