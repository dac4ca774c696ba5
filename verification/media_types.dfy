/** The app's media and post records (`types/post.types.ts`). */
module MediaTypes {
  import opened Base

  datatype MediaKind = Image | Video

  /** One image or video. `thumbnail` is a reference rather than a string:
      the post generator stores bundled (numeric) thumbnails there. */
  datatype MediaItem = MediaItem(
    id: string,
    kind: MediaKind,
    uri: Ref,
    thumbnail: Option<Ref>,
    duration: Option<real>)

  /** A post is either a two-image carousel or a single video. */
  datatype PostKind = Images | VideoPost

  datatype Post = Post(
    id: string,
    userId: string,
    username: string,
    userAvatar: Option<string>,
    kind: PostKind,
    media: seq<MediaItem>,
    caption: string,
    likes: int,
    comments: int,
    timestamp: int,
    isLiked: bool)

  /** The ids of a list of posts. */
  function PostIds(posts: seq<Post>): (ids: set<string>)
    ensures forall p :: p in posts ==> p.id in ids
    ensures forall id :: id in ids ==> exists p :: p in posts && p.id == id
  {
    set p | p in posts :: p.id
  }

  /** No two posts share an id. */
  predicate DistinctIds(ps: seq<Post>) {
    forall i, j :: 0 <= i < j < |ps| ==> ps[i].id != ps[j].id
  }
}
