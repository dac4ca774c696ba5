/** The DTO transformers (`utils/transformers.ts`): API replies of unknown
    shape become media and post records, each field taken from the first
    truthy of its accepted spellings, or a default. A reply is modelled as a
    record of optional fields; `Date.now()` is the parameter `now`, one
    reading for the whole transform. */
module Transformers {
  import opened Base
  import opened Text
  import opened MediaTypes

  /** A media item as an API may send it. */
  datatype MediaDto = MediaDto(
    id: Option<string>,
    kind: Option<MediaKind>,
    uri: Option<Ref>,
    url: Option<Ref>,
    thumbnail: Option<Ref>,
    thumbUrl: Option<Ref>,
    duration: Option<real>)

  /** The nested `user` object of a post reply. */
  datatype UserDto = UserDto(username: Option<string>, avatar: Option<string>, avatarUrl: Option<string>)

  /** A post as an API may send it, camel-case and snake-case spellings both. */
  datatype PostDto = PostDto(
    id: Option<string>,
    userId: Option<string>,
    userIdSnake: Option<string>,
    username: Option<string>,
    user: Option<UserDto>,
    userAvatar: Option<string>,
    kind: Option<PostKind>,
    media: Option<seq<MediaDto>>,
    caption: Option<string>,
    description: Option<string>,
    likes: Option<int>,
    likeCount: Option<int>,
    comments: Option<int>,
    commentCount: Option<int>,
    timestamp: Option<int>,
    createdAt: Option<int>,
    isLiked: Option<bool>,
    isLikedSnake: Option<bool>)

  /** A transformed media item. The URI stays optional: when neither `uri`
      nor `url` is truthy the transformer yields the second one, possibly
      `undefined`. */
  datatype MediaEntity = MediaEntity(
    id: string,
    kind: MediaKind,
    uri: Option<Ref>,
    thumbnail: Option<Ref>,
    duration: Option<real>)

  /** A transformed post. */
  datatype PostEntity = PostEntity(
    id: string,
    userId: string,
    username: string,
    userAvatar: Option<string>,
    kind: PostKind,
    media: seq<MediaEntity>,
    caption: string,
    likes: int,
    comments: int,
    timestamp: int,
    isLiked: bool)

  /** JavaScript `a || b` on optional numbers: 0 is falsy. */
  function OrInt(a: Option<int>, b: Option<int>): (r: Option<int>)
    ensures a.Some? && a.value != 0 ==> r == a
    ensures !(a.Some? && a.value != 0) ==> r == b
  {
    if a.Some? && a.value != 0 then a else b
  }

  /** JavaScript `a || b` on optional booleans. */
  function OrBool(a: Option<bool>, b: Option<bool>): (r: Option<bool>)
    ensures a == Some(true) ==> r == a
    ensures a != Some(true) ==> r == b
  {
    if a == Some(true) then a else b
  }

  /** `String(Date.now())`, the id of a reply that has none. */
  function FallbackId(now: nat): (id: string)
    ensures id != "" && forall k :: 0 <= k < |id| ==> '0' <= id[k] <= '9'
  {
    NatToString(now)
  }

  /** `transformMediaItem`. */
  function TransformMediaItem(dto: MediaDto, now: nat): (m: MediaEntity)
    ensures m.id == if TruthyString(dto.id) then dto.id.value else FallbackId(now)
    ensures m.kind == Video <==> dto.kind.Some? && dto.kind.value == Video
    ensures TruthyRef(dto.uri) ==> m.uri == dto.uri
    ensures !TruthyRef(dto.uri) ==> m.uri == dto.url
    ensures TruthyRef(dto.thumbnail) ==> m.thumbnail == dto.thumbnail
    ensures !TruthyRef(dto.thumbnail) ==> m.thumbnail == dto.thumbUrl
    ensures m.duration == dto.duration
  {
    MediaEntity(
      OrString(dto.id, Some(FallbackId(now))).value,
      if dto.kind.Some? then dto.kind.value else Image,
      OrRef(dto.uri, dto.url),
      OrRef(dto.thumbnail, dto.thumbUrl),
      dto.duration)
  }

  /** `dto.media?.[0]?.type === 'video'`. */
  predicate FirstMediaIsVideo(media: Option<seq<MediaDto>>) {
    media.Some? && |media.value| > 0 && media.value[0].kind.Some? && media.value[0].kind.value == Video
  }

  /** `dto.user?.username`. */
  function NestedUsername(user: Option<UserDto>): (r: Option<string>)
    ensures r.Some? ==> user.Some? && r == user.value.username
  {
    if user.Some? then user.value.username else None
  }

  /** `dto.user?.avatar`. */
  function NestedAvatar(user: Option<UserDto>): (r: Option<string>)
    ensures r.Some? ==> user.Some? && r == user.value.avatar
  {
    if user.Some? then user.value.avatar else None
  }

  /** `dto.user?.avatar_url`. */
  function NestedAvatarUrl(user: Option<UserDto>): (r: Option<string>)
    ensures r.Some? ==> user.Some? && r == user.value.avatarUrl
  {
    if user.Some? then user.value.avatarUrl else None
  }

  /** `media.map(transformMediaItem)`. */
  function TransformMediaList(media: seq<MediaDto>, now: nat): (ms: seq<MediaEntity>)
    ensures |ms| == |media|
    ensures forall i :: 0 <= i < |media| ==> ms[i] == TransformMediaItem(media[i], now)
  {
    seq(|media|, i requires 0 <= i < |media| => TransformMediaItem(media[i], now))
  }

  /** `transformPost`. */
  function TransformPost(dto: PostDto, now: nat): (p: PostEntity)
    ensures p.id == if TruthyString(dto.id) then dto.id.value else FallbackId(now)
    ensures p.userId == if TruthyString(dto.userId) then dto.userId.value
                        else if TruthyString(dto.userIdSnake) then dto.userIdSnake.value else ""
    ensures p.username == if TruthyString(dto.username) then dto.username.value
                          else if TruthyString(NestedUsername(dto.user)) then dto.user.value.username.value
                          else "unknown"
    ensures p.userAvatar == if TruthyString(dto.userAvatar) then dto.userAvatar
                            else if TruthyString(NestedAvatar(dto.user)) then dto.user.value.avatar
                            else NestedAvatarUrl(dto.user)
    ensures dto.kind.Some? ==> p.kind == dto.kind.value
    ensures dto.kind.None? ==> (p.kind == VideoPost <==> FirstMediaIsVideo(dto.media))
    ensures dto.media.None? ==> p.media == []
    ensures dto.media.Some? ==> |p.media| == |dto.media.value|
    ensures dto.media.Some? ==>
      forall i :: 0 <= i < |p.media| ==> p.media[i] == TransformMediaItem(dto.media.value[i], now)
    ensures p.caption == if TruthyString(dto.caption) then dto.caption.value
                         else if TruthyString(dto.description) then dto.description.value else ""
    ensures p.likes == if dto.likes.Some? && dto.likes.value != 0 then dto.likes.value else dto.likeCount.GetOr(0)
    ensures p.comments == if dto.comments.Some? && dto.comments.value != 0 then dto.comments.value
                          else dto.commentCount.GetOr(0)
    ensures p.timestamp == if dto.timestamp.Some? && dto.timestamp.value != 0 then dto.timestamp.value
                           else if dto.createdAt.Some? && dto.createdAt.value != 0 then dto.createdAt.value else now
    ensures p.isLiked <==> dto.isLiked == Some(true) || dto.isLikedSnake == Some(true)
  {
    PostEntity(
      OrString(dto.id, Some(FallbackId(now))).value,
      OrString(dto.userId, OrString(dto.userIdSnake, Some(""))).value,
      OrString(dto.username, OrString(NestedUsername(dto.user), Some("unknown"))).value,
      OrString(dto.userAvatar, OrString(NestedAvatar(dto.user), NestedAvatarUrl(dto.user))),
      dto.kind.GetOr(if FirstMediaIsVideo(dto.media) then VideoPost else Images),
      if dto.media.Some? then TransformMediaList(dto.media.value, now) else [],
      OrString(dto.caption, OrString(dto.description, Some(""))).value,
      OrInt(dto.likes, OrInt(dto.likeCount, Some(0))).value,
      OrInt(dto.comments, OrInt(dto.commentCount, Some(0))).value,
      OrInt(dto.timestamp, OrInt(dto.createdAt, Some(now))).value,
      OrBool(dto.isLiked, OrBool(dto.isLikedSnake, Some(false))).value)
  }

  /** `transformPosts`: `map(transformPost)`. */
  function TransformPosts(dtos: seq<PostDto>, now: nat): (ps: seq<PostEntity>)
    ensures |ps| == |dtos|
    ensures forall i :: 0 <= i < |dtos| ==> ps[i] == TransformPost(dtos[i], now)
  {
    seq(|dtos|, i requires 0 <= i < |dtos| => TransformPost(dtos[i], now))
  }

  // ---------------------------------------------------------------------
  // Entities sent back in their own shape.

  /** A media entity as a reply in the app's own field names. */
  function MediaToDto(m: MediaEntity): (dto: MediaDto)
    ensures dto.id == Some(m.id) && dto.uri == m.uri && dto.thumbnail == m.thumbnail
  {
    MediaDto(Some(m.id), Some(m.kind), m.uri, None, m.thumbnail, None, m.duration)
  }

  /** A post entity as a reply in the app's own field names. */
  function PostToDto(p: PostEntity): (dto: PostDto)
    ensures dto.id == Some(p.id) && dto.kind == Some(p.kind)
    ensures dto.media.Some? && |dto.media.value| == |p.media|
  {
    PostDto(Some(p.id), Some(p.userId), None, Some(p.username), None, p.userAvatar, Some(p.kind),
            Some(seq(|p.media|, i requires 0 <= i < |p.media| => MediaToDto(p.media[i]))),
            Some(p.caption), None, Some(p.likes), None, Some(p.comments), None, Some(p.timestamp), None,
            Some(p.isLiked), None)
  }

  /** A media entity survives the transformer when its id is non-empty and
      its URI and thumbnail, where present, are truthy. */
  predicate StableMedia(m: MediaEntity) {
    && m.id != ""
    && (m.uri.None? || Truthy(m.uri.value))
    && (m.thumbnail.None? || Truthy(m.thumbnail.value))
  }

  /** A post entity survives the transformer when none of its fields holds a
      falsy value that a default would replace: id, username, avatar and
      timestamp, and its media. */
  predicate StablePost(p: PostEntity) {
    && p.id != "" && p.username != "" && p.timestamp != 0
    && (p.userAvatar.None? || p.userAvatar.value != "")
    && forall i :: 0 <= i < |p.media| ==> StableMedia(p.media[i])
  }

  /** Sending back an entity is a no-op for the media transformer. */
  lemma MediaRoundTrip(m: MediaEntity, now: nat)
    requires StableMedia(m)
    ensures TransformMediaItem(MediaToDto(m), now) == m
  {
  }

  /** Sending back a stable post entity is a no-op for the post transformer:
      the transformer is the identity on its own well-formed output. */
  lemma PostRoundTrip(p: PostEntity, now: nat)
    requires StablePost(p)
    ensures TransformPost(PostToDto(p), now) == p
  {
    var q := TransformPost(PostToDto(p), now);
    forall i | 0 <= i < |p.media|
      ensures q.media[i] == p.media[i]
    {
      MediaRoundTrip(p.media[i], now);
    }
  }

  /** A reply with no fields at all becomes the default post: no media, an
      images post with the clock's id, the defaults for every other field. */
  lemma EmptyReplyDefaults(now: nat)
    ensures var p := TransformPost(PostDto(None, None, None, None, None, None, None, None, None, None,
                                           None, None, None, None, None, None, None, None), now);
      && p == PostEntity(FallbackId(now), "", "unknown", None, Images, [], "", 0, 0, now, false)
  {
  }

  /** The transform of a stable entity is stable again, so transforming
      twice is the same as transforming once on such input. */
  lemma TransformPostsRoundTrip(ps: seq<PostEntity>, now: nat)
    requires forall i :: 0 <= i < |ps| ==> StablePost(ps[i])
    ensures TransformPosts(seq(|ps|, i requires 0 <= i < |ps| => PostToDto(ps[i])), now) == ps
  {
    var dtos := seq(|ps|, i requires 0 <= i < |ps| => PostToDto(ps[i]));
    var qs := TransformPosts(dtos, now);
    forall i | 0 <= i < |ps|
      ensures qs[i] == ps[i]
    {
      PostRoundTrip(ps[i], now);
    }
  }
}
