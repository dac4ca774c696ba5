/** The feed hook (`hooks/useFeedRTK.ts`): pages of posts merged into one
    list, refresh and load-more paging, and optimistic like toggling with a
    rollback when the like request fails. The paged query and the like
    mutation are outside the model: their results are parameters. */
module Feed {
  import opened Base
  import opened MediaTypes

  /** One page as the query returns it. */
  datatype PageData = PageData(posts: seq<Post>, hasMore: bool)

  /** The hook's own state: the page being shown and the merged posts. */
  datatype FeedState = FeedState(page: nat, allPosts: seq<Post>)

  /** The hook on mount: page 1, no posts. */
  const Initial: FeedState := FeedState(1, [])

  /** The posts of `incoming` whose id is not already in `prev`, in order. */
  function NewPosts(prev: seq<Post>, incoming: seq<Post>): (ps: seq<Post>)
    ensures |ps| <= |incoming|
    ensures forall p :: p in ps <==> p in incoming && p.id !in PostIds(prev)
  {
    if incoming == [] then []
    else
      var rest := NewPosts(prev, incoming[1..]);
      if incoming[0].id !in PostIds(prev) then [incoming[0]] + rest else rest
  }

  /** `NewPosts` keeps the order of `incoming`: it distributes over
      concatenation, and with the length bound and membership above it is
      the order-preserving filter. */
  lemma {:induction false} NewPostsAppend(prev: seq<Post>, a: seq<Post>, b: seq<Post>)
    ensures NewPosts(prev, a + b) == NewPosts(prev, a) + NewPosts(prev, b)
  {
    if a == [] {
      assert a + b == b;
    } else {
      assert (a + b)[1..] == a[1..] + b;
      NewPostsAppend(prev, a[1..], b);
    }
  }

  /** The merge effect for a page of data: page 1 replaces the list, later
      pages append the posts with unseen ids. */
  function MergePage(s: FeedState, data: PageData): (s': FeedState)
    ensures s'.page == s.page
    ensures s.page == 1 ==> s'.allPosts == data.posts
    ensures s.page != 1 ==> s'.allPosts == s.allPosts + NewPosts(s.allPosts, data.posts)
    ensures s.page != 1 ==>
      && |s.allPosts| <= |s'.allPosts|
      && s'.allPosts[..|s.allPosts|] == s.allPosts
      && (forall p :: p in s'.allPosts[|s.allPosts|..] <==> p in data.posts && p.id !in PostIds(s.allPosts))
  {
    if s.page == 1 then FeedState(s.page, data.posts)
    else
      var added := NewPosts(s.allPosts, data.posts);
      var all := s.allPosts + added;
      assert all[..|s.allPosts|] == s.allPosts;
      assert all[|s.allPosts|..] == added;
      FeedState(s.page, all)
  }

  lemma {:induction false} NewPostsDistinct(prev: seq<Post>, incoming: seq<Post>)
    requires DistinctIds(incoming)
    ensures DistinctIds(NewPosts(prev, incoming))
  {
    if incoming != [] {
      var rest := NewPosts(prev, incoming[1..]);
      assert DistinctIds(incoming[1..]) by {
        forall i, j | 0 <= i < j < |incoming[1..]|
          ensures incoming[1..][i].id != incoming[1..][j].id
        {
          assert incoming[1..][i] == incoming[i + 1] && incoming[1..][j] == incoming[j + 1];
        }
      }
      NewPostsDistinct(prev, incoming[1..]);
      if incoming[0].id !in PostIds(prev) {
        forall k | 0 <= k < |rest|
          ensures rest[k].id != incoming[0].id
        {
          assert rest[k] in rest;
          var j :| 0 <= j < |incoming[1..]| && incoming[1..][j] == rest[k];
          assert incoming[j + 1] == rest[k];
        }
      }
    }
  }

  /** Merging pages with distinct ids keeps the list free of duplicate ids. */
  lemma MergeKeepsIdsDistinct(s: FeedState, data: PageData)
    requires DistinctIds(s.allPosts) && DistinctIds(data.posts)
    ensures DistinctIds(MergePage(s, data).allPosts)
  {
    if s.page != 1 {
      var added := NewPosts(s.allPosts, data.posts);
      NewPostsDistinct(s.allPosts, data.posts);
      var all := s.allPosts + added;
      forall i, j | 0 <= i < j < |all|
        ensures all[i].id != all[j].id
      {
        if j >= |s.allPosts| && i < |s.allPosts| {
          assert all[j] == added[j - |s.allPosts|];
          assert all[j] in added;
          assert all[i] in s.allPosts;
        } else if i >= |s.allPosts| {
          assert all[i] == added[i - |s.allPosts|] && all[j] == added[j - |s.allPosts|];
        }
      }
    }
  }

  /** `refresh`: back to page 1 with an empty list (the refetch itself is
      outside the model). */
  function Refresh(s: FeedState): (s': FeedState)
    ensures s'.page == 1 && s'.allPosts == []
  {
    Initial
  }

  /** `loadMore`: advance the page when the last page said there is more and
      nothing is being fetched. */
  function LoadMore(s: FeedState, data: Option<PageData>, isFetching: bool): (s': FeedState)
    ensures s'.allPosts == s.allPosts
    ensures s'.page == if data.Some? && data.value.hasMore && !isFetching then s.page + 1 else s.page
  {
    if data.Some? && data.value.hasMore && !isFetching then s.(page := s.page + 1) else s
  }

  /** The optimistic update for one post: flip `isLiked` and move `likes` one
      step in the matching direction. */
  function ToggleOne(p: Post): (q: Post)
    ensures q.isLiked == !p.isLiked
    ensures q.likes == if p.isLiked then p.likes - 1 else p.likes + 1
    ensures q == p.(isLiked := q.isLiked, likes := q.likes)
  {
    p.(isLiked := !p.isLiked, likes := if p.isLiked then p.likes - 1 else p.likes + 1)
  }

  /** Applies `f` to the posts with the given id, leaving the others. */
  function MapPosts(ps: seq<Post>, postId: string, f: Post -> Post): (qs: seq<Post>)
    ensures |qs| == |ps|
    ensures forall i :: 0 <= i < |ps| ==> qs[i] == if ps[i].id == postId then f(ps[i]) else ps[i]
  {
    seq(|ps|, i requires 0 <= i < |ps| => if ps[i].id == postId then f(ps[i]) else ps[i])
  }

  /** `toggleLike`'s optimistic update. */
  function ToggleLike(ps: seq<Post>, postId: string): (qs: seq<Post>)
    ensures |qs| == |ps|
    ensures forall i :: 0 <= i < |ps| ==> qs[i].id == ps[i].id
    ensures forall i :: 0 <= i < |ps| && ps[i].id != postId ==> qs[i] == ps[i]
    ensures forall i :: 0 <= i < |ps| && ps[i].id == postId ==>
      qs[i].isLiked == !ps[i].isLiked && (qs[i].likes - ps[i].likes == if ps[i].isLiked then -1 else 1)
  {
    MapPosts(ps, postId, ToggleOne)
  }

  /** The rollback as written: it flips `isLiked` back, but moves `likes` by
      the opposite rule to the optimistic update. */
  function RollbackOneAsWritten(p: Post): (q: Post)
    ensures q.isLiked == !p.isLiked
    ensures q.likes == if p.isLiked then p.likes + 1 else p.likes - 1
  {
    p.(isLiked := !p.isLiked, likes := if p.isLiked then p.likes + 1 else p.likes - 1)
  }

  function RollbackAsWritten(ps: seq<Post>, postId: string): (qs: seq<Post>)
    ensures |qs| == |ps|
    ensures forall i :: 0 <= i < |ps| && ps[i].id != postId ==> qs[i] == ps[i]
  {
    MapPosts(ps, postId, RollbackOneAsWritten)
  }

  /** A failed like as written: the post ends with its original `isLiked` but
      with `likes` two further in the direction of the attempted change. */
  lemma RollbackAsWrittenDrifts(ps: seq<Post>, postId: string, i: nat)
    requires i < |ps| && ps[i].id == postId
    ensures var qs := RollbackAsWritten(ToggleLike(ps, postId), postId);
      && qs[i].isLiked == ps[i].isLiked
      && qs[i].likes == if ps[i].isLiked then ps[i].likes - 2 else ps[i].likes + 2
  {
  }

  /** The concrete case: an unliked post with 10 likes ends unliked with 12. */
  lemma RollbackAsWrittenExample()
    ensures var p := Post("1", "user_1", "johndoe", None, Images, [], "", 10, 0, 0, false);
      RollbackAsWritten(ToggleLike([p], "1"), "1")[0].likes == 12
  {
    var p := Post("1", "user_1", "johndoe", None, Images, [], "", 10, 0, 0, false);
    RollbackAsWrittenDrifts([p], "1", 0);
  }

  /** The rollback as intended: undo the optimistic update, which is the
      same flip applied again. */
  function Rollback(ps: seq<Post>, postId: string): (qs: seq<Post>)
    ensures |qs| == |ps|
    ensures forall i :: 0 <= i < |ps| && ps[i].id != postId ==> qs[i] == ps[i]
  {
    MapPosts(ps, postId, ToggleOne)
  }

  /** The intended rollback restores the list exactly as it was before the
      optimistic update. */
  lemma RollbackUndoesToggle(ps: seq<Post>, postId: string)
    ensures Rollback(ToggleLike(ps, postId), postId) == ps
  {
    var qs := Rollback(ToggleLike(ps, postId), postId);
    assert forall i :: 0 <= i < |ps| ==> qs[i] == ps[i];
  }

  /** `toggleLike` on the whole list as written: the optimistic update, then,
      only when the mutation trigger's promise rejects, the `.catch` handler
      with the as-written rollback. The post ends with its original `isLiked`
      but with `likes` two further in the direction of the attempted change;
      the other posts are never touched. */
  function ToggleLikeWithOutcome(s: FeedState, postId: string, promiseRejects: bool): (s': FeedState)
    ensures s'.page == s.page
    ensures |s'.allPosts| == |s.allPosts|
    ensures forall i :: 0 <= i < |s.allPosts| && s.allPosts[i].id != postId ==> s'.allPosts[i] == s.allPosts[i]
    ensures !promiseRejects ==> s'.allPosts == ToggleLike(s.allPosts, postId)
    ensures promiseRejects ==> forall i :: 0 <= i < |s.allPosts| && s.allPosts[i].id == postId ==>
      && s'.allPosts[i].isLiked == s.allPosts[i].isLiked
      && s'.allPosts[i].likes == if s.allPosts[i].isLiked then s.allPosts[i].likes - 2 else s.allPosts[i].likes + 2
  {
    var optimistic := ToggleLike(s.allPosts, postId);
    if promiseRejects then
      var qs := RollbackAsWritten(optimistic, postId);
      assert forall i :: 0 <= i < |s.allPosts| && s.allPosts[i].id == postId ==>
        && qs[i].isLiked == s.allPosts[i].isLiked
        && qs[i].likes == if s.allPosts[i].isLiked then s.allPosts[i].likes - 2 else s.allPosts[i].likes + 2
      by {
        forall i | 0 <= i < |s.allPosts| && s.allPosts[i].id == postId {
          RollbackAsWrittenDrifts(s.allPosts, postId, i);
        }
      }
      s.(allPosts := qs)
    else s.(allPosts := optimistic)
  }

  /** `toggleLike` as evidently intended: a rejected request puts the list
      back exactly as it was. */
  function ToggleLikeIntended(s: FeedState, postId: string, promiseRejects: bool): (s': FeedState)
    ensures s'.page == s.page
    ensures promiseRejects ==> s'.allPosts == s.allPosts
    ensures !promiseRejects ==> s'.allPosts == ToggleLike(s.allPosts, postId)
  {
    var optimistic := ToggleLike(s.allPosts, postId);
    if promiseRejects then
      RollbackUndoesToggle(s.allPosts, postId);
      s.(allPosts := Rollback(optimistic, postId))
    else s.(allPosts := optimistic)
  }

  /** The two differ exactly on a rejected request for a post in the list. */
  lemma ToggleLikeAsWrittenDiffers(s: FeedState, postId: string)
    requires exists i :: 0 <= i < |s.allPosts| && s.allPosts[i].id == postId
    ensures ToggleLikeWithOutcome(s, postId, true) != ToggleLikeIntended(s, postId, true)
  {
    var i :| 0 <= i < |s.allPosts| && s.allPosts[i].id == postId;
    assert ToggleLikeWithOutcome(s, postId, true).allPosts[i].likes != s.allPosts[i].likes;
  }

  /** The query's error, as the hook sees it. */
  datatype QueryError = TextError(text: string) | ErrorField(error: string) | OtherError

  /** The flags the hook returns. An empty error string is falsy, so the
      hook reports no error for it. */
  datatype FeedFlags = FeedFlags(isLoading: bool, isLoadingMore: bool, error: Option<string>, hasMore: bool)

  function Flags(s: FeedState, data: Option<PageData>, isLoading: bool, isFetching: bool,
                 queryError: Option<QueryError>): (f: FeedFlags)
    ensures f.isLoading <==> isLoading && s.page == 1
    ensures f.isLoadingMore <==> isFetching && s.page > 1
    ensures !(f.isLoading && f.isLoadingMore)
    ensures f.hasMore <==> data.Some? && data.value.hasMore
    ensures f.error.Some? <==> queryError.Some? && queryError.value != TextError("")
    ensures queryError.Some? && queryError.value.TextError? && queryError.value.text != "" ==>
      f.error.value == queryError.value.text
    ensures queryError.Some? && queryError.value.ErrorField? ==> f.error.value == queryError.value.error
    ensures queryError == Some(OtherError) ==> f.error.value == "Failed to fetch posts"
  {
    var message := match queryError
      case None => None
      case Some(TextError(t)) => if t == "" then None else Some(t)
      case Some(ErrorField(e)) => Some(e)
      case Some(OtherError) => Some("Failed to fetch posts");
    FeedFlags(isLoading && s.page == 1, isFetching && s.page > 1, message, data.Some? && data.value.hasMore)
  }
}
