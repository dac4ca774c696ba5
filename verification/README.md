# Social feed media core in Dafny

This project models the decision and state logic underneath a React Native
social feed app: image prefetching and its de-duplication, visibility-driven
video playback, progressive image layers, the media carousel, the feed hook,
the mock post and media backends, the DTO transformers, the search screen,
responsive breakpoints, error classification, the mock authentication
service, the login flow, the auth and network Redux slices and the avatar.
Each hook, reducer, service or component is one Dafny module holding an
immutable state record and pure transition functions. Dafny sets and
sequences stand in for tracked-key sets, visible-index sets and logs of
native preload calls.

Conventions used throughout:

- `Base` holds JavaScript optional values and the `string | number` media
  reference (`Ref`). It also holds the truthiness rules behind `a || b` and
  `if (x)`.
- `Text` holds the string operations the logic depends on: `trim` over the
  JavaScript whitespace set, `split`, `includes`, `startsWith`, ASCII case
  mapping, and the decimal rendering of a non-negative integer.
- `FastImage.preload` is an append to a call log. The caller supplies
  whether the call threw.
- `Math.random()` is an oracle `rnd: nat -> real` with values in [0, 1).
  The n-th draw of a call is `rnd(n)`.
- `Date.now()` is a parameter: `now`, or `clock(n)` for the n-th reading.
- Bundled `require(...)` assets are opaque numeric references supplied by
  the caller.
- Service promises and their delays become plain functions of their
  inputs. Whether a mutation trigger's promise rejects is a boolean
  parameter.
- The two copies of `useVideoControls`, `components/CustomVideo/hooks/` and
  `components/Organisms/CustomVideo/hooks/`, hold the same logic. They are
  modelled once as `VideoControls`.
- Some components import code that is not part of this model: the
  `Molecules` `CustomVideo` and `ImageWithThumbnail` hooks, the
  `Organisms` `CustomVideo` that `Organisms/PostVideo` mounts, and the
  `components/CustomVideo` component that the older
  `components/PostVideo/PostVideo.tsx` mounts. These are paired with the
  hook or component of the same name and interface:
  - `useVideoControls` and `useVideoError` under
    `Organisms/CustomVideo/hooks/`;
  - `components/ImageWithThumbnail/hooks/useProgressiveImage.ts`;
  - `Molecules/CustomVideo/CustomVideo.tsx`, for both video components.
- The only playback-resource rule in the code is "pause when not
  visible". The older `PostVideo` goes further and does not mount a player
  when paused.

## Model

| member | source | states |
|---|---|---|
| ImageCacheService.NativePriorityOf | src/services/imageCacheService.ts:17-26 | LOW maps to the native low priority and HIGH to high; every other value, including the NORMAL default, maps to normal |
| ImageCacheService.ThumbKey | src/services/imageCacheService.ts:34-35 | a thumbnail contributes a key exactly when it is a non-empty string, and the key is that string |
| ImageCacheService.ImageKey | src/services/imageCacheService.ts:51-52 | a full image contributes a key exactly when it is a string (even an empty one); a bundled handle never does |
| ImageCacheService.PreloadOne | src/services/imageCacheService.ts:36-48 | a tracked or absent key causes no preload; an untracked key causes exactly one single-request preload, and it joins the tracked set only when the preload did not throw |
| ImageCacheService.PrefetchImage | src/services/imageCacheService.ts:28-67 | the call log only grows; the thumbnail preload comes before the full-image preload; each set gains its key only after a preload of that key that did not throw |
| ImageCacheService.ThumbKeys | src/services/imageCacheService.ts:77-80 | the thumbnail key of each item, position by position |
| ImageCacheService.ImageKeys | src/services/imageCacheService.ts:87-89 | the full-image key of each item, position by position |
| ImageCacheService.FreshKeys | src/services/imageCacheService.ts:74-95 | reference definition of a batch: exactly the present keys not tracked before, without duplicates |
| ImageCacheService.FreshKeysAppend | src/services/imageCacheService.ts:74-95 | the batch keeps first-occurrence order: the batch of a concatenation is the first part's batch followed by the second part's, judged against the tracked keys and the first part's keys |
| ImageCacheService.CollectMatchesFreshKeys | src/services/imageCacheService.ts:77-95 | the item-by-item collection pass, which marks keys tracked as it goes, produces exactly the reference batches and the union of the tracked sets with all present keys |
| ImageCacheService.Requests | src/services/imageCacheService.ts:100-105 | a batch becomes one request per key, in order, all at the mapped priority |
| ImageCacheService.PrefetchImages | src/services/imageCacheService.ts:70-124 | at most two preload calls, thumbnails first, each only for a non-empty batch; every present key is tracked afterwards whether or not a preload threw |
| ImageCacheService.PrefetchImagesBatchesFresh | src/services/imageCacheService.ts:74-95 | a thumbnail call is made exactly when some item has an untracked thumbnail key, and comes first; an image call exactly when some item has an untracked image key, and comes last; each requests, at the mapped priority, exactly the untracked keys of its tier and carries that tier's outcome |
| ImageCacheService.TierRequests | src/services/imageCacheService.ts:77-92 | one tier's batch is non-empty exactly when some key is untracked, and its requests are exactly those keys at the given priority |
| ImageCacheService.IsPrefetched | src/services/imageCacheService.ts:129-134 | true exactly for a string that is in the tracked full-image set; always false for a bundled handle |
| ImageCacheService.IsThumbnailPrefetched | src/services/imageCacheService.ts:139-144 | true exactly for a string that is in the tracked thumbnail set; always false for a bundled handle |
| ImageCacheService.ClearPrefetchTracking | src/services/imageCacheService.ts:149-152 | afterwards nothing reads as prefetched in either tier, and no preload call is made |
| ImageCacheService.GetCacheSource | src/services/imageCacheService.ts:192-210 | a bundled handle is returned unchanged; a string becomes a source with that uri, the given cache mode or `immutable`, and the mapped priority |
| ImageCacheService.PrefetchImageIdempotent | src/services/imageCacheService.ts:36-53 | repeating a prefetch that succeeded makes no further preload call and changes no set |
| ImageCacheService.ThrowingPreloadTracking | src/services/imageCacheService.ts:44-92 | when the native preload throws, the single-image entry point leaves the key untracked, while the batched one has already tracked it |
| ImagePrefetchHook.GetImageUri | src/hooks/useImagePrefetch.ts:16-22 | a string maps to itself and a bundled handle to the empty string |
| ImagePrefetchHook.PrefetchImage | src/hooks/useImagePrefetch.ts:24-39 | an empty or already tracked URI causes no preload and no change; otherwise exactly one single-URI preload, and the URI is tracked only when it did not throw |
| ImagePrefetchHook.ImageUris | src/hooks/useImagePrefetch.ts:43-44 | every reference mapped through the URI rule, position by position |
| ImagePrefetchHook.Batch | src/hooks/useImagePrefetch.ts:45 | the batch holds exactly the non-empty URIs untracked at call start, each as often as it occurs in the input |
| ImagePrefetchHook.BatchAppend | src/hooks/useImagePrefetch.ts:45 | the batch keeps input order: it distributes over concatenation, every part judged against the set as it stood at call start |
| ImagePrefetchHook.PrefetchUris | src/hooks/useImagePrefetch.ts:45-56 | an empty batch changes nothing; otherwise one preload of the batch, which is added to the tracked set only when it did not throw |
| ImagePrefetchHook.PrefetchImages | src/hooks/useImagePrefetch.ts:41-59 | the list call is the batch rule applied to the mapped URIs |
| ImagePrefetchHook.PrefetchImagesCallsIff | src/hooks/useImagePrefetch.ts:43-52 | exactly one preload call when some reference is an untracked non-empty string, and none otherwise |
| ImagePrefetchHook.TrackedNeverShrinks | src/hooks/useImagePrefetch.ts:14-53 | neither entry point ever removes a tracked URI, whatever the preload outcome |
| ImagePrefetchHook.RepeatedUriStaysRepeated | src/hooks/useImagePrefetch.ts:45-52 | an untracked URI given twice in one call is requested twice in the one batch |
| PlayerVisibility.Mount | src/hooks/useMediaPlayerVisibility.ts:12-16 | before any report the visible set is exactly {0, 1}, whatever threshold is passed |
| PlayerVisibility.AddViewable | src/hooks/useMediaPlayerVisibility.ts:20-24 | the loop adds, without duplicates and after what was already there, exactly the indices of tokens with a non-null index that are viewable |
| PlayerVisibility.OnViewableItemsChanged | src/hooks/useMediaPlayerVisibility.ts:18-26 | after a report the visible set is exactly the indices of its counting tokens |
| PlayerVisibility.IsItemVisible | src/hooks/useMediaPlayerVisibility.ts:28-30 | true exactly for an index in the current set |
| PlayerVisibility.ReportReplaces | src/hooks/useMediaPlayerVisibility.ts:19-25 | an index absent from the latest report is not visible, whatever an earlier report said |
| PlayerVisibility.ReportIdempotent | src/hooks/useMediaPlayerVisibility.ts:18-26 | a report's result does not depend on the prior state, so applying it twice equals applying it once |
| LegacyMediaGrid.NumColumns | src/components/MediaGrid/MediaGrid.tsx:33-44 | a truthy column prop wins; otherwise 5 for xl and lg, 4 for md, 3 for sm and xs; the result is never zero |
| LegacyMediaGrid.ImageUrisAt | src/components/MediaGrid/MediaGrid.tsx:50-53 | exactly the URIs of image items found at the given indices, out-of-range indices and videos dropped |
| LegacyMediaGrid.ImageUrisAtAppend | src/components/MediaGrid/MediaGrid.tsx:50-53 | the URIs follow the order of the indices, repeats included: one URI per index that names an image, none for any other |
| LegacyMediaGrid.VisiblePrefetch | src/components/MediaGrid/MediaGrid.tsx:47-57 | a call is made exactly when data and the visible set are non-empty and an image sits at one of the first twelve visible indices; it carries at most twelve URIs, namely the image URIs at those indices in visible order, repeats included (`ImageUrisAt` over the window, ordered by `ImageUrisAtAppend`) |
| LegacyMediaGrid.PrefetchEffect | src/components/MediaGrid/MediaGrid.tsx:47-58 | without a call the prefetch hook is unchanged; otherwise it receives exactly the computed URIs |
| LegacyMediaGrid.CellVisible | src/components/MediaGrid/MediaGrid.tsx:70 | a cell counts as visible exactly when videos are not paused grid-wide and its index is in the visible set |
| LegacyMediaGrid.GridItem | src/components/MediaGrid/MediaGridItem.tsx:13-39 | an image item renders a progressive image with its URI and thumbnail passed through and never a player; any other item renders the legacy video paused exactly when not visible; the cell is pressable exactly when a handler is given |
| LegacyMediaGrid.RenderCell | src/components/MediaGrid/MediaGrid.tsx:68-86 | each cell is the grid item for its data entry, with the computed visibility and a press handler |
| LegacyMediaGrid.VideoPlaysIffVisible | src/components/MediaGrid/MediaGrid.tsx:70 | a video cell is unpaused exactly when videos are not paused grid-wide and its index is visible |
| LegacyMediaGrid.FloorDiv | src/components/MediaGrid/MediaGrid.tsx:92 | `Math.floor(index / numColumns)` on integers: the largest integer not above the exact quotient, for either sign of the divisor |
| LegacyMediaGrid.ItemLayout | src/components/MediaGrid/MediaGrid.tsx:60-100 | every cell has the item height as length and its row times that height as offset, and keeps its index |
| LegacyMediaGrid.RowMonotone | src/components/MediaGrid/MediaGrid.tsx:92 | with a positive column count a later index never sits in an earlier row |
| LegacyMediaGrid.LayoutOffsetsMonotone | src/components/MediaGrid/MediaGrid.tsx:90-100 | offsets never decrease along the list, and cells of one row share an offset |
| Breakpoints.GetBreakpoint | src/utils/breakpoints.ts:5-24 | the widest class whose minimum width the width reaches: the width reaches the returned class's minimum and falls short of every wider class's |
| Breakpoints.IsTablet | src/utils/breakpoints.ts:29-31 | true exactly for widths of at least 768 |
| Breakpoints.IsPhone | src/utils/breakpoints.ts:36-38 | true exactly for widths below 768 |
| Breakpoints.MinWidthIncreasing | src/utils/breakpoints.ts:5-11 | the minimum widths increase strictly from xs to xl |
| Breakpoints.GetBreakpointMonotone | src/utils/breakpoints.ts:18-24 | a wider screen never gets a narrower class |
| Breakpoints.TabletPhonePartition | src/utils/breakpoints.ts:18-38 | exactly one of tablet and phone holds for every width, and tablet holds exactly for the md, lg and xl classes |
| FeedMediaGrid.HandleEndReached | src/components/Organisms/MediaGrid/MediaGrid.tsx:41-45 | the next page is requested exactly when there is more and no page is already loading |
| FeedMediaGrid.Flatten | src/components/Organisms/MediaGrid/MediaGrid.tsx:132-136 | every medium of every post, and nothing else |
| FeedMediaGrid.FlattenAppend | src/components/Organisms/MediaGrid/MediaGrid.tsx:132-136 | the flattening is post by post in list order, each post contributing its media list as is |
| FeedMediaGrid.Matching | src/components/Organisms/MediaGrid/MediaGrid.tsx:129-131 | exactly the posts whose lower-cased caption contains the lower-cased query (the callback `MatchesQuery`), never more than given; the username is not searched and the query is not trimmed |
| FeedMediaGrid.MatchingAppend | src/components/Organisms/MediaGrid/MediaGrid.tsx:129-131 | the filter keeps list order: it distributes over concatenation |
| FeedMediaGrid.Media | src/components/Organisms/MediaGrid/MediaGrid.tsx:127-139 | exactly the media of the matching posts |
| FeedMediaGrid.MediaAppend | src/components/Organisms/MediaGrid/MediaGrid.tsx:127-139 | the grid's media come post by post in list order, a matching post contributing all its media in order and any other post none |
| FeedMediaGrid.EmptyQueryShowsAll | src/components/Organisms/MediaGrid/MediaGrid.tsx:129-136 | the empty query keeps every post, so the grid shows the in-order flattening of all media |
| FeedMediaGrid.QueryCaseInsensitive | src/components/Organisms/MediaGrid/MediaGrid.tsx:130 | two queries that lower-case alike select the same media |
| FeedMediaGrid.MatchingDependsOnLowerQuery | src/components/Organisms/MediaGrid/MediaGrid.tsx:129-131 | two queries that lower-case alike select the same posts |
| FeedMediaGrid.RenderFooter | src/components/Organisms/MediaGrid/MediaGrid.tsx:62-80 | the end message exactly when nothing more is to come and there are posts; otherwise the loader exactly when a page is loading; otherwise nothing |
| FeedMediaGrid.FooterBlocksLoadMore | src/components/Organisms/MediaGrid/MediaGrid.tsx:41-80 | the footer and the end-of-list trigger agree: while the spinner or the end message shows, reaching the end asks for no page; with no footer shown and more pages to come, it always asks for one |
| FeedMediaGrid.RenderEmpty | src/components/Organisms/MediaGrid/MediaGrid.tsx:82-101 | three skeletons while loading; otherwise the network state with the error's message when there is an error; otherwise the feed empty state |
| FeedMediaGrid.CellVisible | src/components/Organisms/MediaGrid/MediaGrid.tsx:110-111 | a cell is visible exactly when the visibility hook reports its index |
| FeedMediaGrid.PrefetchArgs | src/components/Organisms/MediaGrid/MediaGrid.tsx:49-54 | one `{uri, thumbnailUri}` object for every image medium of every post, whatever the query; none for videos |
| FeedMediaGrid.PrefetchArgsAppend | src/components/Organisms/MediaGrid/MediaGrid.tsx:49-54 | the effect's objects come post by post in list order |
| FeedMediaGrid.ImagesOf | src/components/Organisms/MediaGrid/MediaGrid.tsx:51-53 | exactly one object per image medium of a post, carrying its URI and thumbnail |
| FeedMediaGrid.ImagesOfAppend | src/components/Organisms/MediaGrid/MediaGrid.tsx:51-53 | the objects follow the media order, one per image medium and none per video |
| FeedMediaGrid.ObjectUris | src/hooks/useImagePrefetch.ts:16-44 | an object is neither a string nor a handle, so the URI rule maps each one to the empty string |
| FeedMediaGrid.PrefetchEffectAsWritten | src/components/Organisms/MediaGrid/MediaGrid.tsx:48-60 | the effect as written: objects handed to a hook that expects strings or handles; nothing happens without an image |
| FeedMediaGrid.AsWrittenPrefetchesNothing | src/components/Organisms/MediaGrid/MediaGrid.tsx:48-60 | as written, the effect never preloads and never tracks anything, for every list of posts |
| FeedMediaGrid.AsWrittenExample | src/components/Organisms/MediaGrid/MediaGrid.tsx:48-60 | a concrete post with one remote image: as written, the effect leaves the hook untouched |
| FeedMediaGrid.PrefetchEffect | src/components/Organisms/MediaGrid/MediaGrid.tsx:48-60 | the corrected effect: the `{uri, thumbnailUri}` objects go to the cache service's batched prefetch, which takes exactly that shape |
| FeedMediaGrid.PrefetchEffectTracksAllImages | src/components/Organisms/MediaGrid/MediaGrid.tsx:48-60 | after the corrected effect, the URI of every image of every post is tracked whenever it is a string |
| PostView.RenderMedia | src/components/Post/Post.tsx:18-50 | a carousel of the post's media exactly for an image post of two media; a single legacy player exactly for a video post of one medium, paused exactly when the post is not visible (visible by default); nothing otherwise |
| PostView.HiddenPostHoldsNoPlayer | src/components/Post/Post.tsx:32-49 | a single-video post mounts a player exactly when it is not marked invisible |
| PostView.HandleLike | src/components/Post/Post.tsx:21-23 | the like action reports the post's own id |
| PostView.LikeLabel | src/components/Post/Post.tsx:58 | the label reads "Unlike post" for a liked post and "Like post" otherwise |
| PostVideo.VideoSource | src/components/Organisms/PostVideo/PostVideo.tsx:29-34 | a string becomes a `{uri}` source and a bundled handle is passed as is |
| PostVideo.ThumbnailSource | src/components/Organisms/PostVideo/PostVideo.tsx:36-42 | a source exactly for a truthy thumbnail, wrapped `{uri}` for a string, the handle itself otherwise |
| PostVideo.Render | src/components/Organisms/PostVideo/PostVideo.tsx:18-78 | the player is paused when paused or not visible; tap-to-play, play button and timer take the prop when given and otherwise `isVisible`, `shouldPause or tap-to-play` and `isVisible and not shouldPause`; pointer events follow tap-to-play; the thumbnail overlays only while paused; the player is unmuted and repeating |
| PostVideo.DefaultTimerTracksPlayback | src/components/Organisms/PostVideo/PostVideo.tsx:46-57 | without overrides the timer shows exactly while the video plays and the thumbnail exactly while it is paused |
| PostVideo.OffscreenVideoIsInert | src/components/Organisms/PostVideo/PostVideo.tsx:46-56 | without overrides an invisible video is paused, untappable, and shows its play button |
| LegacyPostVideo.Render | src/components/PostVideo/PostVideo.tsx:18-75 | paused (false by default) renders no player, only the thumbnail or the black placeholder; otherwise the thumbnail sits behind a player that is unpaused, with timer, tap-to-play and play button enabled |
| LegacyPostVideo.PausedCellHoldsNoPlayer | src/components/PostVideo/PostVideo.tsx:38-72 | a player exists exactly when not paused, and then it starts unpaused whenever its source is valid |
| CustomVideo.IsValidSource | src/components/Molecules/CustomVideo/CustomVideo.tsx:62-66 | a source is valid exactly when it is a non-zero handle or an object with a non-empty `uri` |
| CustomVideo.ExtraProps | src/components/Molecules/CustomVideo/CustomVideo.tsx:68-133 | the memory props are present exactly in aggressive memory mode, and then the buffers are 1000/2000/500/1000 ms (minimum below maximum), the bit rate is capped at 2000000, and there is no background or inactive playback |
| CustomVideo.Configure | src/components/Molecules/CustomVideo/CustomVideo.tsx:18-35 | the defaults: unpaused, repeating, unmuted, aggressive memory mode, timer on, tap-to-play off, play button on |
| CustomVideo.ControlProps | src/components/Molecules/CustomVideo/CustomVideo.tsx:54-60 | the controls hook receives the paused prop, tap-to-play and play-button props unchanged |
| CustomVideo.Mount | src/components/Molecules/CustomVideo/CustomVideo.tsx:45-60 | on mount there is no error, the retry key is 0, and the controls start from their own mount state |
| CustomVideo.OnLoad | src/components/Molecules/CustomVideo/CustomVideo.tsx:77-81 | a load first resets the error and then syncs with autoplay |
| CustomVideo.OnError | src/components/Molecules/CustomVideo/CustomVideo.tsx:93-97 | an error raises the error flag and changes neither the retry key nor the controls |
| CustomVideo.OnTap | src/components/Molecules/CustomVideo/CustomVideo.tsx:45-159 | a tap applies the controls' tap rule, and resets the error exactly when that rule's error branch runs |
| CustomVideo.VideoKey | src/components/Molecules/CustomVideo/CustomVideo.tsx:114 | the key is `video-` followed by the retry count |
| CustomVideo.VideoKeyInjective | src/components/Molecules/CustomVideo/CustomVideo.tsx:114 | different retry counts give different keys, so every retry remounts the player |
| CustomVideo.Render | src/components/Molecules/CustomVideo/CustomVideo.tsx:99-166 | an invalid source renders only the fallback; otherwise the player is keyed by the retry count, paused as the controls decide, with the memory props exactly in aggressive mode, the overlay and pointer events exactly under tap-to-play, and the play button as the controls decide |
| CustomVideo.ErrorRetryNeedsTapToPlay | src/components/Molecules/CustomVideo/CustomVideo.tsx:111-164 | after a playback error the play button is drawn, but a tap reaches the handler exactly when tap-to-play is on, since the container's pointer events are otherwise `'none'` |
| CustomVideo.DefaultPlayerIgnoresTaps | src/components/Molecules/CustomVideo/CustomVideo.tsx:111-164 | with tap-to-play off no touch reaches the handler, whatever the play button shows |
| CustomVideo.ErrorTapRemountsAndResumes | src/components/Molecules/CustomVideo/CustomVideo.tsx:59-148 | a tap that reaches the handler after an error (which needs tap-to-play) clears it, changes the key so the player remounts, and resumes unless the prop pauses |
| CustomVideo.CleanLoadKeepsKey | src/components/Molecules/CustomVideo/CustomVideo.tsx:77-81 | a load without a pending error leaves the error state and the key as they were |
| VideoControls.WithDefaults | src/components/CustomVideo/hooks/useVideoControls.ts:24-30 | tap-to-play is off and the play button on unless the caller says otherwise |
| VideoControls.SyncProps | src/components/CustomVideo/hooks/useVideoControls.ts:34-50 | without tap-to-play the internal flag follows the prop and the user pause is forgotten; with tap-to-play and the prop paused, paused and forgotten; with tap-to-play and the prop playing, resumed unless the user paused |
| VideoControls.Mount | src/components/CustomVideo/hooks/useVideoControls.ts:31-50 | after mount and its effect the internal flag equals the prop and there is no user pause |
| VideoControls.ActualPaused | src/components/Organisms/CustomVideo/hooks/useVideoControls.ts:52 | the internal flag under tap-to-play, the prop otherwise |
| VideoControls.HandleTap | src/components/CustomVideo/hooks/useVideoControls.ts:54-72 | with an error: reset it, keep the user flag, and unpause only when the prop does not pause; without an error and without tap-to-play: nothing; otherwise toggle the internal flag and record the new value as the user pause, even while the prop pauses |
| VideoControls.SyncWithAutoplay | src/components/CustomVideo/hooks/useVideoControls.ts:74-80 | resumes exactly when tap-to-play is on, the prop does not pause and the user has not paused; otherwise changes nothing |
| VideoControls.PointerEventsAuto | src/components/CustomVideo/hooks/useVideoControls.ts:82 | touches reach the container exactly under tap-to-play |
| VideoControls.ShowTapOverlay | src/components/Organisms/CustomVideo/hooks/useVideoControls.ts:91 | the tap overlay shows exactly under tap-to-play |
| VideoControls.ShouldShowPlayButton | src/components/CustomVideo/hooks/useVideoControls.ts:84-87 | always on an error; otherwise exactly while actually paused with tap-to-play or the play-button prop on |
| VideoControls.WithoutTapToPlayPropDecides | src/components/CustomVideo/hooks/useVideoControls.ts:52-65 | without tap-to-play the prop alone decides pausing, and an error-free tap or an autoplay sync changes nothing |
| VideoControls.PausedPropWins | src/components/Organisms/CustomVideo/hooks/useVideoControls.ts:41-45 | a pausing prop under tap-to-play pauses the player and forgets any user pause |
| VideoControls.UserPauseSurvivesSync | src/components/Organisms/CustomVideo/hooks/useVideoControls.ts:47-80 | while the prop plays, a user pause survives both the props effect and the autoplay sync |
| VideoControls.TapTwiceRestores | src/components/Organisms/CustomVideo/hooks/useVideoControls.ts:67-71 | two error-free taps under tap-to-play restore the state before the first when it was consistent |
| VideoControls.ConsistencyPreserved | src/components/Organisms/CustomVideo/hooks/useVideoControls.ts:31-80 | "the user paused" implies "internally paused" after mount, after either sync, after an error-free tap, and after an error tap while the prop pauses |
| VideoControls.ErrorTapCanLeaveStaleUserPause | src/components/Organisms/CustomVideo/hooks/useVideoControls.ts:55-60 | an error tap that resumes playback leaves the user-pause flag set while the video plays |
| VideoError.HandleError | src/components/Organisms/CustomVideo/hooks/useVideoError.ts:18-21 | raises the error flag and leaves the retry key unchanged |
| VideoError.ResetError | src/components/Organisms/CustomVideo/hooks/useVideoError.ts:23-30 | always clears the flag, and advances the key by exactly one exactly when an error was pending |
| VideoError.ResetIdempotent | src/components/Organisms/CustomVideo/hooks/useVideoError.ts:23-30 | a second reset in a row changes nothing |
| VideoError.RetryKeyCountsClearedErrors | src/components/Organisms/CustomVideo/hooks/useVideoError.ts:15-30 | over any run of errors and resets the key grows by exactly the number of resets that cleared an error, so it never decreases |
| VideoPlayer.WithDefaults | src/hooks/useVideoPlayer.ts:25-28 | visibility and autoplay are on unless the caller turns them off |
| VideoPlayer.VisibilityEffect | src/hooks/useVideoPlayer.ts:47-53 | off-screen stops playback; on-screen with autoplay starts it; on-screen without autoplay leaves it as it was |
| VideoPlayer.Mount | src/hooks/useVideoPlayer.ts:29-53 | after mount the player is playing exactly when autoplay is on and it is visible |
| VideoPlayer.ApplyCall | src/hooks/useVideoPlayer.ts:34-44 | play sets playing, pause clears it, toggle negates it |
| VideoPlayer.IsPaused | src/hooks/useVideoPlayer.ts:65 | paused is always the negation of playing |
| VideoPlayer.BufferMatchesCustomVideo | src/hooks/useVideoPlayer.ts:56-61 | the reported buffers are 1000/2000/500/1000 ms, the same as the video component's aggressive mode |
| VideoPlayer.HideStopsPlayback | src/hooks/useVideoPlayer.ts:34-53 | after any calls, the effect for a hidden player stops playback |
| VideoPlayer.Step | src/hooks/useVideoPlayer.ts:34-53 | a call changes only the flag as the call says; a re-render takes the new arguments and runs the effect only when an argument changed |
| VideoPlayer.RerendersFollowVisibility | src/hooks/useVideoPlayer.ts:47-53 | without explicit calls, any sequence of re-renders keeps the player playing only while visible and always while visible with autoplay |
| VideoPlayer.MountFollowsVisibility | src/hooks/useVideoPlayer.ts:28-53 | from mount, re-renders alone keep playback tied to visibility as above |
| VideoPlayer.PlayWhileHidden | src/hooks/useVideoPlayer.ts:34-53 | an explicit play while hidden starts playback, and a re-render with the same arguments does not stop it |
| ProgressiveImage.Mount | src/components/ImageWithThumbnail/hooks/useProgressiveImage.ts:21-24 | on mount nothing is loaded or failed and both references are remembered |
| ProgressiveImage.OnProps | src/components/ImageWithThumbnail/hooks/useProgressiveImage.ts:27-37 | a change of the image or thumbnail reference clears both flags and remembers the new references; unchanged props leave the state alone |
| ProgressiveImage.OnLoad | src/components/ImageWithThumbnail/hooks/useProgressiveImage.ts:39-42 | a load marks the full image loaded and clears any error, keeping the references |
| ProgressiveImage.OnError | src/components/ImageWithThumbnail/hooks/useProgressiveImage.ts:44-46 | an error sets the error flag and leaves the loaded flag as it was |
| ProgressiveImage.ThumbUri | src/components/ImageWithThumbnail/hooks/useProgressiveImage.ts:50 | a thumbnail is returned exactly when the given one is truthy, and it is that one |
| ProgressiveImage.PropsResetOnlyOnChange | src/components/ImageWithThumbnail/hooks/useProgressiveImage.ts:27-42 | re-rendering with the same props keeps a completed load, while a new image reference discards it |
| LegacyProgressiveImage.OnLoad | src/hooks/useProgressiveImage.ts:30-34 | a load ends loading and clears the error |
| LegacyProgressiveImage.OnError | src/hooks/useProgressiveImage.ts:36-39 | an error ends loading and sets the error |
| LegacyProgressiveImage.OnUriChange | src/hooks/useProgressiveImage.ts:42-47 | a new image reference restarts loading with no error |
| LegacyProgressiveImage.RunStaysValid | src/hooks/useProgressiveImage.ts:21-47 | from mount, any sequence of events never leaves the hook loading and failed at once, and ends in the mount state after a reference change |
| LegacyProgressiveImage.RunValidFrom | src/hooks/useProgressiveImage.ts:30-47 | the same from any valid state |
| ThumbnailImage.Render | src/components/Molecules/ImageWithThumbnail/ImageWithThumbnail.tsx:49-103 | full layer unless the image failed with a thumbnail present; thumbnail layer at high priority until the full image loads; spinner only without a thumbnail; error box only when failed without a thumbnail |
| ThumbnailImage.OverlaysExclusive | src/components/Molecules/ImageWithThumbnail/ImageWithThumbnail.tsx:63-103 | spinner and error box never show together, the spinner never covers a thumbnail, and both sit over the full-image layer |
| ThumbnailImage.SomeLayerShown | src/components/Molecules/ImageWithThumbnail/ImageWithThumbnail.tsx:71-93 | no image layer is mounted exactly when a thumbnail exists and the image failed after loading |
| ThumbnailImage.ErrorFallsBackToThumbnail | src/components/Molecules/ImageWithThumbnail/ImageWithThumbnail.tsx:71-103 | a failed first load with a thumbnail shows the thumbnail alone, with no spinner and no error box |
| LegacyThumbnailImage.Render | src/components/ImageWithThumbnail/ImageWithThumbnail.tsx:50-80 | thumbnail layer while there is a thumbnail and no error; spinner while loading; full image unless failed; error box on failure |
| LegacyThumbnailImage.FullImageXorErrorBox | src/components/ImageWithThumbnail/ImageWithThumbnail.tsx:63-80 | exactly one of full image and error box is mounted, and an error hides thumbnail and spinner |
| LegacyThumbnailImage.SpinnerWhileLoading | src/components/ImageWithThumbnail/ImageWithThumbnail.tsx:65-69 | in every reachable hook state the spinner shows exactly while loading |
| MediaCarousel.Mount | src/hooks/useMediaCarousel.ts:18-23 | the index starts at the given initial index, 0 by default, unchecked against the list length |
| MediaCarousel.GoToIndex | src/hooks/useMediaCarousel.ts:25-32 | an index inside the list is adopted; any other index leaves the carousel unchanged |
| MediaCarousel.CanGoNext | src/hooks/useMediaCarousel.ts:46 | a forward step is possible exactly when an item follows the current one |
| MediaCarousel.CanGoPrevious | src/hooks/useMediaCarousel.ts:47 | a backward step is possible exactly when the index is at least 1 |
| MediaCarousel.GoToNext | src/hooks/useMediaCarousel.ts:34-38 | advances by one exactly when a forward step is possible, otherwise no change |
| MediaCarousel.GoToPrevious | src/hooks/useMediaCarousel.ts:40-44 | goes back by one exactly when a backward step is possible, otherwise no change |
| MediaCarousel.SetCurrentIndex | src/hooks/useMediaCarousel.ts:51 | the raw setter adopts any index and keeps the length |
| MediaCarousel.NavigationKeepsInRange | src/hooks/useMediaCarousel.ts:25-44 | the guarded moves keep an in-range index in range, while the raw setter can leave the range |
| MediaCarousel.NextPreviousInverse | src/hooks/useMediaCarousel.ts:34-44 | forward then back, and back then forward, return to the starting state whenever the first step is possible |
| ImageCarousel.Round | src/components/PostImageCarousel/PostImageCarousel.tsx:70 | the rounded page is within half a page of the offset, halves going up |
| ImageCarousel.ScrollIndex | src/components/PostImageCarousel/PostImageCarousel.tsx:70 | the page index is the one whose page spans the offset to within half a screen width |
| ImageCarousel.OnScroll | src/components/PostImageCarousel/PostImageCarousel.tsx:67-80 | the nearest page is adopted only when it names an item and differs from the current one |
| ImageCarousel.ScrollKeepsInRange | src/components/PostImageCarousel/PostImageCarousel.tsx:72-78 | scrolling keeps an in-range index in range although it uses the raw setter |
| ImageCarousel.NextToPrefetch | src/components/PostImageCarousel/PostImageCarousel.tsx:58-65 | the next item is requested exactly when it exists and is an image |
| ImageCarousel.PrefetchEffect | src/components/PostImageCarousel/PostImageCarousel.tsx:58-65 | the effect prefetches that item through the prefetch hook, and does nothing otherwise |
| ImageCarousel.LastItemPrefetchesNothing | src/components/PostImageCarousel/PostImageCarousel.tsx:59 | on the last item nothing is prefetched |
| ImageCarousel.RenderPagination | src/components/PostImageCarousel/PostImageCarousel.tsx:107-140 | dots only for more than one item, one per item, the current one active |
| ImageCarousel.Slides | src/components/PostImageCarousel/PostImageCarousel.tsx:94-105 | one image slide per item, in order, with that item's image and thumbnail |
| ImageCarousel.HasVideos | src/components/PostImageCarousel/PostImageCarousel.tsx:35 | true exactly when some item is a video |
| Feed.NewPosts | src/hooks/useFeedRTK.ts:43-46 | the incoming posts kept are exactly those whose id is not already listed, never more than arrived |
| Feed.NewPostsAppend | src/hooks/useFeedRTK.ts:43-46 | the kept posts follow the order of the incoming page: the filter distributes over concatenation, so with the membership and length bound it is the order-preserving filter |
| Feed.MergePage | src/hooks/useFeedRTK.ts:35-51 | page 1 replaces the list; a later page yields the list followed by `NewPosts` of the page, that is the incoming posts with unseen ids in page order (`NewPostsAppend`), so the old list stays a prefix |
| Feed.NewPostsDistinct | src/hooks/useFeedRTK.ts:43-46 | filtering a page with distinct ids keeps the ids distinct |
| Feed.MergeKeepsIdsDistinct | src/hooks/useFeedRTK.ts:35-51 | merging pages with distinct ids never introduces a duplicate id into the list |
| Feed.Refresh | src/hooks/useFeedRTK.ts:53-57 | refresh returns to page 1 with an empty list |
| Feed.LoadMore | src/hooks/useFeedRTK.ts:59-63 | the page advances by one exactly when the last page reported more and nothing is being fetched; the list is untouched |
| Feed.ToggleOne | src/hooks/useFeedRTK.ts:70-75 | the optimistic update flips the liked flag and moves the count one step in the matching direction, changing nothing else |
| Feed.MapPosts | src/hooks/useFeedRTK.ts:68-78 | posts with the given id are transformed, all others kept, order and length preserved |
| Feed.ToggleLike | src/hooks/useFeedRTK.ts:65-78 | the target posts flip liked and move the count by one in the matching direction; all other posts are unchanged |
| Feed.RollbackOneAsWritten | src/hooks/useFeedRTK.ts:83-93 | the rollback as written flips liked but moves the count by the opposite rule |
| Feed.RollbackAsWritten | src/hooks/useFeedRTK.ts:81-94 | the as-written rollback leaves all other posts unchanged |
| Feed.RollbackAsWrittenDrifts | src/hooks/useFeedRTK.ts:68-93 | after a failed like as written, the post has its original liked flag but a count two away from its original |
| Feed.RollbackAsWrittenExample | src/hooks/useFeedRTK.ts:68-93 | an unliked post with 10 likes ends with 12 after a failed like |
| Feed.Rollback | src/hooks/useFeedRTK.ts:81-94 | the corrected rollback leaves all other posts unchanged |
| Feed.RollbackUndoesToggle | src/hooks/useFeedRTK.ts:65-94 | the corrected rollback restores the list exactly as before the optimistic update |
| Feed.ToggleLikeWithOutcome | src/hooks/useFeedRTK.ts:65-97 | when the trigger's promise resolves, the list keeps the optimistic update; when it rejects, the `.catch` rollback as written leaves the target posts with their original liked flag but a count two further in the attempted direction; other posts and the page never change |
| Feed.ToggleLikeIntended | src/hooks/useFeedRTK.ts:65-97 | the intended toggle: a rejected request leaves the list exactly as it was before the like |
| Feed.ToggleLikeAsWrittenDiffers | src/hooks/useFeedRTK.ts:81-94 | for any listed post, a rejected like as written differs from the intended result |
| Feed.Flags | src/hooks/useFeedRTK.ts:99-112 | loading only on page 1, loading-more only past page 1, never both; the error is present exactly when the query failed with something truthy (an empty error string gives none), carrying its text, its error field or the fixed fallback message; more exactly when the last page said so |
| PostService.ImageAssetsOf | src/services/postService.ts:36-67 | one asset per bundled image, the i-th image paired with the i-th thumbnail |
| PostService.VideoAssetsOf | src/services/postService.ts:73-91 | one asset per bundled video, the i-th with the i-th listed duration |
| PostService.BundledAssetsValid | src/services/postService.ts:25 | the bundled lists give ten distinct images and ten videos carrying the listed durations |
| PostService.ImageAssetsDistinct | src/services/postService.ts:36-67 | a valid image list has no repeated asset, and different assets differ in handle |
| PostService.PermutationKeepsNoDup | src/services/postService.ts:93-100 | any reordering of a duplicate-free list is duplicate-free |
| PostService.PermutationKeepsDistinctIds | src/services/postService.ts:183 | reordering posts with distinct ids keeps the ids distinct |
| Base.RandomIndex | src/services/postService.ts:96 | `Math.floor(r * m)` for a random r in [0, 1) is an index below m, the floor of the scaled draw |
| PostService.ShuffleFrom | src/services/postService.ts:95-98 | the swap loop keeps the length of the list |
| PostService.ShuffleFromPermutes | src/services/postService.ts:95-98 | every swap keeps the entries, so the loop yields a permutation |
| PostService.Shuffle | src/services/postService.ts:93-100 | the shuffled copy is a permutation of the input with the same length |
| PostService.ShuffleHeadsDiffer | src/services/postService.ts:149-150 | the two images taken from a shuffled distinct list are different |
| PostService.PostIdInjective | src/services/postService.ts:169 | different post indices give different post ids `post_<index>` (`PostId`) |
| PostService.PostMedia | src/services/postService.ts:129-166 | an odd index gets one video from the assets with its duration; an even index gets two different images with their thumbnails; ids are `video_<index>_1` and `img_<index>_<slot>` (`MediaId`) |
| PostService.MakePost | src/services/postService.ts:124-180 | id, user id, username, caption and kind follow the post index; likes lie in 50..1049, comments in 5..104; liked when the draw exceeds 0.7; the timestamp is the clock minus index hours |
| PostService.Generate | src/services/postService.ts:123-181 | the loop makes exactly limit posts; post i has post index start + i, takes its 21 random draws from its own window starting at draw + 21·i, and reads the clock once, at tick + i |
| PostService.Insert | src/services/postService.ts:183 | inserting into a newest-first list adds exactly that post and keeps the list newest first |
| PostService.SortNewestFirst | src/services/postService.ts:183 | the sort is a permutation ordered by timestamp, newest first |
| PostService.SortKeepsSortedList | src/services/postService.ts:183 | a list already newest first is left as it is (the sort is stable) |
| PostService.GeneratedNewestFirst | src/services/postService.ts:178-183 | when the loop runs within an hour, posts come out newest first, so the sort keeps generation order |
| PostService.PageStart | src/services/postService.ts:120 | a page starts at (page - 1) * limit and ends at page * limit |
| PostService.GenerateMockPosts | src/services/postService.ts:102-184 | a page has limit posts, newest first, and is a reordering of the loop's posts |
| PostService.GenerateIndexed | src/services/postService.ts:124-175 | the i-th post of the loop carries the id, username and caption of index start + i |
| PostService.IndexedDistinctIds | src/services/postService.ts:169 | posts of distinct consecutive indices have distinct ids |
| PostService.PermutedGenerateIndexed | src/services/postService.ts:183 | every post of the sorted loop carries an index of the page's range |
| PostService.SortedGenerateFacts | src/services/postService.ts:120-183 | the sorted posts have distinct ids, each from the page's index range |
| PostService.PageFacts | src/services/postService.ts:102-184 | the posts of a page have distinct ids from the indices (page - 1) * limit up to page * limit |
| PostService.PageFromLists | src/services/postService.ts:104-175 | every username and caption of a page comes from the generator's lists |
| PostService.PagesShareNoIds | src/services/postService.ts:120-169 | two different pages of the same size share no post id |
| PostService.PageIndexInjective | src/services/postService.ts:120-124 | an index lies in only one page's range |
| PostService.GetPosts | src/services/postService.ts:189-209 | a page of limit newest-first posts with distinct ids in the page's range; more pages exactly below page 10; total of ten pages of limit |
| PostService.SearchCorpus | src/services/postService.ts:218-222 | pages 1 to n of ten posts, 10n posts in all, names and captions from the lists |
| PostService.Filter | src/services/postService.ts:226-229 | a post is kept exactly when its lower-cased caption or username contains the query (the callback `SearchMatches`) |
| PostService.FilterAppend | src/services/postService.ts:226-229 | the filter keeps list order and multiplicity: it distributes over concatenation |
| PostService.SearchPosts | src/services/postService.ts:214-234 | a post is returned exactly when it is among the hundred generated posts and matches the lower-cased, trimmed query; the list is `Filter` over the corpus, so its order and repeats are those of `FilterAppend` and `SearchCorpusPageOrder` |
| PostService.SearchCorpusPageOrder | src/services/postService.ts:214-229 | the results come page by page: the matches of the first pages, then those of the next page, in each page's order |
| PostService.FilterEmptyKeepsAll | src/services/postService.ts:226-229 | the empty query keeps every post in order |
| PostService.BlankQueryKeepsAll | src/services/postService.ts:225-229 | a blank query keeps every post in order |
| PostService.BlankQueryReturnsAll | src/services/postService.ts:214-234 | a blank query returns all one hundred posts in order |
| PostService.UsernamesNormal | src/services/postService.ts:104 | every listed username is lower case with no blanks around it |
| PostService.SearchFindsUsername | src/services/postService.ts:225-229 | searching for a post's username, in any letter case and with blanks around it, finds that post |
| MediaService.VideoDurationByIndex | src/services/mediaService.ts:13-18 | a duration exactly for indices 0 to 9, the listed positive one; none for any other number |
| MediaService.MockImage | src/services/mediaService.ts:41-49 | the i-th image has id media_img_i; it is the first external URL when i is divisible by three and bundled image i mod 4 otherwise |
| MediaService.MockVideo | src/services/mediaService.ts:52-60 | the i-th video has id media_video_i, bundled video i mod 4 and that video's listed duration |
| MediaService.GenerateMockMedia | src/services/mediaService.ts:25-63 | the loops build exactly `MockMediaList`: thirty items, the twenty images of the first loop followed by the ten videos of the second |
| MediaService.MockMediaShape | src/services/mediaService.ts:25-63 | images exactly at positions below 20, remote exactly at multiples of three, bundled otherwise; every video bundled with a known length |
| MediaService.MockMediaIdsDistinct | src/services/mediaService.ts:43-55 | no two generated items share an id |
| MediaService.KeptFrom | src/services/mediaService.ts:85 | the kept positions are increasing and are exactly the even ones and the odd ones whose random draw exceeds one half |
| MediaService.Pick | src/services/mediaService.ts:85 | the result lists the entries at the given positions, in order |
| MediaService.SearchResults | src/services/mediaService.ts:84-86 | a blank query returns the whole list; any result is no longer than the list |
| MediaService.SearchMedia | src/services/mediaService.ts:79-90 | the result is exactly `SearchResults` over the generated list, so `SearchKeepsEvenPositions` describes it; a blank query returns all thirty items; every result is an image or a video with a length; every item at an even position is always returned |
| MediaService.SearchKeepsEvenPositions | src/services/mediaService.ts:84-86 | a non-blank query yields an order-preserving subsequence holding every even position, and an odd position exactly when its draw exceeds one half |
| Transformers.OrInt | src/utils/transformers.ts:33-35 | a present non-zero number wins; a missing or zero one gives way to the fallback |
| Transformers.OrBool | src/utils/transformers.ts:36 | true wins; false or missing gives way to the fallback |
| Transformers.FallbackId | src/utils/transformers.ts:13 | the clock's decimal reading, a non-empty string of digits |
| Transformers.TransformMediaItem | src/utils/transformers.ts:11-19 | id, URI and thumbnail each from the first truthy spelling, the clock reading for a missing id, kind image unless it says video, duration carried over |
| Transformers.NestedUsername | src/utils/transformers.ts:28 | a nested username comes only from a present user object |
| Transformers.NestedAvatar | src/utils/transformers.ts:29 | a nested avatar comes only from a present user object |
| Transformers.NestedAvatarUrl | src/utils/transformers.ts:29 | a nested avatar URL comes only from a present user object |
| Transformers.TransformMediaList | src/utils/transformers.ts:31 | every media entry transformed, order and length kept |
| Transformers.TransformPost | src/utils/transformers.ts:24-38 | each field from the first truthy of its accepted spellings or its default; kind from the first media item when missing; media transformed one for one; liked when either spelling is true |
| Transformers.TransformPosts | src/utils/transformers.ts:43-45 | every post transformed, order and length kept |
| Transformers.MediaToDto | src/utils/transformers.ts:11-19 | an entity sent back in the app's own field names keeps its id, URI and thumbnail |
| Transformers.PostToDto | src/utils/transformers.ts:24-38 | a post sent back keeps its id, kind and number of media |
| Transformers.MediaRoundTrip | src/utils/transformers.ts:11-19 | transforming a well-formed media entity sent back in its own shape returns it unchanged |
| Transformers.PostRoundTrip | src/utils/transformers.ts:24-38 | transforming a well-formed post sent back in its own shape returns it unchanged |
| Transformers.EmptyReplyDefaults | src/utils/transformers.ts:24-38 | a reply with no fields becomes the default post: clock id, empty user id, unknown user, images, no media, zero counts, clock timestamp, not liked |
| Transformers.TransformPostsRoundTrip | src/utils/transformers.ts:43-45 | transforming a list of well-formed posts sent back in their own shape returns the list unchanged |
| SearchScreen.NumColumns | src/screens/Search/SearchScreen.tsx:37-45 | five columns exactly on lg and xl, four exactly on md, three exactly on sm and xs |
| SearchScreen.NumColumnsAgreesWithGrid | src/screens/Search/SearchScreen.tsx:37-45 | the screen's column count equals the older grid's count without a column prop, on every breakpoint |
| SearchScreen.HandleSearchChange | src/screens/Search/SearchScreen.tsx:47-57 | the raw text is stored; the hook searches exactly when the text is not blank, with the trimmed text, and is cleared otherwise |
| SearchScreen.SearchQueryTrimmed | src/screens/Search/SearchScreen.tsx:50-51 | the sent query has no surrounding blanks, and typing it again sends the same query |
| SearchScreen.ImageUrisOf | src/screens/Search/SearchScreen.tsx:63-65 | exactly the URIs of the image items, never more than the items |
| SearchScreen.ImageUrisOfAppend | src/screens/Search/SearchScreen.tsx:63-65 | the URIs follow the media order, one per image and none per video |
| SearchScreen.SearchPrefetch | src/screens/Search/SearchScreen.tsx:60-70 | a call is made exactly when an image lies among the first twelve items; it carries at most twelve URIs, the image URIs of the first twelve items in item order, repeats included (`ImageUrisOf`, ordered by `ImageUrisOfAppend`) |
| SearchScreen.PrefetchEffect | src/screens/Search/SearchScreen.tsx:60-70 | the effect preloads that list through the prefetch hook, and leaves the hook alone otherwise |
| SearchScreen.PrefetchCoversFirstTwelve | src/screens/Search/SearchScreen.tsx:60-70 | after a preload that did not throw, every remote image among the first twelve items is tracked |
| SearchScreen.Render | src/screens/Search/SearchScreen.tsx:106-125 | loading skeleton while loading; else the error message; else no results for an empty list under a non-blank query; else the first-visit skeleton; else the grid with videos paused; skeletons and grid use the column count |
| SearchScreen.GridIsTheFallback | src/screens/Search/SearchScreen.tsx:106-125 | the grid shows exactly when not loading, no error, and there is media or earlier content under a blank query |
| SearchScreen.SearchVideosPaused | src/screens/Search/SearchScreen.tsx:119-124 | every video cell of the search grid is paused whatever the visibility |
| SearchScreen.OnRetry | src/screens/Search/SearchScreen.tsx:112 | retry searches again exactly when the stored query is not blank, with the same query typing it would send |
| SearchScreen.HandleItemPress | src/screens/Search/SearchScreen.tsx:83-91 | the detail screen opens exactly when the pressed item maps to a post, with that post |
| ErrorService.Classify | src/services/errorService.ts:20-40 | a non-Error is unknown; any other kind is mentioned by the lower-cased message, and no kind checked earlier is; `Mentions` holds the keyword tests: network or fetch, timeout, 401 or unauthorized, 404 or not found, 500 or server |
| ErrorService.ClassifyIsFirstMatch | src/services/errorService.ts:20-40 | an Error is classified as a kind exactly when that kind is mentioned and no kind checked earlier is |
| ErrorService.ClassifyIgnoresCase | src/services/errorService.ts:22 | messages that agree after lower-casing are classified alike |
| ErrorService.FetchBeatsTimeout | src/services/errorService.ts:23-28 | a message naming both a failed fetch and a timeout is a network error |
| ErrorService.FriendlyMessage | src/services/errorService.ts:45-60 | every kind has a non-empty user message |
| ErrorService.FriendlyMessagesDistinct | src/services/errorService.ts:45-60 | different kinds get different user messages |
| ErrorService.IsRetryable | src/services/errorService.ts:65-71 | exactly network, timeout and server errors are retryable |
| ErrorService.CreateAppError | src/services/errorService.ts:76-86 | the record's kind is the classification, its message that kind's user message, its retry flag that kind's, and its original message the Error's or the value's text |
| ErrorService.NonErrorNotRetryable | src/services/errorService.ts:76-86 | a thrown non-Error becomes an unknown, non-retryable error keeping its text |
| ErrorService.MessageDeterminesKind | src/services/errorService.ts:76-86 | two records with the same user message have the same kind and retry flag |
| AuthService.BuildUser | src/services/authService.ts:75-82 | the user keeps the name, has no avatar, an id of user_ followed by the name and an email of the name followed by @example.com |
| AuthService.BuildUserInjective | src/services/authService.ts:75-82 | users built from different names differ in id and in email |
| AuthService.CreateTokenPair | src/services/authService.ts:84-91 | access and refresh tokens are the prefix, the name and the clock reading joined by double colons; the expiry is fifteen minutes |
| AuthService.ExtractUsernameAsWritten | src/services/authService.ts:93-105 | as written: nothing unless the token starts refresh::, otherwise a non-empty trimmed name |
| AuthService.SecondField | src/services/authService.ts:98-103 | splitting at every double colon puts a colon-free name right after the prefix in the second field |
| AuthService.AsWrittenRoundTrip | src/services/authService.ts:84-105 | as written, a trimmed name without a colon comes back from its refresh token |
| AuthService.AsWrittenTruncatesName | src/services/authService.ts:98-104 | as written, the refresh token of a name a::b yields only a |
| AuthService.CorrectedKeepsName | src/services/authService.ts:93-105 | the corrected reading returns a name containing a double colon whole |
| AuthService.LastSeparatorBelow | src/services/authService.ts:98 | the position found is a double colon with none after it below the bound; none found means none occurs |
| AuthService.ExtractUsername | src/services/authService.ts:93-105 | corrected reading: nothing unless the token starts refresh::, otherwise the trimmed text up to the last double colon, non-empty |
| AuthService.UsernameRoundTrip | src/services/authService.ts:84-105 | every trimmed non-empty name, whatever its characters, comes back from its refresh token |
| AuthService.ReadingsAgreeWithoutSeparator | src/services/authService.ts:93-105 | on a refresh token with no colon after the prefix, the corrected reading agrees with the code |
| AuthService.AccessTokenRejected | src/services/authService.ts:94 | an access token never yields a name, in either reading |
| AuthService.LoginName | src/services/authService.ts:19 | the trimmed username when it is not blank, else user; never empty or padded |
| AuthService.Login | src/services/authService.ts:15-33 | login always succeeds, with the user and token pair built from that name |
| AuthService.RefreshSession | src/services/authService.ts:38-62 | an empty token is refused as required; a token whose second `::` field is blank or missing is invalid; otherwise it resolves with the built user of the trimmed second field and a fresh token pair for that name |
| AuthService.RefreshSessionIntended | src/services/authService.ts:38-62 | the same flow with the corrected reading: it resolves exactly when a name is found before the timestamp, with the built user of the whole name and a fresh token pair |
| AuthService.RefreshAfterLogin | src/services/authService.ts:15-62 | refreshing a login's refresh token gives the same user with a new token pair, for every login name without a colon |
| AuthService.RefreshAfterLoginTruncates | src/services/authService.ts:15-62 | a login as `a::b` refreshes as the different user `a` |
| AuthService.RefreshAfterLoginIntended | src/services/authService.ts:15-62 | with the corrected reading, every login refreshes as the same user |
| AuthService.RefreshRejectsAccessToken | src/services/authService.ts:38-62 | refreshing with a login's access token is rejected as invalid |
| LoginScreen.StartLogin | src/screens/Login/useLogin.ts:27-36 | a call is made exactly when neither field is blank, with the trimmed fields; a blank field sets the fixed message and nothing else; otherwise loading starts and the error clears |
| LoginScreen.FailureMessage | src/screens/Login/useLogin.ts:40 | an Error's own message, the fallback text for anything else |
| LoginScreen.FinishLogin | src/screens/Login/useLogin.ts:36-43 | loading always ends; navigation to the feed exactly on success; a failure records its message |
| LoginScreen.HandleLogin | src/screens/Login/useLogin.ts:27-44 | the whole handler is the start followed, when a call was made, by the finish |
| LoginScreen.BlankFieldMakesNoCall | src/screens/Login/useLogin.ts:28-31 | a blank field never reaches the service: the fixed message, no navigation, fields and loading flag untouched |
| LoginScreen.FilledFormOutcome | src/screens/Login/useLogin.ts:33-43 | with both fields filled, the trimmed credentials are sent, loading ends, and exactly one of navigation and an error message results |
| LoginScreen.MockServiceLogsInTypedName | src/screens/Login/useLogin.ts:36 | against the mock service a filled form always logs in as the trimmed typed name |
| LoginScreen.SurroundingBlanksIgnored | src/screens/Login/useLogin.ts:36 | forms that differ only by surrounding blanks send the same call |
| AuthSlice.Reduce | src/store/slices/authSlice.ts:24-41 | setting a session stores user and token and authenticates; clearing removes both and signs out; neither touches loading; setting loading changes only that flag; session fields stay consistent |
| AuthSlice.LastSessionAction | src/store/slices/authSlice.ts:25-37 | the action found is a session action taken from the run |
| AuthSlice.ReachableConsistent | src/store/slices/authSlice.ts:11-41 | in every state reachable from the initial one, authenticated exactly when a user is held, and a user exactly when a token is |
| AuthSlice.ReachableState | src/store/slices/authSlice.ts:11-41 | after any run, authenticated exactly when the last session action set a session, holding its user and token; loading is the last flag set, or true |
| AuthSlice.ClearSessionSignsOut | src/store/slices/authSlice.ts:33-37 | clearing the session from any state gives the initial session fields and keeps the loading flag |
| AuthSlice.StoringLoginSession | src/store/slices/authSlice.ts:25-32 | storing the session a login returns signs in the user with the login name, consistently |
| NetworkSlice.Reduce | src/store/slices/networkSlice.ts:31-42 | a report is held and marks the slice initialised; a reset returns to the initial state; the result is always consistent |
| NetworkSlice.IsOnline | src/store/slices/networkSlice.ts:51-53 | online exactly when a report is held and it says connected |
| NetworkSlice.SelectNetworkState | src/store/slices/networkSlice.ts:58-60 | the held report, present exactly when one is held |
| NetworkSlice.LastActionDecides | src/store/slices/networkSlice.ts:31-53 | after any run only the last action matters: a reset gives the initial state, a report is held and decides being online |
| NetworkSlice.ReachableConsistent | src/store/slices/networkSlice.ts:16-42 | every reachable state holds a report exactly when initialised, and with only resets the device counts as offline |
| Avatar.FirstCharText | src/components/Avatar/Avatar.tsx:20 | the first character of a non-empty string, the text undefined for an empty one |
| Avatar.GetInitials | src/components/Avatar/Avatar.tsx:16-23 | the empty name gives ?, and no name gives empty initials |
| Avatar.SingleWordInitial | src/components/Avatar/Avatar.tsx:16-23 | a single word gives its first letter upper-cased |
| Avatar.TwoWordInitials | src/components/Avatar/Avatar.tsx:16-23 | two words joined by one space give both first letters upper-cased |
| Avatar.DoubleSpaceParts | src/components/Avatar/Avatar.tsx:18 | splitting a name whose first two words are two spaces apart gives the first word and an empty second part |
| Avatar.DoubleSpaceQuirk | src/components/Avatar/Avatar.tsx:18-20 | two words two spaces apart give the first letter followed by UNDEFINED |
| Avatar.LeadingSpaceQuirk | src/components/Avatar/Avatar.tsx:18-22 | a single word after a leading blank gives the blank, read from the untrimmed name |
| Avatar.PlaceholderText | src/components/Avatar/Avatar.tsx:47 | the initials of a non-empty username, otherwise U |
| Avatar.Render | src/components/Avatar/Avatar.tsx:11-49 | the picture exactly for a truthy reference; otherwise initials with a font 0.4 times the size; size 32 by default, radius half the size |
| Avatar.FalsyPictureShowsInitials | src/components/Avatar/Avatar.tsx:31 | an unusable picture reference renders the same as no picture |

## Left out

- Native libraries are out of scope: FastImage decoding, react-native-video playback, Reanimated, navigation, NetInfo and the keychain. Only their inputs and the calls made to them are modelled.
- `ImageCacheService` `clearDiskCache`, `clearMemoryCache` and `clearAllCaches` only forward to native cache clears that are not modelled. The tracking part of `clearAllCaches` is `ClearPrefetchTracking`.
- `getCacheMode` (`imageUtils`) is not part of this model. `ThumbnailImage.Render` takes the cache modes as parameters.
- Timers and delays are not modelled. This covers `setTimeout` in the services and the auto-focus delay on the search screen. The elapsed-time display `CustomVideoTimer` is left out too: its `useVideoTimer` hook is not part of this model. `AuthService.logout` only resolves after a delay, so it has no state to model.
- `mediaService.getMedia` resolves with the list that `MediaService.GenerateMockMedia` builds, after a delay. Only the list is modelled.
- Console warnings are not modelled: the carousel's video warning and the prefetch hooks' caught errors. A caught preload error appears only as a call logged as thrown.
- Styles, theme and layout are not modelled: sizes in points, the carousel's dot interpolation and the responsive helpers. Only the grid's fixed-height row arithmetic, the avatar's size-derived radius and font size, and the scroll-offset rounding are modelled.
- Callbacks forwarded to a component's caller (`onLoad`, `onError`, `onEnd`, `onPress`, `onLike`) are not modelled beyond the point where they are called. They carry no state of the modelled code.
- `LegacyProgressiveImage`: the thumbnail-loaded and full-loaded flags are written but never read, so they are left out.
- `VideoPlayer`: `hasError` and `isLoading` are never updated, so they are constants.
- The RTK Query wiring is not part of this model: `useGetPostsQuery`, `useToggleLikeMutation`, `useSearchRTK`, `useGetPosts`, `useAuthRTK` and the store. What they return is a parameter.
- The like mutation's outcome is a parameter: whether the trigger's promise rejects. An RTK Query trigger resolves with an error result instead of rejecting unless `.unwrap()` is called, so for a failed request the `.catch` handler may never run and the list keeps the optimistic update, which is the resolving branch of the model.
- `PostService.GetPosts`: only pages from 1 up are modelled. A page of 0 or below would make the code compute a negative first post index.
- `PostService.GeneratedNewestFirst`: says the sort keeps generation order only when the loop's clock readings stay within an hour of the first. Other clock behaviour is covered only by `PostService.GenerateMockPosts`, which says the result is a newest-first permutation.
- `Transformers.TransformMediaItem`: a reply's `type` is modelled as one of the two known kinds or missing. Any other string is not modelled, nor are numeric fields that are NaN or of the wrong type.
- `Avatar.GetInitials`: its own contract states only the `?` for the empty name and that the result is never empty. The one-word, two-word, double-space and leading-space cases are stated by lemmas about names of those shapes, not for every name.
- `ErrorService.FriendlyMessage`: its contract states only that every message is non-empty. That the messages are pairwise distinct is stated by `ErrorService.FriendlyMessagesDistinct`.
- `Avatar.GetInitials`: a character is a whole Unicode code point, while `name[0]` and `parts[i][0]` in Avatar.tsx:20-22 take one UTF-16 code unit. For a name starting with a character outside the Basic Multilingual Plane, such as an emoji, the component shows a lone surrogate and the model shows the whole character.
- `Transformers.TransformPost`: one `now` stands for every `Date.now()` fallback of a reply. transformers.ts:13, 26 and 35 read the clock separately, so the fallback id and the fallback `timestamp` can differ by the time between the reads. `Transformers.EmptyReplyDefaults` relies on the single reading. `Transformers.TransformMediaItem` has the same simplification for its media ids.
- `Text`: case mapping covers ASCII letters only. There is no Unicode normalisation.
- `ImageCarousel.ScrollIndex` uses exact real division. Floating-point rounding of the scroll offset is not modelled.

## Findings

| source | as written | input that shows it | evidently intended | confidence | as-written member | corrected member |
|---|---|---|---|---|---|---|
| src/components/Organisms/MediaGrid/MediaGrid.tsx:48-60 | The prefetch effect passes `{uri, thumbnailUri}` objects to `useImagePrefetch().prefetchImages`. That hook maps every non-string to the empty string and drops it, so nothing is ever preloaded. | Any post list with images, for example one post with two remote images. `FeedMediaGrid.AsWrittenPrefetchesNothing` and `FeedMediaGrid.AsWrittenExample` show an unchanged hook and an empty call log. | Prefetch every image of the posts with its thumbnail. `imageCacheService.prefetchImages` accepts exactly that object shape. `FeedMediaGrid.PrefetchEffectTracksAllImages` proves that corrected version tracks every image. | high that nothing is preloaded; not executed | FeedMediaGrid.PrefetchEffectAsWritten | FeedMediaGrid.PrefetchEffect |
| src/hooks/useFeedRTK.ts:81-94 | The rollback after a failed like moves `likes` by the rule `isLiked ? +1 : -1` on the post the optimistic update already flipped. The count therefore moves two further instead of back. | An unliked post with 10 likes ends unliked with 12 (`Feed.RollbackAsWrittenExample`). In general it ends two away from the original (`Feed.RollbackAsWrittenDrifts`, carried into `Feed.ToggleLikeWithOutcome`). | The rollback undoes the optimistic update. `Feed.RollbackUndoesToggle` proves the corrected rollback restores the list exactly, and `Feed.ToggleLikeIntended` uses it. | high that the handler drifts; the handler runs only if the trigger's promise rejects, which an RTK Query mutation trigger does not do without `.unwrap()`; not executed | Feed.ToggleLikeWithOutcome | Feed.ToggleLikeIntended |
| src/services/authService.ts:98-104 | The username is read as the second field of the refresh token split at every `::`. A username containing `::` is cut at its first `::`. | The refresh token of user `a::b` refreshes as user `a` (`AuthService.AsWrittenTruncatesName`, and through login and refresh `AuthService.RefreshAfterLoginTruncates`). | Read the username up to the last `::`, which comes before the timestamp. `AuthService.UsernameRoundTrip` proves every trimmed non-empty name comes back, and `AuthService.RefreshAfterLoginIntended` that every login then refreshes as itself. `AuthService.ReadingsAgreeWithoutSeparator` proves both readings agree on tokens without a colon. | medium, since login accepts any name; not executed | AuthService.RefreshSession | AuthService.RefreshSessionIntended |
