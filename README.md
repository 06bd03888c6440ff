# Video-sharing backend controllers in Dafny

This project models the controller layer of an Express/Mongoose video-sharing
backend and proves properties of it. The layer covers playlists, videos,
subscriptions, comments, likes and the channel dashboard. Each controller
validates its request in a fixed order, looks the target up, sometimes checks
ownership, and then changes one record or one edge. The read-only controllers
run a filter, join and sort pipeline over the collections.

The store is a `Store.Db` object. It holds one map per collection (users,
videos, comments, playlists, subscriptions, likes), from document id to
document, plus the counter that mints fresh ids. `Db.Valid()` says three
things:

- every stored id is below the counter;
- a (subscriber, channel) pair is subscribed at most once;
- a (video, user) pair is liked at most once.

Every mutating controller keeps `Valid()`.

How the model maps the program:

- **Request ids.** `isValidObjectId` is not modelled. A request id arrives
  already classified as `IdParam`: `NotObjectId`, or `ObjectId(id)`.
- **Request strings.** An absent body field is `None`. JavaScript truthiness
  is `Truthy`, and `s?.trim()` being empty is `BlankContent`.
- **Natural order.** Ids are minted in increasing order, so a collection's
  natural order is ascending id. `Order.KeysInOrder` gives that order. The
  model takes a query without a `$sort` to return natural order (see
  "## Left out").
- **Joins.** A `$lookup` followed by `$first` on a user id is
  `Store.ProfileOf`. It gives the user's `_id` with the `{ username, fullName,
  avatar }` fields (an inclusion projection keeps `_id`), or nothing when the
  user is gone.
- **Mutating controllers** are methods that take the `Db` and change its
  collections in place. Each answers a `Status` (400, 401, 403, 404, 500, 200
  or 201) and the message the controller sends.
- **Read-only controllers** are functions. Most return `Result<T>`.
  `LikeController.GetLikedVideos` returns its list directly, because it has
  no error path. `VideoController.GetAllVideos` is a method that builds its
  pipeline stage by stage and answers a `Status` with the documents.
- **Database errors.** An error the database raises (a refused pipeline, a
  document the schema refuses) is not an `ApiError`. It is the status
  `InternalError` (500), the answer Express gives an error no handler
  turns into another status.
- **Collaborators** become parameters. Cloudinary is a `FileField` carrying
  the upload's outcome. The case-insensitive `$regex` match is a function
  parameter `regex`. The creation time is a parameter `now`.

Modules:

- `Store`: documents, request values, and the store.
- `Order`: natural order and `$sort`, as an insertion sort proved to sort and
  to permute.
- `Streams`: the `$match` and map stages of a pipeline, and the facts the
  sort keeps.
- `Lists`: a playlist's `push` and `$pull`.
- `Edges`: the toggle that likes and subscriptions share.
- One module per controller file: `PlaylistController`, `VideoController`,
  `SubscriptionController`, `CommentController`, `LikeController` and
  `DashboardController`.

What the code does is modelled as written, including its gaps:

- The playlist add, remove, update and delete controllers check no
  ownership, and neither does `updateVideo`.
- `deletePlaylist` answers 400 for a missing playlist.
- `getUserChannelSubscribers` matches subscriptions on `subscriber`.
- `publishAVideo` lets an absent title or description past its blank check
  (see "## Findings"). The request reaches the uploads and is refused only by
  the create.
- Deleting a video leaves its comments, likes and playlist entries in place.
- Toggling a like or a subscription checks neither the video nor the channel.

## Model

| member | source | states |
|---|---|---|
| Store.ProfileOf | src/controllers/comment.controller.js:23-44 | the owner join gives a profile exactly when a user has the id, with that user's id, username, full name and avatar |
| Store.BlankContentIsEmptyTrim | src/controllers/comment.controller.js:71 | `!content?.trim()` holds exactly when the field is absent or trims to the empty string |
| Order.FindIds | src/controllers/playlist.controller.js:47 | `find(filter)` returns exactly the ids of the records the filter matches, each once in natural order, as many as match |
| Order.SortOn | src/controllers/video.controller.js:61-64 | a `$sort` returns the same documents (a permutation) ordered on the key |
| Lists.Pull | src/controllers/playlist.controller.js:240-244 | after `$pull` the video is gone, and a list without the video is unchanged |
| Lists.PullCounts | src/controllers/playlist.controller.js:240-244 | `$pull` removes every occurrence of the video and keeps every other element as often as before |
| Lists.PullDistributes | src/controllers/playlist.controller.js:240-244 | `$pull` works element by element, so the remaining entries keep their relative order |
| Lists.PullUndoesPush | src/controllers/playlist.controller.js:204-244 | pushing an absent video and then pulling it gives back the original list |
| Edges.Without | src/controllers/subscription.controller.js:22-23 | deleting an edge removes every record of it and keeps every other record as it was |
| Edges.RemoveOnlyRecord | src/controllers/subscription.controller.js:17-23 | when the edge is recorded once, deleting the record `findOne` found deletes the edge |
| Edges.Toggled | src/controllers/subscription.controller.js:17-33 | the toggle flips whether the edge is present, changes no other edge, and keeps every record that is not this edge |
| Edges.ToggledKeepsAtMostOne | src/controllers/subscription.controller.js:17-33 | a toggle keeps every edge recorded at most once |
| Edges.ToggleTwice | src/controllers/subscription.controller.js:17-33 | two toggles of one edge give back the original edge set, and the very same records when the edge was absent |
| Streams.Filter | src/controllers/video.controller.js:36-38 | a `$match` keeps exactly the documents that satisfy it |
| Streams.FilterKeepsIncreasing | src/controllers/video.controller.js:17-38 | a `$match` keeps the natural order of what it lets through |
| Streams.PermutationKeepsDistinct | src/controllers/video.controller.js:62-64 | reordering documents keeps their ids distinct |
| Streams.SortKeepsDocuments | src/controllers/video.controller.js:62-64 | a `$sort` of documents in natural order returns the same documents, each once |
| PlaylistController.VideosWithDescription | src/controllers/playlist.controller.js:22-23 | exactly the ids of the caller's videos whose description equals the given one, in natural order |
| PlaylistController.CreatePlaylist | src/controllers/playlist.controller.js:12-31 | 400 when name or description is not truthy, then 401 without a caller, both before any write and each with its message; otherwise one new playlist owned by the caller whose videos are the caller's videos with that description |
| PlaylistController.JoinVideos | src/controllers/playlist.controller.js:124-152 | the joined videos are exactly the existing videos the list refers to, each once and projected with its owner's profile; no order is promised |
| PlaylistController.OwnedPlaylists | src/controllers/playlist.controller.js:47-48 | exactly the ids of the user's playlists, in natural order |
| PlaylistController.GetUserPlaylists | src/controllers/playlist.controller.js:42-109 | 400 exactly for an invalid id; otherwise exactly the user's playlists, each once in natural order, each with owner and videos joined (empty when there are none) |
| PlaylistController.GetPlaylistById | src/controllers/playlist.controller.js:116-173 | 400 exactly for an invalid id, 404 exactly when no playlist has the id; otherwise that playlist's fields, owner profile and joined videos |
| PlaylistController.AddVideoToPlaylist | src/controllers/playlist.controller.js:181-209 | invalid playlist id, then invalid video id (400), then missing playlist, then missing video (404); a video already listed leaves the playlist unchanged; otherwise it is appended, the earlier entries are kept, the length grows by one and the video occurs once |
| PlaylistController.RemoveVideoFromPlaylist | src/controllers/playlist.controller.js:217-248 | the same checks in the same order; an unlisted video leaves the playlist unchanged; otherwise the list becomes its `$pull`, which no longer holds the video |
| PlaylistController.AddThenRemove | src/controllers/playlist.controller.js:198-244 | adding a video the playlist did not hold and then removing it leaves every playlist as it was |
| PlaylistController.DeletePlaylist | src/controllers/playlist.controller.js:256-267 | 400 for an invalid id and also for a missing playlist; otherwise exactly that playlist is removed and returned |
| PlaylistController.UpdatePlaylist | src/controllers/playlist.controller.js:274-294 | 400 for an invalid id, 404 for a missing playlist, each with its message; otherwise only a truthy name or description is written, and owner, videos and every other playlist are untouched |
| VideoController.LookupThenFirstIsPopulate | src/controllers/video.controller.js:41-58 | the aggregation's `$lookup` then `$first` leaves the same owner field as `populate("owner")`: the owner's profile with its id, or null exactly when the owner is gone |
| VideoController.RunPush | src/controllers/video.controller.js:14-64 | each pushed stage applies to what the earlier stages left |
| VideoController.Stored | src/controllers/video.controller.js:72 | the aggregation starts from every stored video, each once, in natural order |
| VideoController.RunMatches | src/controllers/video.controller.js:17-38 | a run of `$match` stages keeps the documents every stage lets through, in natural order |
| VideoController.EnrichStored | src/controllers/video.controller.js:41-58 | after the lookup and flatten stages each kept video carries its owner's profile, in natural order |
| VideoController.Matches | src/controllers/video.controller.js:17-38 | the stages pushed before the lookup are all `$match` stages |
| VideoController.MatchesSelect | src/controllers/video.controller.js:17-38 | a video passes those stages exactly when it is published, owned by the userId when that is valid, and matched on title or description when a query is given |
| VideoController.RunStages | src/controllers/video.controller.js:41-64 | the full pipeline is the sort of the enriched matches |
| VideoController.MatchedAndEnriched | src/controllers/video.controller.js:17-58 | before the sort the documents are exactly the selected videos, populated and in natural order |
| VideoController.SortSelection | src/controllers/video.controller.js:60-64 | the sort keeps those documents, keeps their ids distinct and orders them on the key |
| VideoController.VideoPipelineResult | src/controllers/video.controller.js:14-64 | the pipeline returns each selected video once, populated, ordered ascending or descending on the field |
| VideoController.GetAllVideos | src/controllers/video.controller.js:10-72 | 500 with no videos exactly when the sort field (`sortBy`, createdAt only when absent) is not a field path the server accepts or a non-empty `query` is a pattern the server cannot compile; otherwise exactly the selected videos, each once, with the owner's profile, ordered on that field, ascending exactly when `sortType` is "asc", otherwise descending |
| VideoController.EmptySortFieldFails | src/controllers/video.controller.js:11-64 | an empty `sortBy` is kept rather than defaulted and is refused, as is `$views`; the default createdAt is accepted |
| VideoController.GuardAsWrittenIsTrim | src/controllers/video.controller.js:85-87 | the guard as modelled holds exactly when a present title or description trims to "" |
| VideoController.MissingTitlePassesGuard | src/controllers/video.controller.js:85-87 | the guard as written lets a request without a title through, which the intended guard refuses |
| VideoController.MissingOrBlankExtendsGuard | src/controllers/video.controller.js:85-87 | the intended guard rejects what the written guard rejects and, besides, exactly the requests that leave a field out; what it accepts has both fields present and not trimming to "" |
| VideoController.PublishAVideo | src/controllers/video.controller.js:84-124 | a present field that trims to "", then a missing video file, a failed video upload, a missing thumbnail and a failed thumbnail upload, each answer 400 in that order before any write; an absent field passes all of these and the create is refused with a 500 and no write; a video is created (201) exactly when the intended guard passes and both uploads succeed, owned by the caller, with the upload's duration or 0, 0 views and published |
| VideoController.GetVideoById | src/controllers/video.controller.js:133-153 | 400 for an invalid id, 404 for a missing video, each with its message; otherwise views grow by exactly one, no other field or video changes, and the answer has its owner populated |
| VideoController.UpdateVideo | src/controllers/video.controller.js:160-195 | 400 for an invalid id or a failed upload before any write, then 404 for a missing video; otherwise only a truthy title or description and the uploaded URLs are written, and owner, views, publish flag, duration and every other video are untouched; no ownership check |
| VideoController.DeleteVideo | src/controllers/video.controller.js:203-227 | 400, then 404 for a missing video before 403 for a non-owner; the owner removes exactly that video |
| VideoController.TogglePublishStatus | src/controllers/video.controller.js:235-257 | the same 400, 404, 403 order; the owner flips exactly the publish flag, and the message says which way |
| VideoController.ToggleTwice | src/controllers/video.controller.js:250-252 | two owner toggles leave the videos as they were |
| SubscriptionController.UniqueIsAtMostOne | src/controllers/subscription.controller.js:17-20 | the store's uniqueness invariant is "every subscription edge at most once", the case in which `findOne` finds the edge's only record |
| SubscriptionController.ToggleSubscription | src/controllers/subscription.controller.js:12-37 | 400 for an invalid channel id before any store access; otherwise the (caller, channel) edge is toggled, deleting it with empty data or creating exactly one record; channel existence and channel != caller are not checked |
| SubscriptionController.ToggleSubscriptionTwice | src/controllers/subscription.controller.js:17-33 | two toggles of the same pair restore the subscription set |
| SubscriptionController.SubscribersOf | src/controllers/subscription.controller.js:49-54 | exactly the users with a subscription to the channel |
| SubscriptionController.MatchedBySubscriber | src/controllers/subscription.controller.js:57-60 | the `$match` on `subscriber` selects every subscription made by any of those users, in natural order |
| SubscriptionController.GetUserChannelSubscribers | src/controllers/subscription.controller.js:44-88 | 400 exactly for an invalid id; otherwise one subscriber-profile entry per subscription of any subscriber of the channel |
| SubscriptionController.SubscriberListCountsOtherChannels | src/controllers/subscription.controller.js:49-60 | a channel with one subscriber who also follows another channel gets two entries |
| SubscriptionController.SubscriberListCoversChannel | src/controllers/subscription.controller.js:49-60 | every subscription to the channel is among those matched |
| SubscriptionController.SubscriptionsBy | src/controllers/subscription.controller.js:102-105 | exactly the subscriber's subscriptions, in natural order |
| SubscriptionController.GetSubscribedChannels | src/controllers/subscription.controller.js:97-133 | 400 exactly for an invalid id; otherwise one channel-profile entry per subscription the user made |
| SubscriptionController.SubscribedAfterToggle | src/controllers/subscription.controller.js:17-37 | after a toggle the caller has a subscription to the channel, and (when the channel's user exists) the channel's entry is in the caller's `getSubscribedChannels` list, exactly when the caller was not subscribed before |
| SubscriptionController.ListedIffSubscribed | src/controllers/subscription.controller.js:97-133 | a channel whose user exists has an entry in a subscriber's channel list exactly when one of the subscriber's subscriptions is to it |
| LikeController.UniqueIsAtMostOne | src/controllers/like.controller.js:15-18 | the store's uniqueness invariant is "every video like at most once" |
| LikeController.ToggleVideoLike | src/controllers/like.controller.js:10-36 | 400 for an invalid id before any store access; otherwise the (video, caller) like is toggled, deleting it with empty data or creating exactly one record; the video's existence is not checked |
| LikeController.ToggleVideoLikeTwice | src/controllers/like.controller.js:15-32 | two toggles restore the like set |
| LikeController.LikesOfVideosBy | src/controllers/like.controller.js:41-44 | exactly the caller's likes that have a video field, in natural order |
| LikeController.GetLikedVideos | src/controllers/like.controller.js:41-55 | exactly the caller's likes that have a video field, each once in natural order, each populated |
| CommentController.CommentsOn | src/controllers/comment.controller.js:19-21 | exactly the video's comments, in natural order |
| CommentController.GetVideoComments | src/controllers/comment.controller.js:13-58 | 400 exactly for an invalid id; otherwise exactly the video's comments, each once, with the owner's profile, newest first |
| CommentController.SortedComments | src/controllers/comment.controller.js:45-47 | sorting on createdAt descending keeps every comment once and puts the newest first |
| CommentController.AddComment | src/controllers/comment.controller.js:67-88 | invalid video id (400), then blank content (400), then missing video (404), before any write; otherwise one new comment with the untrimmed content, the video and the caller as owner |
| CommentController.AddedCommentListed | src/controllers/comment.controller.js:80-84 | an added comment appears in its video's comment list with its author's profile |
| CommentController.UpdateComment | src/controllers/comment.controller.js:96-123 | invalid id (400), blank content (400), missing comment (404), then non-owner (403), in that order; otherwise only the content changes |
| CommentController.DeleteComment | src/controllers/comment.controller.js:130-148 | invalid id (400), missing comment (404), then non-owner (403); the owner removes exactly that comment |
| CommentController.DeletedCommentUnlisted | src/controllers/comment.controller.js:144 | a deleted comment appears in no video's comment list |
| DashboardController.OwnedVideos | src/controllers/dashboard.controller.js:17 | exactly the owner's videos in natural order; as many as the owner has |
| DashboardController.GetChannelStats | src/controllers/dashboard.controller.js:12-35 | 401 exactly without a caller; totalVideos counts the caller's videos, totalViews is the left-to-right sum of their views, totalSubscribers counts the subscriptions to the caller's channel, totalLikes the likes of the caller's videos, and with no videos both totalViews and totalLikes are 0 |
| DashboardController.CountsMeanFilters | src/controllers/dashboard.controller.js:22-26 | the two `countDocuments` count exactly the records their filters match, and no owned videos means no counted likes |
| DashboardController.ViewsOfBounds | src/controllers/dashboard.controller.js:19 | each summed video's views are at most the sum, and the sum is 0 exactly when none of those videos has a view |
| DashboardController.ViewsOfOneMore | src/controllers/dashboard.controller.js:19 | raising one video's views by one raises the `reduce` sum by one exactly when that video is summed |
| DashboardController.WatchedVideoCounts | src/controllers/dashboard.controller.js:17-19 | a view counted by getVideoById raises totalViews by one exactly when the caller owns the video, and no other total moves |
| DashboardController.CountAfterToggle | src/controllers/dashboard.controller.js:22-26 | a toggle of an edge recorded at most once moves any count of matching records by exactly one, or leaves it when the edge does not match |
| DashboardController.SubscriberCountAfterToggle | src/controllers/dashboard.controller.js:22 | toggling a subscription moves the channel's totalSubscribers down by one when it removes and up by one when it creates |
| DashboardController.LikeCountAfterToggle | src/controllers/dashboard.controller.js:25-26 | toggling a like of one of the caller's videos moves totalLikes by one; a like of another video leaves it |
| DashboardController.GetChannelVideos | src/controllers/dashboard.controller.js:40-52 | 401 exactly without a caller; otherwise exactly the caller's videos, each once, populated, newest first |
| DashboardController.VideoListMatchesTotal | src/controllers/dashboard.controller.js:45-48 | the channel's video list is as long as its totalVideos |

## Left out

- Pagination through `aggregatePaginate` is not modelled. The page and limit semantics live in a library that is not part of this model, so only the stages feeding it are modelled.
- src/controllers/user.controller.js, token issuance, rotation and revocation, and login and logout are not part of this model.
- The HTTP envelope is not modelled: `asyncHandler`, `ApiResponse` and the bootstrap and connection code (src/index.js, src/db/index.js). Read-only controllers return their data without the success message.
- Concurrent requests are not modelled. Every controller runs as one atomic step, and the uniqueness of likes and subscriptions is a store invariant rather than a database constraint.
- `isValidObjectId` and ObjectId format are not modelled. A request id arrives as `IdParam`, and fresh ids come from a counter.
- MongoDB promises no order for a `find` or an aggregation without a `$sort`; an index, on `subscriber` for instance, can return another order. The model's choice is that such a query returns natural order (ascending id), and the index-wise contracts of SubscriptionController.GetUserChannelSubscribers, SubscriptionController.GetSubscribedChannels, LikeController.GetLikedVideos and the other unsorted queries rest on it.
- The case-insensitive `$regex` is the parameter `regex`, not a regular-expression engine. Whether the server can compile a pattern is the parameter `compiles` of VideoController.GetAllVideos.
- VideoController.PublishAVideo, VideoController.DeleteVideo, VideoController.TogglePublishStatus, LikeController.ToggleVideoLike, LikeController.GetLikedVideos, SubscriptionController.ToggleSubscription, CommentController.AddComment, CommentController.UpdateComment and CommentController.DeleteComment take the caller as an `Id`. They assume the `verifyJWT` middleware (not part of this model) always sets `req.user`. These handlers read `req.user._id` without `?.`, so without a user the source throws a TypeError, answered 500, once its earlier checks have passed.
- Cloudinary uploads are the `FileField` parameter. Its result is an upload with a URL and an optional whole-number duration, or a failure.
- Request values that are not strings (a number or an object in the body) are not modelled. A body field is an optional string.
- VideoController.GetAllVideos: a sort on a field other than createdAt, views or duration compares all documents equal, because string and other field orderings are not modelled.
- VideoController.GetAllVideos: a sort field is refused when it is empty, has an empty dot-separated part, has a part starting with `$` or holds a NUL; other limits the server puts on field paths are not modelled.
- VideoController.PublishAVideo: the video schema (src/models/video.model.js) is not part of this model. The model takes it to require title and description, so a document without one is refused. Its error message is not modelled.
- The error handler the app installs, if any, is not part of this model. A database error is answered 500, Express's answer for an error with no status.
- VideoController.PublishAVideo: a duration is a whole number, because Cloudinary's fractional durations are not modelled.
- VideoController.GetVideoById: `views += 1` on a document without a views number is not modelled, because views is always a number here.
- DashboardController.GetChannelStats: the `views || 0` fallback is not modelled for the same reason.
- PlaylistController.JoinVideos: states which videos come back but not their order, because `$lookup` does not keep the list's order and the code never restores it.
- The defaults views 0 and published true are assumed, as the `required` rule is, because src/models/video.model.js is not part of this model. Other schema defaults, and timestamps other than createdAt, are not modelled. Mongoose hooks are not modelled either.

## Findings

| source | as written | input that shows it | evidently intended | confidence | as-written member | corrected member |
|---|---|---|---|---|---|---|
| src/controllers/video.controller.js:85-87 | `field?.trim() === ""` is false for an absent field (`undefined`), so a request without a title or description passes the "All fields are required" check, both files are uploaded, and only `Video.create` refuses it | a body with no `title` and `description` "a talk" | reject an absent field as well as a blank one with 400 before any upload, as the message says | not executed | VideoController.MissingTitlePassesGuard | VideoController.MissingOrBlankExtendsGuard |
