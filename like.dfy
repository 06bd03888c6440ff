/** src/controllers/like.controller.js: liking a video (a toggle) and the
    caller's liked videos. */
module LikeController {
  import opened Store
  import opened Order
  import opened Edges
  import opened Streams

  /** The store's uniqueness invariant is "every like of a video at most once". */
  lemma UniqueIsAtMostOne(m: map<Id, Like>)
    ensures UniqueVideoLikes(m) <==> forall x: Like :: x.video.Some? ==> AtMostOne(m, x)
  {
    if forall x: Like :: x.video.Some? ==> AtMostOne(m, x) {
      forall a, b | a in m && b in m && m[a] == m[b] && m[a].video.Some? ensures a == b {
        assert AtMostOne(m, m[a]);
      }
    }
  }

  /** toggleVideoLike: remove the caller's like of the video if there is one,
      otherwise create it. The video's existence is not checked. */
  method ToggleVideoLike(db: Db, videoId: IdParam, caller: Id)
    returns (status: Status, message: string, data: Option<Like>)
    requires db.Valid()
    modifies db`likes, db`nextId
    ensures db.Valid()
    ensures videoId.NotObjectId? ==>
              && status == BadRequest && message == "Invalid video ID" && data == None
              && db.likes == old(db.likes) && db.nextId == old(db.nextId)
    ensures videoId.ObjectId? ==>
      var edge := Like(Some(videoId.id), caller);
      && status == Ok
      && old(db.nextId) !in old(db.likes)
      && db.likes == Toggled(old(db.likes), edge, old(db.nextId))
      && (edge in old(db.likes).Values ==>
            message == "Video unliked successfully" && data == None && db.nextId == old(db.nextId))
      && (edge !in old(db.likes).Values ==>
            message == "Video liked successfully" && data == Some(edge))
  {
    if videoId.NotObjectId? {
      return BadRequest, "Invalid video ID", None;
    }
    var edge := Like(Some(videoId.id), caller);
    ghost var before := db.likes;
    ghost var newId := db.nextId;
    UniqueIsAtMostOne(before);
    if edge in db.likes.Values {
      var existing :| existing in db.likes && db.likes[existing] == edge;
      RemoveOnlyRecord(db.likes, edge, existing);
      db.likes := db.likes - {existing};
      status, message, data := Ok, "Video unliked successfully", None;
    } else {
      var id := db.Mint();
      db.likes := db.likes[id := edge];
      status, message, data := Ok, "Video liked successfully", Some(edge);
    }
    forall x: Like | x.video.Some? ensures AtMostOne(db.likes, x) {
      ToggledKeepsAtMostOne(before, edge, newId, x);
    }
    UniqueIsAtMostOne(db.likes);
  }

  /** Two toggles of the same video by the same caller give back the likes the
      store held (and the very same records when the caller had not liked it). */
  method ToggleVideoLikeTwice(db: Db, video: Id, caller: Id)
    requires db.Valid()
    modifies db`likes, db`nextId
    ensures db.Valid()
    ensures db.likes.Values == old(db.likes).Values
    ensures Like(Some(video), caller) !in old(db.likes).Values ==> db.likes == old(db.likes)
  {
    var s1, m1, d1 := ToggleVideoLike(db, ObjectId(video), caller);
    ghost var middle := db.likes;
    var s2, m2, d2 := ToggleVideoLike(db, ObjectId(video), caller);
    var edge := Like(Some(video), caller);
    if edge in old(db.likes).Values {
      // the removal ignores the id it was offered
      assert Toggled(old(db.likes), edge, old(db.nextId) + 1) == middle;
      ToggleTwice(old(db.likes), edge, old(db.nextId) + 1, old(db.nextId));
    } else {
      ToggleTwice(old(db.likes), edge, old(db.nextId), old(db.nextId) + 1);
    }
  }

  // ---------------------------------------------------------------------
  // getLikedVideos

  /** A like with its video populated (and that video's owner): absent when
      the video is gone. */
  datatype LikedVideo = LikedVideo(id: Id, video: Option<VideoDoc>, likedBy: Id)

  /** `Like.find({ likedBy, video: { $exists: true } })`: the caller's likes
      of videos, in natural order. */
  function LikesOfVideosBy(likes: map<Id, Like>, user: Id): (r: seq<Id>)
    ensures Increasing(r)
    ensures forall k :: k in r <==> k in likes && likes[k].likedBy == user && likes[k].video.Some?
  {
    FindIds(likes, (l: Like) => l.likedBy == user && l.video.Some?)
  }

  /** The `populate` of one like's video. */
  function PopulateLike(likes: map<Id, Like>, videos: map<Id, Video>, users: map<Id, User>, k: Id): LikedVideo
    requires k in likes && likes[k].video.Some?
  {
    var v := likes[k].video.value;
    LikedVideo(k, if v in videos then Some(Populated(users, v, videos[v])) else None, likes[k].likedBy)
  }

  function PopulateLikes(likes: map<Id, Like>, videos: map<Id, Video>, users: map<Id, User>, ks: seq<Id>)
    : seq<LikedVideo>
    requires forall k :: k in ks ==> k in likes && likes[k].video.Some?
  {
    Map(ks, (k: Id) requires k in likes && likes[k].video.Some? => PopulateLike(likes, videos, users, k))
  }

  /** getLikedVideos: exactly the caller's likes that name a video, each once,
      in natural order, each with its video populated. */
  function GetLikedVideos(likes: map<Id, Like>, videos: map<Id, Video>, users: map<Id, User>, caller: Id)
    : (r: seq<LikedVideo>)
    ensures forall i :: 0 <= i < |r| ==>
              r[i].id in likes && likes[r[i].id].likedBy == caller && likes[r[i].id].video.Some?
              && r[i] == PopulateLike(likes, videos, users, r[i].id)
    ensures forall k :: k in likes && likes[k].likedBy == caller && likes[k].video.Some? ==>
              exists i :: 0 <= i < |r| && r[i].id == k
    ensures forall i, j :: 0 <= i < j < |r| ==> r[i].id < r[j].id
  {
    var ks := LikesOfVideosBy(likes, caller);
    LikedFacts(likes, videos, users, caller, ks);
    PopulateLikes(likes, videos, users, ks)
  }

  lemma LikedFacts(likes: map<Id, Like>, videos: map<Id, Video>, users: map<Id, User>, caller: Id, ks: seq<Id>)
    requires Increasing(ks)
    requires forall k :: k in ks <==> k in likes && likes[k].likedBy == caller && likes[k].video.Some?
    ensures var r := PopulateLikes(likes, videos, users, ks);
      && (forall i :: 0 <= i < |r| ==>
            r[i].id in likes && likes[r[i].id].likedBy == caller && likes[r[i].id].video.Some?
            && r[i] == PopulateLike(likes, videos, users, r[i].id))
      && (forall k :: k in likes && likes[k].likedBy == caller && likes[k].video.Some? ==>
            exists i :: 0 <= i < |r| && r[i].id == k)
      && (forall i, j :: 0 <= i < j < |r| ==> r[i].id < r[j].id)
  {
    var r := PopulateLikes(likes, videos, users, ks);
    forall i | 0 <= i < |r|
      ensures r[i].id in likes && likes[r[i].id].likedBy == caller && likes[r[i].id].video.Some?
              && r[i] == PopulateLike(likes, videos, users, r[i].id)
    {
      assert ks[i] in ks;
    }
    forall k | k in likes && likes[k].likedBy == caller && likes[k].video.Some?
      ensures exists i :: 0 <= i < |r| && r[i].id == k
    {
      var i :| 0 <= i < |ks| && ks[i] == k;
      assert r[i].id == k;
    }
    forall i, j | 0 <= i < j < |r| ensures r[i].id < r[j].id {
      assert ks[i] < ks[j];
    }
  }
}
