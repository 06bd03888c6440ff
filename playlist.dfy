/** src/controllers/playlist.controller.js: creating, reading, editing and
    deleting playlists. No operation checks that the caller owns the playlist. */
module PlaylistController {
  import opened Store
  import opened Order
  import opened Lists
  import opened Streams

  /** `Video.find({ description, owner }).select("_id")`: the ids of the
      owner's videos whose description is exactly this one, in natural order. */
  function VideosWithDescription(videos: map<Id, Video>, owner: Id, description: string): (r: seq<Id>)
    ensures Increasing(r)
    ensures forall k :: k in r <==> k in videos && videos[k].owner == owner && videos[k].description == description
  {
    FindIds(videos, (v: Video) => v.owner == owner && v.description == description)
  }

  /** createPlaylist: both fields must be truthy (400), then a caller must be
      signed in (401); the new playlist collects the caller's videos whose
      description is the playlist's. */
  method CreatePlaylist(db: Db, name: Option<string>, description: Option<string>, caller: Option<Id>)
    returns (status: Status, message: string, created: Option<Id>)
    requires db.Valid()
    modifies db`playlists, db`nextId
    ensures db.Valid()
    ensures !Truthy(name) || !Truthy(description) ==>
              status == BadRequest && message == "name and description are required"
    ensures Truthy(name) && Truthy(description) && caller.None? ==>
              status == Unauthorized && message == "User login required"
    ensures status != Created ==> created == None && db.playlists == old(db.playlists) && db.nextId == old(db.nextId)
    ensures Truthy(name) && Truthy(description) && caller.Some? ==>
      && status == Created && message == "Playlist created successfully"
      && created == Some(old(db.nextId)) && old(db.nextId) !in old(db.playlists)
      && db.playlists == old(db.playlists)[old(db.nextId) :=
           Playlist(name.value, description.value, caller.value,
                    VideosWithDescription(db.videos, caller.value, description.value))]
  {
    if !Truthy(name) || !Truthy(description) {
      return BadRequest, "name and description are required", None;
    }
    if caller.None? {
      return Unauthorized, "User login required", None;
    }
    var videoIds := VideosWithDescription(db.videos, caller.value, description.value);
    var id := db.Mint();
    db.playlists := db.playlists[id := Playlist(name.value, description.value, caller.value, videoIds)];
    status, message, created := Created, "Playlist created successfully", Some(id);
  }

  // ---------------------------------------------------------------------
  // Read-only queries

  /** A video of a playlist after the inner `$lookup`: { title, thumbnail,
      description } and its owner's profile. */
  datatype PlaylistVideo = PlaylistVideo(id: Id, title: string, thumbnail: string, description: string,
                                         owner: Option<Profile>)

  /** A playlist after the aggregation: its own fields, its owner's profile and its joined videos. */
  datatype PlaylistView = PlaylistView(id: Id, name: string, description: string, owner: Option<Profile>,
                                       videos: seq<PlaylistVideo>)

  function VideoCard(videos: map<Id, Video>, users: map<Id, User>, k: Id): PlaylistVideo
    requires k in videos
  {
    var v := videos[k];
    PlaylistVideo(k, v.title, v.thumbnail, v.description, ProfileOf(users, v.owner))
  }

  /** The `$lookup` of a playlist's video list: one entry per existing video
      the list refers to (a repeated reference gives one entry, a reference
      to a deleted video none). The join does not keep the list's order. */
  function JoinVideos(videos: map<Id, Video>, users: map<Id, User>, refs: seq<Id>): (r: seq<PlaylistVideo>)
    ensures forall i :: 0 <= i < |r| ==> r[i].id in refs && r[i].id in videos && r[i] == VideoCard(videos, users, r[i].id)
    ensures forall k :: k in refs && k in videos ==> exists i :: 0 <= i < |r| && r[i].id == k
    ensures forall i, j :: 0 <= i < j < |r| ==> r[i].id != r[j].id
  {
    var ks := KeysInOrder(set k | k in videos && k in refs);
    CardsFacts(videos, users, refs, ks);
    Cards(videos, users, ks)
  }

  lemma CardsFacts(videos: map<Id, Video>, users: map<Id, User>, refs: seq<Id>, ks: seq<Id>)
    requires Increasing(ks) && forall k :: k in ks <==> k in videos && k in refs
    ensures var r := Cards(videos, users, ks);
      && (forall i :: 0 <= i < |r| ==> r[i].id in refs && r[i].id in videos && r[i] == VideoCard(videos, users, r[i].id))
      && (forall k :: k in refs && k in videos ==> exists i :: 0 <= i < |r| && r[i].id == k)
      && (forall i, j :: 0 <= i < j < |r| ==> r[i].id != r[j].id)
  {
    var r := Cards(videos, users, ks);
    forall i | 0 <= i < |r| ensures r[i].id in refs && r[i].id in videos && r[i] == VideoCard(videos, users, r[i].id) {
      assert ks[i] in ks;
    }
    forall k | k in refs && k in videos ensures exists i :: 0 <= i < |r| && r[i].id == k {
      var i :| 0 <= i < |ks| && ks[i] == k;
      assert r[i].id == k;
    }
    forall i, j | 0 <= i < j < |r| ensures r[i].id != r[j].id {
      assert ks[i] < ks[j];
    }
  }

  /** The videos with these ids, in this order, each projected. */
  function Cards(videos: map<Id, Video>, users: map<Id, User>, ks: seq<Id>): seq<PlaylistVideo>
    requires forall k :: k in ks ==> k in videos
  {
    Map(ks, (k: Id) requires k in videos => VideoCard(videos, users, k))
  }

  function View(playlists: map<Id, Playlist>, videos: map<Id, Video>, users: map<Id, User>, k: Id): (v: PlaylistView)
    requires k in playlists
  {
    var p := playlists[k];
    PlaylistView(k, p.name, p.description, ProfileOf(users, p.owner), JoinVideos(videos, users, p.videos))
  }

  /** `Playlist.find({ owner }).select("_id")`: the ids of the owner's
      playlists, in natural order. */
  function OwnedPlaylists(playlists: map<Id, Playlist>, owner: Id): (r: seq<Id>)
    ensures Increasing(r)
    ensures forall k :: k in r <==> k in playlists && playlists[k].owner == owner
  {
    FindIds(playlists, (p: Playlist) => p.owner == owner)
  }

  /** The user's playlists, each once and in natural order, each with its
      owner and videos joined; an empty list when the user has none. */
  function GetUserPlaylists(playlists: map<Id, Playlist>, videos: map<Id, Video>, users: map<Id, User>,
                            userId: IdParam): (r: Result<seq<PlaylistView>>)
    ensures userId.NotObjectId? <==> r == Failure(BadRequest)
    ensures r.Success? ==> forall v :: v in r.value <==>
              v.id in playlists && playlists[v.id].owner == userId.id && v == View(playlists, videos, users, v.id)
    ensures r.Success? ==> forall i, j :: 0 <= i < j < |r.value| ==> r.value[i].id < r.value[j].id
  {
    if userId.NotObjectId? then Failure(BadRequest)
    else
      var ids := OwnedPlaylists(playlists, userId.id);
      ViewsFacts(playlists, videos, users, userId.id, ids);
      if |ids| == 0 then Success([])
      else Success(Views(playlists, videos, users, ids))
  }

  lemma ViewsFacts(playlists: map<Id, Playlist>, videos: map<Id, Video>, users: map<Id, User>, owner: Id,
                   ids: seq<Id>)
    requires Increasing(ids) && forall k :: k in ids <==> k in playlists && playlists[k].owner == owner
    ensures var r := Views(playlists, videos, users, ids);
      && (forall v :: v in r <==>
            v.id in playlists && playlists[v.id].owner == owner && v == View(playlists, videos, users, v.id))
      && (forall i, j :: 0 <= i < j < |r| ==> r[i].id < r[j].id)
  {
    var r := Views(playlists, videos, users, ids);
    forall v | v in r ensures v.id in playlists && playlists[v.id].owner == owner && v == View(playlists, videos, users, v.id) {
      var i :| 0 <= i < |r| && r[i] == v;
      assert ids[i] in ids;
    }
    forall k | k in playlists && playlists[k].owner == owner ensures View(playlists, videos, users, k) in r {
      var i :| 0 <= i < |ids| && ids[i] == k;
      assert r[i] == View(playlists, videos, users, k);
    }
    forall i, j | 0 <= i < j < |r| ensures r[i].id < r[j].id {
      assert ids[i] < ids[j];
    }
  }

  /** The playlists with these ids, in this order, each enriched. */
  function Views(playlists: map<Id, Playlist>, videos: map<Id, Video>, users: map<Id, User>, ids: seq<Id>)
    : seq<PlaylistView>
    requires forall k :: k in ids ==> k in playlists
  {
    Map(ids, (k: Id) requires k in playlists => View(playlists, videos, users, k))
  }

  /** getPlaylistById: the playlist with its owner's profile and the videos
      its list refers to; 404 when no playlist has the id. */
  function GetPlaylistById(playlists: map<Id, Playlist>, videos: map<Id, Video>, users: map<Id, User>,
                           playlistId: IdParam): (r: Result<PlaylistView>)
    ensures playlistId.NotObjectId? <==> r == Failure(BadRequest)
    ensures r == Failure(NotFound) <==> playlistId.ObjectId? && playlistId.id !in playlists
    ensures r.Success? ==> playlistId.ObjectId? && playlistId.id in playlists && r.value.id == playlistId.id
    ensures r.Success? ==>
      var p := playlists[playlistId.id];
      && r.value.owner == ProfileOf(users, p.owner)
      && r.value.name == p.name && r.value.description == p.description
      && r.value.videos == JoinVideos(videos, users, p.videos)
  {
    if playlistId.NotObjectId? then Failure(BadRequest)
    else if playlistId.id !in playlists then Failure(NotFound)
    else Success(View(playlists, videos, users, playlistId.id))
  }

  // ---------------------------------------------------------------------
  // Editing a playlist's video list

  /** addVideoToPlaylist: check both ids, then that the playlist and then the
      video exist; push the video unless the list already holds it. */
  method AddVideoToPlaylist(db: Db, playlistId: IdParam, videoId: IdParam)
    returns (status: Status, message: string, data: Option<Playlist>)
    requires db.Valid()
    modifies db`playlists
    ensures db.Valid()
    ensures playlistId.NotObjectId? ==> status == BadRequest && message == "Invalid playlist id"
    ensures playlistId.ObjectId? && videoId.NotObjectId? ==> status == BadRequest && message == "Invalid video id"
    ensures playlistId.ObjectId? && videoId.ObjectId? && playlistId.id !in old(db.playlists) ==>
              status == NotFound && message == "Playlist not found"
    ensures playlistId.ObjectId? && videoId.ObjectId? && playlistId.id in old(db.playlists) && videoId.id !in db.videos ==>
              status == NotFound && message == "Video not found"
    ensures status != Ok ==> db.playlists == old(db.playlists) && data == None
    ensures status == Ok <==> playlistId.ObjectId? && videoId.ObjectId? && playlistId.id in old(db.playlists)
                              && videoId.id in db.videos
    ensures status == Ok ==>
      var p, v := playlistId.id, videoId.id;
      var before := old(db.playlists)[p].videos;
      && p in db.playlists && data == Some(db.playlists[p])
      && (v in before ==> db.playlists == old(db.playlists) && message == "Video is already in the playlist")
      && (v !in before ==>
            && db.playlists == old(db.playlists)[p := old(db.playlists)[p].(videos := before + [v])]
            && |db.playlists[p].videos| == |before| + 1
            && db.playlists[p].videos[..|before|] == before
            && multiset(db.playlists[p].videos)[v] == 1
            && message == "Video added to playlist successfully")
  {
    if playlistId.NotObjectId? {
      return BadRequest, "Invalid playlist id", None;
    }
    if videoId.NotObjectId? {
      return BadRequest, "Invalid video id", None;
    }
    if playlistId.id !in db.playlists {
      return NotFound, "Playlist not found", None;
    }
    if videoId.id !in db.videos {
      return NotFound, "Video not found", None;
    }
    var playlist := db.playlists[playlistId.id];
    if videoId.id in playlist.videos {
      return Ok, "Video is already in the playlist", Some(playlist);
    }
    assert multiset(playlist.videos)[videoId.id] == 0;
    playlist := playlist.(videos := playlist.videos + [videoId.id]);
    db.playlists := db.playlists[playlistId.id := playlist];
    status, message, data := Ok, "Video added to playlist successfully", Some(playlist);
  }

  /** removeVideoFromPlaylist: the same checks in the same order; `$pull`
      the video when the list holds it. */
  method RemoveVideoFromPlaylist(db: Db, playlistId: IdParam, videoId: IdParam)
    returns (status: Status, message: string, data: Option<Playlist>)
    requires db.Valid()
    modifies db`playlists
    ensures db.Valid()
    ensures playlistId.NotObjectId? ==> status == BadRequest && message == "Invalid playlist id"
    ensures playlistId.ObjectId? && videoId.NotObjectId? ==> status == BadRequest && message == "Invalid video id"
    ensures playlistId.ObjectId? && videoId.ObjectId? && playlistId.id !in old(db.playlists) ==>
              status == NotFound && message == "Playlist not found"
    ensures playlistId.ObjectId? && videoId.ObjectId? && playlistId.id in old(db.playlists) && videoId.id !in db.videos ==>
              status == NotFound && message == "Video not found"
    ensures status != Ok ==> db.playlists == old(db.playlists) && data == None
    ensures status == Ok <==> playlistId.ObjectId? && videoId.ObjectId? && playlistId.id in old(db.playlists)
                              && videoId.id in db.videos
    ensures status == Ok ==>
      var p, v := playlistId.id, videoId.id;
      var before := old(db.playlists)[p].videos;
      && p in db.playlists && data == Some(db.playlists[p])
      && (v !in before ==> db.playlists == old(db.playlists) && message == "Video is not in the playlist")
      && (v in before ==>
            && db.playlists == old(db.playlists)[p := old(db.playlists)[p].(videos := Pull(before, v))]
            && v !in db.playlists[p].videos
            && message == "video deleted successfully")
  {
    if playlistId.NotObjectId? {
      return BadRequest, "Invalid playlist id", None;
    }
    if videoId.NotObjectId? {
      return BadRequest, "Invalid video id", None;
    }
    if playlistId.id !in db.playlists {
      return NotFound, "Playlist not found", None;
    }
    if videoId.id !in db.videos {
      return NotFound, "Video not found", None;
    }
    var playlist := db.playlists[playlistId.id];
    if videoId.id !in playlist.videos {
      return Ok, "Video is not in the playlist", Some(playlist);
    }
    var updated := playlist.(videos := Pull(playlist.videos, videoId.id));
    db.playlists := db.playlists[playlistId.id := updated];
    status, message, data := Ok, "video deleted successfully", Some(updated);
  }

  /** Adding a video the playlist did not hold and then removing it leaves the
      playlist as it was. */
  method AddThenRemove(db: Db, playlistId: Id, videoId: Id)
    requires db.Valid() && playlistId in db.playlists && videoId in db.videos
    requires videoId !in db.playlists[playlistId].videos
    modifies db`playlists
    ensures db.Valid() && db.playlists == old(db.playlists)
  {
    var s1, m1, d1 := AddVideoToPlaylist(db, ObjectId(playlistId), ObjectId(videoId));
    PullUndoesPush(old(db.playlists)[playlistId].videos, videoId);
    var s2, m2, d2 := RemoveVideoFromPlaylist(db, ObjectId(playlistId), ObjectId(videoId));
    assert db.playlists[playlistId] == old(db.playlists)[playlistId];
  }

  // ---------------------------------------------------------------------
  // Deleting and renaming

  /** deletePlaylist: a missing playlist answers 400, not 404. */
  method DeletePlaylist(db: Db, playlistId: IdParam) returns (status: Status, message: string, data: Option<Playlist>)
    requires db.Valid()
    modifies db`playlists
    ensures db.Valid()
    ensures playlistId.NotObjectId? ==> status == BadRequest && message == "the pplaylist id is not valid"
    ensures playlistId.ObjectId? && playlistId.id !in old(db.playlists) ==>
              status == BadRequest && message == "the playlist could not be deleted"
    ensures status != Ok ==> db.playlists == old(db.playlists) && data == None
    ensures status == Ok <==> playlistId.ObjectId? && playlistId.id in old(db.playlists)
    ensures status == Ok ==> db.playlists == old(db.playlists) - {playlistId.id}
                             && data == Some(old(db.playlists)[playlistId.id])
  {
    if playlistId.NotObjectId? {
      return BadRequest, "the pplaylist id is not valid", None;
    }
    if playlistId.id !in db.playlists {
      return BadRequest, "the playlist could not be deleted", None;
    }
    data := Some(db.playlists[playlistId.id]);
    db.playlists := db.playlists - {playlistId.id};
    status, message := Ok, "the playlist deleted successfully";
  }

  /** The `updateFields` object: the fields a `$set` will write. */
  datatype PlaylistFields = PlaylistFields(name: Option<string>, description: Option<string>)

  /** updatePlaylist: collect the truthy fields, then `$set` them on the
      playlist, which must exist. */
  method UpdatePlaylist(db: Db, playlistId: IdParam, name: Option<string>, description: Option<string>)
    returns (status: Status, message: string, data: Option<Playlist>)
    requires db.Valid()
    modifies db`playlists
    ensures db.Valid()
    ensures playlistId.NotObjectId? ==> status == BadRequest && message == "Invalid playlist id"
    ensures playlistId.ObjectId? && playlistId.id !in old(db.playlists) ==>
              status == NotFound && message == "Playlist not found"
    ensures status != Ok ==> db.playlists == old(db.playlists) && data == None
    ensures status == Ok <==> playlistId.ObjectId? && playlistId.id in old(db.playlists)
    ensures status == Ok ==>
      var p := playlistId.id;
      var before := old(db.playlists)[p];
      && db.playlists.Keys == old(db.playlists).Keys
      && (forall k :: k in db.playlists && k != p ==> db.playlists[k] == old(db.playlists)[k])
      && db.playlists[p].name == (if Truthy(name) then name.value else before.name)
      && db.playlists[p].description == (if Truthy(description) then description.value else before.description)
      && db.playlists[p].owner == before.owner
      && db.playlists[p].videos == before.videos
      && data == Some(db.playlists[p])
      && message == "Playlist updated successfully"
  {
    if playlistId.NotObjectId? {
      return BadRequest, "Invalid playlist id", None;
    }
    var fields := PlaylistFields(None, None);
    if Truthy(name) {
      fields := fields.(name := name);
    }
    if Truthy(description) {
      fields := fields.(description := description);
    }
    if playlistId.id !in db.playlists {
      return NotFound, "Playlist not found", None;
    }
    var playlist := db.playlists[playlistId.id];
    playlist := playlist.(name := fields.name.GetOr(playlist.name),
                          description := fields.description.GetOr(playlist.description));
    db.playlists := db.playlists[playlistId.id := playlist];
    status, message, data := Ok, "Playlist updated successfully", Some(playlist);
  }
}
