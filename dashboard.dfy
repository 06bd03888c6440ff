/** src/controllers/dashboard.controller.js: the signed-in channel's totals
    and its videos, newest first. Nothing here changes the store. */
module DashboardController {
  import opened Store
  import opened Order
  import opened Streams
  import opened Edges
  import VideoController

  // ---------------------------------------------------------------------
  // getChannelStats

  datatype ChannelStats = ChannelStats(totalVideos: nat, totalViews: nat, totalSubscribers: nat, totalLikes: nat)

  /** The filter `{ owner }`. */
  function OwnedBy(owner: Id): Video -> bool {
    (v: Video) => v.owner == owner
  }

  /** The ids of the owner's videos. */
  function OwnedSet(videos: map<Id, Video>, owner: Id): set<Id> {
    Where(videos, OwnedBy(owner))
  }

  /** `Video.find({ owner })`: the owner's videos, in natural order. */
  function OwnedVideos(videos: map<Id, Video>, owner: Id): (r: seq<Id>)
    ensures Increasing(r)
    ensures forall k :: k in r <==> k in videos && videos[k].owner == owner
    ensures |r| == |OwnedSet(videos, owner)|
  {
    FindIds(videos, OwnedBy(owner))
  }

  /** `videos.reduce((acc, video) => acc + video.views, 0)`, left to right. */
  function ViewsOf(videos: map<Id, Video>, ks: seq<Id>): nat
    requires forall k :: k in ks ==> k in videos
  {
    if ks == [] then 0 else ViewsOf(videos, ks[..|ks| - 1]) + videos[ks[|ks| - 1]].views
  }

  /** The filter `{ channel }`. */
  function OnChannel(channel: Id): Subscription -> bool {
    (s: Subscription) => s.channel == channel
  }

  /** The filter `{ video: { $in: videoIds } }`. */
  function OnVideoIn(videoIds: set<Id>): Like -> bool {
    (l: Like) => l.video.Some? && l.video.value in videoIds
  }

  /** `Subscription.countDocuments({ channel })`. */
  function SubscriberCount(subs: map<Id, Subscription>, channel: Id): nat {
    |Where(subs, OnChannel(channel))|
  }

  /** `Like.countDocuments({ video: { $in: videoIds } })`. */
  function LikeCount(likes: map<Id, Like>, videoIds: set<Id>): nat {
    |Where(likes, OnVideoIn(videoIds))|
  }

  /** getChannelStats: 401 without a signed-in caller; otherwise how many
      videos the caller owns, their views summed, how many subscriptions name
      the caller's channel, and how many likes name one of the caller's
      videos. */
  function GetChannelStats(videos: map<Id, Video>, subs: map<Id, Subscription>, likes: map<Id, Like>,
                           caller: Option<Id>): (r: Result<ChannelStats>)
    ensures caller.None? <==> r == Failure(Unauthorized)
    ensures r.Success? ==>
      var c := caller.value;
      && r.value.totalVideos == |OwnedSet(videos, c)|
      && r.value.totalViews == ViewsOf(videos, OwnedVideos(videos, c))
      && r.value.totalSubscribers == |set k | k in subs && subs[k].channel == c|
      && r.value.totalLikes == |set k | k in likes && likes[k].video.Some? && likes[k].video.value in OwnedSet(videos, c)|
      && (r.value.totalVideos == 0 ==> r.value.totalViews == 0 && r.value.totalLikes == 0)
  {
    if caller.None? then Failure(Unauthorized)
    else
      var c := caller.value;
      var owned := OwnedVideos(videos, c);
      CountsMeanFilters(videos, subs, likes, c);
      Success(ChannelStats(|owned|, ViewsOf(videos, owned), SubscriberCount(subs, c),
                           LikeCount(likes, OwnedSet(videos, c))))
  }

  lemma CountsMeanFilters(videos: map<Id, Video>, subs: map<Id, Subscription>, likes: map<Id, Like>, c: Id)
    ensures SubscriberCount(subs, c) == |set k | k in subs && subs[k].channel == c|
    ensures LikeCount(likes, OwnedSet(videos, c))
            == |set k | k in likes && likes[k].video.Some? && likes[k].video.value in OwnedSet(videos, c)|
    ensures OwnedSet(videos, c) == {} ==> LikeCount(likes, OwnedSet(videos, c)) == 0
  {
    assert Where(subs, OnChannel(c)) == set k | k in subs && subs[k].channel == c;
    assert Where(likes, OnVideoIn(OwnedSet(videos, c)))
        == set k | k in likes && likes[k].video.Some? && likes[k].video.value in OwnedSet(videos, c);
    if OwnedSet(videos, c) == {} {
      assert Where(likes, OnVideoIn(OwnedSet(videos, c))) == {};
    }
  }

  /** Each summed video's views are part of the sum, and the sum is 0
      exactly when none of those videos has a view. */
  lemma {:induction false} ViewsOfBounds(videos: map<Id, Video>, ks: seq<Id>)
    requires forall k :: k in ks ==> k in videos
    ensures forall k :: k in ks ==> videos[k].views <= ViewsOf(videos, ks)
    ensures ViewsOf(videos, ks) == 0 <==> forall k :: k in ks ==> videos[k].views == 0
  {
    if ks != [] {
      var init := ks[..|ks| - 1];
      var last := ks[|ks| - 1];
      assert forall k :: k in ks <==> k in init || k == last by {
        assert ks == init + [last];
      }
      ViewsOfBounds(videos, init);
    }
  }

  /** Without repeated ids, raising one video's views by one raises the sum
      by one exactly when that video is among those summed. */
  lemma {:induction false} ViewsOfOneMore(videos: map<Id, Video>, ks: seq<Id>, k: Id)
    requires k in videos && Increasing(ks) && forall j :: j in ks ==> j in videos
    ensures var after := videos[k := videos[k].(views := videos[k].views + 1)];
      ViewsOf(after, ks) == ViewsOf(videos, ks) + if k in ks then 1 else 0
  {
    var after := videos[k := videos[k].(views := videos[k].views + 1)];
    if ks != [] {
      var init := ks[..|ks| - 1];
      var last := ks[|ks| - 1];
      assert Increasing(init);
      ViewsOfOneMore(videos, init, k);
      assert k in ks <==> k in init || k == last;
      if k == last {
        assert k !in init by {
          forall i | 0 <= i < |init| ensures init[i] != last {
            assert ks[i] < ks[|ks| - 1];
          }
        }
      }
    }
  }

  /** Watching a video (getVideoById's `views + 1`) raises the channel's
      totalViews by one when the caller owns the video, and leaves it alone
      otherwise; the other totals do not move. */
  lemma WatchedVideoCounts(videos: map<Id, Video>, subs: map<Id, Subscription>, likes: map<Id, Like>,
                           caller: Id, k: Id)
    requires k in videos
    ensures var after := videos[k := videos[k].(views := videos[k].views + 1)];
      var before := GetChannelStats(videos, subs, likes, Some(caller)).value;
      var now := GetChannelStats(after, subs, likes, Some(caller)).value;
      && now.totalViews == before.totalViews + (if videos[k].owner == caller then 1 else 0)
      && now.totalVideos == before.totalVideos
      && now.totalSubscribers == before.totalSubscribers
      && now.totalLikes == before.totalLikes
  {
    var after := videos[k := videos[k].(views := videos[k].views + 1)];
    assert OwnedSet(after, caller) == OwnedSet(videos, caller);
    var owned := OwnedVideos(videos, caller);
    ViewsOfOneMore(videos, owned, k);
  }

  /** Counting the records of an edge collection that satisfy p, across a
      toggle of edge e that is recorded at most once. */
  lemma CountAfterToggle<E(!new)>(m: map<nat, E>, e: E, newId: nat, p: E -> bool)
    requires newId !in m && AtMostOne(m, e)
    ensures |Where(Toggled(m, e, newId), p)| ==
              |Where(m, p)| + (if !p(e) then 0 else if e in m.Values then -1 else 1)
  {
    if e in m.Values {
      var existing :| existing in m && m[existing] == e;
      CountAfterRemove(m, e, existing, p);
    } else {
      CountAfterAdd(m, e, newId, p);
    }
  }

  lemma CountAfterRemove<E(!new)>(m: map<nat, E>, e: E, existing: nat, p: E -> bool)
    requires existing in m && m[existing] == e && AtMostOne(m, e)
    ensures |Where(Without(m, e), p)| == |Where(m, p)| - (if p(e) then 1 else 0)
  {
    var before := Where(m, p);
    var now := Where(Without(m, e), p);
    if p(e) {
      assert existing in before;
      forall k ensures k in now <==> k in before - {existing} {
        if k in m && m[k] == e { assert k == existing; }
      }
      assert now == before - {existing};
    } else {
      assert now == before;
    }
  }

  lemma CountAfterAdd<E(!new)>(m: map<nat, E>, e: E, newId: nat, p: E -> bool)
    requires newId !in m
    ensures |Where(m[newId := e], p)| == |Where(m, p)| + (if p(e) then 1 else 0)
  {
    var before := Where(m, p);
    var now := Where(m[newId := e], p);
    if p(e) {
      assert newId !in before;
      assert now == before + {newId};
    } else {
      assert now == before;
    }
  }

  /** Toggling a subscription (toggleSubscription) moves the subscribed
      channel's totalSubscribers by one: down when it removes the
      subscription, up when it creates it. */
  lemma SubscriberCountAfterToggle(subs: map<Id, Subscription>, subscriber: Id, channel: Id, newId: Id)
    requires newId !in subs && UniqueSubscriptions(subs)
    ensures var edge := Subscription(subscriber, channel);
      SubscriberCount(Toggled(subs, edge, newId), channel)
        == SubscriberCount(subs, channel) + if edge in subs.Values then -1 else 1
  {
    var edge := Subscription(subscriber, channel);
    CountAfterToggle(subs, edge, newId, OnChannel(channel));
  }

  /** Toggling a like (toggleVideoLike) of a video the caller owns moves
      totalLikes by one; a like of anyone else's video leaves it alone. */
  lemma LikeCountAfterToggle(videos: map<Id, Video>, likes: map<Id, Like>, subs: map<Id, Subscription>,
                             caller: Id, liker: Id, video: Id, newId: Id)
    requires newId !in likes && UniqueVideoLikes(likes)
    ensures var edge := Like(Some(video), liker);
      var before := GetChannelStats(videos, subs, likes, Some(caller)).value;
      var now := GetChannelStats(videos, subs, Toggled(likes, edge, newId), Some(caller)).value;
      now.totalLikes == before.totalLikes
        + (if video !in OwnedSet(videos, caller) then 0 else if edge in likes.Values then -1 else 1)
  {
    var edge := Like(Some(video), liker);
    assert AtMostOne(likes, edge) by {
      forall a, b | a in likes && b in likes && likes[a] == edge && likes[b] == edge ensures a == b {
        assert likes[a] == likes[b] && likes[a].video.Some?;
      }
    }
    CountAfterToggle(likes, edge, newId, OnVideoIn(OwnedSet(videos, caller)));
  }

  // ---------------------------------------------------------------------
  // getChannelVideos

  /** `.sort({ createdAt: -1 })`: the key getAllVideos sorts on by default. */
  const NewestFirst: VideoDoc -> int := VideoController.SortKey("createdAt", false)

  /** The found videos with their owner populated. */
  function PopulateAll(videos: map<Id, Video>, users: map<Id, User>, ks: seq<Id>): seq<VideoDoc>
    requires forall k :: k in ks ==> k in videos
  {
    Map(ks, (k: Id) requires k in videos => Populated(users, k, videos[k]))
  }

  lemma PopulatedFacts(videos: map<Id, Video>, users: map<Id, User>, owner: Id, ks: seq<Id>)
    requires Increasing(ks) && forall k :: k in ks <==> k in videos && videos[k].owner == owner
    ensures var r := PopulateAll(videos, users, ks);
      && IncreasingOn(r, VideoController.DocId)
      && forall d :: d in r <==> d.id in videos && videos[d.id].owner == owner && d == Populated(users, d.id, videos[d.id])
  {
    var r := PopulateAll(videos, users, ks);
    forall i, j | 0 <= i < j < |r| ensures VideoController.DocId(r[i]) < VideoController.DocId(r[j]) {
      assert r[i].id == ks[i] && r[j].id == ks[j];
    }
    forall d | d in r ensures d.id in videos && videos[d.id].owner == owner && d == Populated(users, d.id, videos[d.id]) {
      var i :| 0 <= i < |r| && r[i] == d;
      assert ks[i] in ks;
    }
    forall k | k in videos && videos[k].owner == owner ensures Populated(users, k, videos[k]) in r {
      var i :| 0 <= i < |ks| && ks[i] == k;
      assert r[i] == Populated(users, k, videos[k]);
    }
  }

  /** getChannelVideos: 401 without a signed-in caller; otherwise exactly the
      caller's videos, each once, owner populated, newest first. */
  function GetChannelVideos(videos: map<Id, Video>, users: map<Id, User>, caller: Option<Id>)
    : (r: Result<seq<VideoDoc>>)
    ensures caller.None? <==> r == Failure(Unauthorized)
    ensures r.Success? ==> forall d :: d in r.value <==>
              d.id in videos && videos[d.id].owner == caller.value && d == Populated(users, d.id, videos[d.id])
    ensures r.Success? ==> DistinctOn(r.value, VideoController.DocId)
    ensures r.Success? ==>
              forall i, j :: 0 <= i < j < |r.value| ==> r.value[i].video.createdAt >= r.value[j].video.createdAt
  {
    if caller.None? then Failure(Unauthorized)
    else
      var ks := OwnedVideos(videos, caller.value);
      var found := PopulateAll(videos, users, ks);
      PopulatedFacts(videos, users, caller.value, ks);
      var sorted := SortOn(found, NewestFirst);
      SortKeepsDocuments(found, NewestFirst, VideoController.DocId);
      assert forall i, j :: 0 <= i < j < |sorted| ==> NewestFirst(sorted[i]) <= NewestFirst(sorted[j]);
      Success(sorted)
  }

  /** The two dashboard answers agree: the channel's video list is as long
      as its totalVideos. */
  lemma VideoListMatchesTotal(videos: map<Id, Video>, users: map<Id, User>, subs: map<Id, Subscription>,
                              likes: map<Id, Like>, caller: Id)
    ensures |GetChannelVideos(videos, users, Some(caller)).value|
            == GetChannelStats(videos, subs, likes, Some(caller)).value.totalVideos
  {
    var ks := OwnedVideos(videos, caller);
    var found := PopulateAll(videos, users, ks);
    assert |SortOn(found, NewestFirst)| == |found| by {
      assert |multiset(SortOn(found, NewestFirst))| == |multiset(found)|;
    }
  }
}
