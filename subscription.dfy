/** src/controllers/subscription.controller.js: subscribing to a channel
    (a toggle) and the two subscription lists. */
module SubscriptionController {
  import opened Store
  import opened Order
  import opened Edges
  import opened Streams

  /** The store's uniqueness invariant is "every subscription edge at most once". */
  lemma UniqueIsAtMostOne(m: map<Id, Subscription>)
    ensures UniqueSubscriptions(m) <==> forall x :: AtMostOne(m, x)
  {
    if forall x :: AtMostOne(m, x) {
      forall a, b | a in m && b in m && m[a] == m[b] ensures a == b {
        assert AtMostOne(m, m[a]);
      }
    }
  }

  /** toggleSubscription: remove the caller's subscription to the channel if
      there is one, otherwise create it. Neither the channel's existence nor
      channel != caller is checked. */
  method ToggleSubscription(db: Db, channelId: IdParam, caller: Id)
    returns (status: Status, message: string, data: Option<Subscription>)
    requires db.Valid()
    modifies db`subscriptions, db`nextId
    ensures db.Valid()
    ensures channelId.NotObjectId? ==>
              && status == BadRequest && message == "Invalid channel id" && data == None
              && db.subscriptions == old(db.subscriptions) && db.nextId == old(db.nextId)
    ensures channelId.ObjectId? ==>
      var edge := Subscription(caller, channelId.id);
      && status == Ok
      && old(db.nextId) !in old(db.subscriptions)
      && db.subscriptions == Toggled(old(db.subscriptions), edge, old(db.nextId))
      && (edge in old(db.subscriptions).Values ==>
            message == "Subscription removed successfully" && data == None && db.nextId == old(db.nextId))
      && (edge !in old(db.subscriptions).Values ==>
            message == "Subscription added successfully" && data == Some(edge))
  {
    if channelId.NotObjectId? {
      return BadRequest, "Invalid channel id", None;
    }
    var edge := Subscription(caller, channelId.id);
    ghost var before := db.subscriptions;
    ghost var newId := db.nextId;
    UniqueIsAtMostOne(before);
    if edge in db.subscriptions.Values {
      var existing :| existing in db.subscriptions && db.subscriptions[existing] == edge;
      RemoveOnlyRecord(db.subscriptions, edge, existing);
      db.subscriptions := db.subscriptions - {existing};
      status, message, data := Ok, "Subscription removed successfully", None;
    } else {
      var id := db.Mint();
      db.subscriptions := db.subscriptions[id := edge];
      status, message, data := Ok, "Subscription added successfully", Some(edge);
    }
    forall x ensures AtMostOne(db.subscriptions, x) {
      ToggledKeepsAtMostOne(before, edge, newId, x);
    }
    UniqueIsAtMostOne(db.subscriptions);
  }

  /** Two toggles of the same channel by the same caller give back the
      subscriptions the store held (and the very same records when the caller
      was not subscribed); nothing else ever changes. */
  method ToggleSubscriptionTwice(db: Db, channel: Id, caller: Id)
    requires db.Valid()
    modifies db`subscriptions, db`nextId
    ensures db.Valid()
    ensures db.subscriptions.Values == old(db.subscriptions).Values
    ensures Subscription(caller, channel) !in old(db.subscriptions).Values ==> db.subscriptions == old(db.subscriptions)
  {
    var s1, m1, d1 := ToggleSubscription(db, ObjectId(channel), caller);
    ghost var middle := db.subscriptions;
    var s2, m2, d2 := ToggleSubscription(db, ObjectId(channel), caller);
    var edge := Subscription(caller, channel);
    if edge in old(db.subscriptions).Values {
      // the removal ignores the id it was offered
      assert Toggled(old(db.subscriptions), edge, old(db.nextId) + 1) == middle;
      ToggleTwice(old(db.subscriptions), edge, old(db.nextId) + 1, old(db.nextId));
    } else {
      ToggleTwice(old(db.subscriptions), edge, old(db.nextId), old(db.nextId) + 1);
    }
  }

  // ---------------------------------------------------------------------
  // The two lists

  /** An entry of the subscriber list: `{ subscriber }` with the profile
      `$first` left, absent when no user matches. */
  datatype SubscriberEntry = SubscriberEntry(subscriber: Option<Profile>)

  /** An entry of the channel list: `{ channels }`, likewise. */
  datatype ChannelEntry = ChannelEntry(channels: Option<Profile>)

  /** `Subscription.find({ channel }).map(sub => sub.subscriber)` as a set:
      the users subscribed to the channel. */
  function SubscribersOf(subs: map<Id, Subscription>, channel: Id): (r: set<Id>)
    ensures forall u :: u in r <==> exists k :: k in subs && subs[k] == Subscription(u, channel)
  {
    set k | k in subs && subs[k].channel == channel :: subs[k].subscriber
  }

  /** The subscriptions `$match: { subscriber: { $in: subscriberIds } }` selects,
      in natural order: every subscription made by any subscriber of the channel. */
  function MatchedBySubscriber(subs: map<Id, Subscription>, channel: Id): (r: seq<Id>)
    ensures Increasing(r)
    ensures forall k :: k in r <==> k in subs && subs[k].subscriber in SubscribersOf(subs, channel)
    ensures |r| == |Where(subs, SubscriberIn(SubscribersOf(subs, channel)))|
  {
    FindIds(subs, SubscriberIn(SubscribersOf(subs, channel)))
  }

  /** The filter `{ subscriber: { $in: subscriberIds } }`. */
  function SubscriberIn(subscribers: set<Id>): Subscription -> bool {
    (s: Subscription) => s.subscriber in subscribers
  }

  /** getUserChannelSubscribers as written: the `$match` is on `subscriber`,
      so the list holds one entry per subscription of every subscriber of the
      channel, whichever channel that subscription is to. */
  function GetUserChannelSubscribers(subs: map<Id, Subscription>, users: map<Id, User>, channelId: IdParam)
    : (r: Result<seq<SubscriberEntry>>)
    ensures channelId.NotObjectId? <==> r == Failure(BadRequest)
    ensures r.Success? ==>
      var ks := MatchedBySubscriber(subs, channelId.id);
      |r.value| == |ks| && forall i :: 0 <= i < |ks| ==> r.value[i] == SubscriberEntry(ProfileOf(users, subs[ks[i]].subscriber))
  {
    if channelId.NotObjectId? then Failure(BadRequest)
    else
      var ks := MatchedBySubscriber(subs, channelId.id);
      Success(Map(ks, (k: Id) requires k in subs => SubscriberEntry(ProfileOf(users, subs[k].subscriber))))
  }

  /** A channel with a single subscriber who also follows another channel is
      listed with two entries. */
  lemma SubscriberListCountsOtherChannels()
    ensures var subs := map[0 := Subscription(7, 1), 1 := Subscription(7, 2)];
      && SubscribersOf(subs, 1) == {7}
      && GetUserChannelSubscribers(subs, map[], ObjectId(1)).Success?
      && |GetUserChannelSubscribers(subs, map[], ObjectId(1)).value| == 2
  {
    var subs := map[0 := Subscription(7, 1), 1 := Subscription(7, 2)];
    assert subs[0] == Subscription(7, 1);
    assert SubscribersOf(subs, 1) == {7};
    assert Where(subs, SubscriberIn(SubscribersOf(subs, 1))) == {0, 1};
  }

  /** Every subscription to the channel has its entry: the list covers the
      channel's subscribers, and more. */
  lemma SubscriberListCoversChannel(subs: map<Id, Subscription>, channel: Id, k: Id)
    requires k in subs && subs[k].channel == channel
    ensures k in MatchedBySubscriber(subs, channel)
  {
    assert subs[k] == Subscription(subs[k].subscriber, channel);
  }

  /** The subscriber's subscriptions, in natural order. */
  function SubscriptionsBy(subs: map<Id, Subscription>, subscriber: Id): (r: seq<Id>)
    ensures Increasing(r)
    ensures forall k :: k in r <==> k in subs && subs[k].subscriber == subscriber
  {
    FindIds(subs, (s: Subscription) => s.subscriber == subscriber)
  }

  /** A channel whose user exists appears in a subscriber's channel list
      exactly when one of the subscriber's subscriptions is to it. */
  lemma ListedIffSubscribed(subs: map<Id, Subscription>, users: map<Id, User>, subscriber: Id, channel: Id)
    requires channel in users
    ensures (ChannelEntry(ProfileOf(users, channel)) in GetSubscribedChannels(subs, users, ObjectId(subscriber)).value)
            <==> exists k :: k in SubscriptionsBy(subs, subscriber) && subs[k].channel == channel
  {
    var ks := SubscriptionsBy(subs, subscriber);
    var list := GetSubscribedChannels(subs, users, ObjectId(subscriber)).value;
    var e := ChannelEntry(ProfileOf(users, channel));
    if e in list {
      var i :| 0 <= i < |list| && list[i] == e;
      assert ProfileOf(users, subs[ks[i]].channel) == ProfileOf(users, channel);
      assert ks[i] in ks && subs[ks[i]].channel == channel;
    }
    if k :| k in ks && subs[k].channel == channel {
      var i :| 0 <= i < |ks| && ks[i] == k;
      assert list[i] == e;
    }
  }

  /** getSubscribedChannels: one entry per subscription the user made, holding
      the channel's profile. */
  function GetSubscribedChannels(subs: map<Id, Subscription>, users: map<Id, User>, subscriberId: IdParam)
    : (r: Result<seq<ChannelEntry>>)
    ensures subscriberId.NotObjectId? <==> r == Failure(BadRequest)
    ensures r.Success? ==>
      var ks := SubscriptionsBy(subs, subscriberId.id);
      |r.value| == |ks| && forall i :: 0 <= i < |ks| ==> r.value[i] == ChannelEntry(ProfileOf(users, subs[ks[i]].channel))
  {
    if subscriberId.NotObjectId? then Failure(BadRequest)
    else
      var ks := SubscriptionsBy(subs, subscriberId.id);
      Success(Map(ks, (k: Id) requires k in subs => ChannelEntry(ProfileOf(users, subs[k].channel))))
  }

  /** Toggling a subscription on adds the channel to the caller's
      subscriptions, and toggling it off removes it; so a channel whose user
      exists has an entry in the caller's `getSubscribedChannels` list
      exactly when the caller was not subscribed before. */
  lemma SubscribedAfterToggle(subs: map<Id, Subscription>, users: map<Id, User>, caller: Id, channel: Id, newId: Id)
    requires newId !in subs
    ensures var after := Toggled(subs, Subscription(caller, channel), newId);
      (exists k :: k in SubscriptionsBy(after, caller) && after[k].channel == channel)
      <==> Subscription(caller, channel) !in subs.Values
    ensures channel in users ==>
      var after := Toggled(subs, Subscription(caller, channel), newId);
      (ChannelEntry(ProfileOf(users, channel)) in GetSubscribedChannels(after, users, ObjectId(caller)).value)
      <==> Subscription(caller, channel) !in subs.Values
  {
    if channel in users {
      ListedIffSubscribed(Toggled(subs, Subscription(caller, channel), newId), users, caller, channel);
    }
    var edge := Subscription(caller, channel);
    var after := Toggled(subs, edge, newId);
    if edge !in subs.Values {
      assert edge in after.Values;
      var k :| k in after && after[k] == edge;
      assert k in SubscriptionsBy(after, caller);
    } else {
      forall k | k in SubscriptionsBy(after, caller) ensures after[k].channel != channel {
        assert after[k] in after.Values;
      }
    }
  }
}
