/** rust/src/api/notifications.rs: the notification stream, which has no
    snapshot. */
module Notifications {
  import opened Wrappers
  import opened Errors
  import W = Whitenoise
  import Relay
  import Utils

  datatype NotificationTrigger = NewMessage | GroupInvite

  datatype NotificationUser = NotificationUser(pubkey: string, displayName: Option<string>, pictureUrl: Option<string>)

  datatype NotificationUpdate = NotificationUpdate(
    trigger: NotificationTrigger,
    mlsGroupId: string,
    groupName: Option<string>,
    isDm: bool,
    receiver: NotificationUser,
    sender: NotificationUser,
    content: string,
    timestamp: W.DateTime)

  /** `From<WhitenoiseNotificationTrigger>`: `TriggerBack` reads the
      original back. */
  function ConvertTrigger(trigger: W.NotificationTrigger): (r: NotificationTrigger)
    ensures TriggerBack(r) == trigger
  {
    match trigger
    case NewMessage => NewMessage
    case GroupInvite => GroupInvite
  }

  function TriggerBack(trigger: NotificationTrigger): W.NotificationTrigger {
    match trigger
    case NewMessage => W.NotificationTrigger.NewMessage
    case GroupInvite => W.GroupInvite
  }

  /** Same-named variants, and a bijection: `TriggerBack` inverts it both ways. */
  lemma TriggerBijection(t: W.NotificationTrigger, u: NotificationTrigger)
    ensures TriggerBack(ConvertTrigger(t)) == t
    ensures ConvertTrigger(TriggerBack(u)) == u
    ensures ConvertTrigger(W.NotificationTrigger.NewMessage) == NewMessage
    ensures ConvertTrigger(W.GroupInvite) == GroupInvite
  {
  }

  function ConvertUser(user: W.NotificationUser): (r: NotificationUser)
    ensures r.pubkey == user.pubkey.ToHex()
    ensures r.displayName == user.displayName && r.pictureUrl == user.pictureUrl
  {
    NotificationUser(user.pubkey.ToHex(), user.displayName, user.pictureUrl)
  }

  /** `From<WhitenoiseNotificationUpdate> for NotificationUpdate`. */
  function ConvertUpdate(update: W.NotificationUpdate): (r: NotificationUpdate)
    ensures r.groupName == update.groupName && r.isDm == update.isDm
    ensures r.content == update.content && r.timestamp == update.timestamp
    ensures TriggerBack(r.trigger) == update.trigger
    ensures Utils.GroupIdFromString(r.mlsGroupId) == Success(update.mlsGroupId)
    ensures r.receiver == ConvertUser(update.receiver) && r.sender == ConvertUser(update.sender)
  {
    Utils.GroupIdRoundTrip(update.mlsGroupId);
    TriggerBijection(update.trigger, NewMessage);
    NotificationUpdate(
      ConvertTrigger(update.trigger),
      Utils.GroupIdToString(update.mlsGroupId),
      update.groupName,
      update.isDm,
      ConvertUser(update.receiver),
      ConvertUser(update.sender),
      update.content,
      update.timestamp)
  }

  /** `subscribe_to_notifications`. The only failure is an uninitialised
      library, which leaves the sink untouched; taking the subscription
      cannot fail. Every update is relayed with no snapshot in front. */
  method SubscribeToNotifications(instance: Option<W.Whitenoise>, sink: Relay.Sink<NotificationUpdate>)
      returns (r: Result<(), ApiError>, read: nat)
    requires sink.Valid()
    modifies sink
    ensures sink.Valid() && sink.capacity == old(sink.capacity)
    ensures r.Failure? <==> instance.None?
    ensures instance.None? ==> r == Failure(NotInitialized) && sink.accepted == old(sink.accepted) && read == 0
    ensures instance.Some? ==>
              var rx := instance.value.notificationUpdates;
              sink.accepted == old(sink.accepted) + Relay.Delivered(None, rx, ConvertUpdate, old(sink.Room()))
              && read <= |rx|
  {
    if instance.None? {
      return Failure(NotInitialized), 0;
    }
    read := Relay.Relay(None, instance.value.notificationUpdates, ConvertUpdate, sink);
    r := Success(());
  }

  /** With no snapshot, the first notification delivered is the first update
      received, converted, and the stream is exactly the received updates in
      order, as far as the sink has room. */
  lemma FirstIsFirstUpdate(rx: seq<Relay.Recv<W.NotificationUpdate>>, room: nat)
    requires room > 0 && Relay.Forwardable(rx) != []
    ensures Relay.Delivered(None, rx, ConvertUpdate, room)[0] == ConvertUpdate(Relay.Forwardable(rx)[0])
    ensures Relay.Delivered(None, rx, ConvertUpdate, room) <= Relay.MapSeq(ConvertUpdate, Relay.Forwardable(rx))
  {
    Relay.FirstDelivered(None, rx, ConvertUpdate, room);
    Relay.DeliveredIsPrefix(None, rx, ConvertUpdate, room, room);
    assert Relay.Offered(None, rx, ConvertUpdate) == Relay.MapSeq(ConvertUpdate, Relay.Forwardable(rx));
  }
}
