/** rust/src/api/chat_list.rs: chat summaries and the chat-list stream. */
module ChatList {
  import opened Wrappers
  import opened Errors
  import W = Whitenoise
  import Relay
  import Utils
  import Messages

  /** `group_type` keeps the library's `GroupType`; its Flutter mirror in
      rust/src/api/groups.rs is not part of this model. */
  datatype ChatSummary = ChatSummary(
    mlsGroupId: string,
    name: Option<string>,
    groupType: W.GroupType,
    createdAt: W.DateTime,
    groupImagePath: Option<string>,
    groupImageUrl: Option<string>,
    lastMessage: Option<Messages.ChatMessageSummary>,
    pendingConfirmation: bool,
    welcomerPubkey: Option<string>)

  datatype ChatListUpdateTrigger = NewGroup | NewLastMessage | LastMessageDeleted

  datatype ChatListUpdate = ChatListUpdate(trigger: ChatListUpdateTrigger, item: ChatSummary)

  /** The first item of the stream is `InitialSnapshot`, every later one an `Update`. */
  datatype ChatListStreamItem =
    | InitialSnapshot(items: seq<ChatSummary>)
    | Update(update: ChatListUpdate)

  /** `From<WhitenoiseChatListItem> for ChatSummary`. */
  function ConvertChatListItem(item: W.ChatListItem): (r: ChatSummary)
    ensures r.name == item.name && r.createdAt == item.createdAt
    ensures r.pendingConfirmation == item.pendingConfirmation && r.groupImageUrl == item.groupImageUrl
    ensures r.groupType == item.groupType && r.groupImagePath == item.groupImagePath
    ensures r.lastMessage.None? <==> item.lastMessage.None?
    ensures item.lastMessage.Some? ==> r.lastMessage.value == Messages.ConvertChatMessageSummary(item.lastMessage.value)
    ensures r.welcomerPubkey.None? <==> item.welcomerPubkey.None?
    ensures item.welcomerPubkey.Some? ==> r.welcomerPubkey.value == item.welcomerPubkey.value.ToHex()
    ensures |r.mlsGroupId| == 2 * |item.mlsGroupId.bytes|
    ensures Utils.GroupIdFromString(r.mlsGroupId) == Success(item.mlsGroupId)
  {
    Utils.GroupIdRoundTrip(item.mlsGroupId);
    ChatSummary(
      Utils.GroupIdToString(item.mlsGroupId),
      item.name,
      item.groupType,
      item.createdAt,
      item.groupImagePath,
      item.groupImageUrl,
      match item.lastMessage case Some(m) => Some(Messages.ConvertChatMessageSummary(m)) case None => None,
      item.pendingConfirmation,
      match item.welcomerPubkey case Some(pk) => Some(pk.ToHex()) case None => None)
  }

  /** `From<WhitenoiseChatListUpdateTrigger>`: `TriggerBack` reads the
      original back. */
  function ConvertTrigger(trigger: W.ChatListUpdateTrigger): (r: ChatListUpdateTrigger)
    ensures TriggerBack(r) == trigger
  {
    match trigger
    case NewGroup => NewGroup
    case NewLastMessage => NewLastMessage
    case LastMessageDeleted => LastMessageDeleted
  }

  function TriggerBack(trigger: ChatListUpdateTrigger): W.ChatListUpdateTrigger {
    match trigger
    case NewGroup => W.NewGroup
    case NewLastMessage => W.NewLastMessage
    case LastMessageDeleted => W.LastMessageDeleted
  }

  /** Same-named variants, and a bijection: `TriggerBack` inverts it both ways. */
  lemma TriggerBijection(t: W.ChatListUpdateTrigger, u: ChatListUpdateTrigger)
    ensures TriggerBack(ConvertTrigger(t)) == t
    ensures ConvertTrigger(TriggerBack(u)) == u
    ensures ConvertTrigger(W.NewGroup) == NewGroup
    ensures ConvertTrigger(W.NewLastMessage) == NewLastMessage
    ensures ConvertTrigger(W.LastMessageDeleted) == LastMessageDeleted
  {
  }

  function ConvertUpdate(update: W.ChatListUpdate): (r: ChatListUpdate)
    ensures r.trigger == ConvertTrigger(update.trigger) && r.item == ConvertChatListItem(update.item)
  {
    ChatListUpdate(ConvertTrigger(update.trigger), ConvertChatListItem(update.item))
  }

  function Snapshot(initialItems: seq<W.ChatListItem>): (item: ChatListStreamItem)
    ensures item.InitialSnapshot? && |item.items| == |initialItems|
    ensures forall i :: 0 <= i < |initialItems| ==> item.items[i] == ConvertChatListItem(initialItems[i])
  {
    Relay.MapSeqAt(ConvertChatListItem, initialItems);
    InitialSnapshot(Relay.MapSeq(ConvertChatListItem, initialItems))
  }

  /** An update as a stream item: never a snapshot, and carrying the
      update's converted trigger and chat summary. */
  function UpdateItem(update: W.ChatListUpdate): (streamItem: ChatListStreamItem)
    ensures streamItem.Update? && TriggerBack(streamItem.update.trigger) == update.trigger
    ensures streamItem.update.item == ConvertChatListItem(update.item)
  {
    Update(ConvertUpdate(update))
  }

  /** The steps before the stream starts: instance, pubkey, account, subscription. */
  function Prepare(instance: Option<W.Whitenoise>, accountPubkey: string): (r: Result<W.ChatListSubscription, ApiError>)
    ensures instance.None? ==> r == Failure(NotInitialized)
    ensures instance.Some? && instance.value.parsePublicKey(accountPubkey).None? ==>
              r == Failure(InvalidPublicKey(accountPubkey))
    ensures instance.Some? && instance.value.parsePublicKey(accountPubkey).Some? ==>
              var whitenoise := instance.value;
              match whitenoise.findAccountByPubkey(whitenoise.parsePublicKey(accountPubkey).value)
              case Failure(e) => r == Failure(Whitenoise(e))
              case Success(account) =>
                match whitenoise.subscribeToChatList(account)
                case Success(sub) => r == Success(sub)
                case Failure(e) => r == Failure(Whitenoise(e))
    ensures r.Success? <==>
              instance.Some? && instance.value.parsePublicKey(accountPubkey).Some?
              && instance.value.findAccountByPubkey(instance.value.parsePublicKey(accountPubkey).value).Success?
              && instance.value.subscribeToChatList(
                   instance.value.findAccountByPubkey(instance.value.parsePublicKey(accountPubkey).value).value).Success?
  {
    if instance.None? then Failure(NotInitialized)
    else
      var whitenoise := instance.value;
      match whitenoise.parsePublicKey(accountPubkey)
      case None => Failure(InvalidPublicKey(accountPubkey))
      case Some(pubkey) =>
        match whitenoise.findAccountByPubkey(pubkey)
        case Failure(e) => Failure(Whitenoise(e))
        case Success(account) =>
          match whitenoise.subscribeToChatList(account)
          case Failure(e) => Failure(Whitenoise(e))
          case Success(sub) => Success(sub)
  }

  /** `subscribe_to_chat_list`. Any failure of `Prepare` returns before the
      sink is touched; otherwise the snapshot and the updates are sent as
      `Relay.Relay` does and the result is `Ok(())`. */
  method SubscribeToChatList(instance: Option<W.Whitenoise>, accountPubkey: string, sink: Relay.Sink<ChatListStreamItem>)
      returns (r: Result<(), ApiError>, read: nat)
    requires sink.Valid()
    modifies sink
    ensures sink.Valid() && sink.capacity == old(sink.capacity)
    ensures r.Success? <==> Prepare(instance, accountPubkey).Success?
    ensures r.Failure? ==>
              r.error == Prepare(instance, accountPubkey).error
              && sink.accepted == old(sink.accepted) && read == 0
    ensures r.Success? ==>
              var sub := Prepare(instance, accountPubkey).value;
              sink.accepted == old(sink.accepted)
                + Relay.Delivered(Some(Snapshot(sub.initialItems)), sub.updates, UpdateItem, old(sink.Room()))
              && (old(sink.Room()) == 0 ==> read == 0)
              && read <= |sub.updates|
  {
    var prepared := Prepare(instance, accountPubkey);
    if prepared.Failure? {
      return Failure(prepared.error), 0;
    }
    var sub := prepared.value;
    read := Relay.Relay(Some(Snapshot(sub.initialItems)), sub.updates, UpdateItem, sink);
    r := Success(());
  }

  /** The chat-list stream starts with the snapshot of every initial item,
      converted and in order, whenever the sink takes anything; every later
      item is an update. */
  lemma SnapshotComesFirst(sub: W.ChatListSubscription, room: nat)
    requires room > 0
    ensures var delivered := Relay.Delivered(Some(Snapshot(sub.initialItems)), sub.updates, UpdateItem, room);
            delivered != [] && delivered[0].InitialSnapshot?
            && delivered[0].items == Relay.MapSeq(ConvertChatListItem, sub.initialItems)
            && forall i :: 1 <= i < |delivered| ==> delivered[i].Update?
  {
    var f := Relay.Forwardable(sub.updates);
    Relay.MapSeqAt(UpdateItem, f);
    assert Relay.Offered(Some(Snapshot(sub.initialItems)), sub.updates, UpdateItem)
        == [Snapshot(sub.initialItems)] + Relay.MapSeq(UpdateItem, f);
  }
}
