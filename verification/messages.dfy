/** rust/src/api/messages.rs: the Flutter-side message types, their
    conversions from the library's types, and the group-message stream. */
module Messages {
  import opened Wrappers
  import opened Errors
  import W = Whitenoise
  import Relay
  import Utils

  datatype SerializableToken = SerializableToken(tokenType: string, content: Option<string>)

  datatype UpdateTrigger = NewMessage | ReactionAdded | ReactionRemoved | MessageDeleted

  datatype EmojiReaction = EmojiReaction(emoji: string, count: W.U64, users: seq<string>)

  datatype UserReaction = UserReaction(reactionId: string, user: string, emoji: string, createdAt: W.DateTime)

  datatype ReactionSummary = ReactionSummary(byEmoji: seq<EmojiReaction>, userReactions: seq<UserReaction>)

  datatype ChatMessage = ChatMessage(
    id: string,
    pubkey: string,
    content: string,
    createdAt: W.DateTime,
    tags: seq<seq<string>>,
    isReply: bool,
    replyToId: Option<string>,
    isDeleted: bool,
    contentTokens: seq<SerializableToken>,
    reactions: ReactionSummary,
    kind: W.U16)

  datatype MessageUpdate = MessageUpdate(trigger: UpdateTrigger, message: ChatMessage)

  /** The first item of the stream is `InitialSnapshot`, every later one an `Update`. */
  datatype MessageStreamItem =
    | InitialSnapshot(messages: seq<ChatMessage>)
    | Update(update: MessageUpdate)

  datatype MessageWithTokens = MessageWithTokens(
    id: string,
    pubkey: string,
    kind: W.U16,
    createdAt: W.DateTime,
    content: Option<string>,
    tokens: seq<SerializableToken>)

  datatype ChatMessageSummary = ChatMessageSummary(
    mlsGroupId: string,
    author: string,
    authorDisplayName: Option<string>,
    content: string,
    createdAt: W.DateTime,
    mediaAttachmentCount: W.U64)

  // --- timestamps ---------------------------------------------------------

  const I64Max: int := 0x7FFF_FFFF_FFFF_FFFF

  /** Latest second `Utc.timestamp_opt` accepts, taken as the last second of
      year 262143 (+262143-12-31T23:59:59), the end of chrono's `NaiveDate`
      range in the releases whose maximum year is 262143. */
  const MaxUtcSeconds: int := 8_210_298_412_799

  /** `i64::try_from(u64)`: the value when it fits, never negative. */
  function ToI64(x: W.U64): Option<nat> {
    if x <= I64Max then Some(x) else None
  }

  /** `Utc.timestamp_opt(secs, 0).single()` for the non-negative seconds that
      reach it here; chrono's lower bound lies below zero and is never met. */
  function TimestampOpt(secs: nat): Option<W.DateTime> {
    if secs <= MaxUtcSeconds then Some(W.DateTime(secs)) else None
  }

  /** The conversion the `From` impls apply to every Nostr timestamp: a value
      that does not fit `i64` becomes 0, and one chrono rejects becomes the
      epoch. */
  function ToDateTime(ts: W.Timestamp): (d: W.DateTime)
    ensures ts.seconds <= MaxUtcSeconds ==> d.seconds == ts.seconds
    ensures ts.seconds > MaxUtcSeconds ==> d == W.DateTime(0)
  {
    var secs := match ToI64(ts.seconds) case Some(v) => v case None => 0;
    match TimestampOpt(secs)
    case Some(d) => d
    case None => TimestampOpt(0).value
  }

  /** The fallback is the only loss: two timestamps in chrono's range keep
      their order and distinctness, and every later one is the epoch. */
  lemma ToDateTimeMonotone(a: W.Timestamp, b: W.Timestamp)
    requires a.seconds <= b.seconds <= MaxUtcSeconds
    ensures ToDateTime(a).seconds <= ToDateTime(b).seconds
    ensures a != b ==> ToDateTime(a) != ToDateTime(b)
  {
  }

  // --- tokens -------------------------------------------------------------

  function ConvertToken(token: W.SerializableToken): (r: SerializableToken)
    ensures r.content.None? <==> token.LineBreak? || token.Whitespace?
    ensures r.content.Some? ==> r.content.value == token.s
    ensures r.tokenType in {"Nostr", "Url", "Hashtag", "Text", "LineBreak", "Whitespace"}
  {
    match token
    case Nostr(s) => SerializableToken("Nostr", Some(s))
    case Url(s) => SerializableToken("Url", Some(s))
    case Hashtag(s) => SerializableToken("Hashtag", Some(s))
    case Text(s) => SerializableToken("Text", Some(s))
    case LineBreak => SerializableToken("LineBreak", None)
    case Whitespace => SerializableToken("Whitespace", None)
  }

  /** Reads a Flutter token back: its type name picks the variant. */
  function ParseToken(token: SerializableToken): Option<W.SerializableToken> {
    match (token.tokenType, token.content)
    case ("Nostr", Some(s)) => Some(W.Nostr(s))
    case ("Url", Some(s)) => Some(W.Url(s))
    case ("Hashtag", Some(s)) => Some(W.Hashtag(s))
    case ("Text", Some(s)) => Some(W.Text(s))
    case ("LineBreak", None) => Some(W.LineBreak)
    case ("Whitespace", None) => Some(W.Whitespace)
    case _ => None
  }

  /** The conversion loses nothing: each variant has its own type name, so
      the library token can be read back from the Flutter one. */
  lemma TokenRoundTrip(token: W.SerializableToken)
    ensures ParseToken(ConvertToken(token)) == Some(token)
  {
  }

  // --- triggers -----------------------------------------------------------

  /** `From<WhitenoiseUpdateTrigger>`: `TriggerBack` reads the original back. */
  function ConvertTrigger(trigger: W.UpdateTrigger): (r: UpdateTrigger)
    ensures TriggerBack(r) == trigger
  {
    match trigger
    case NewMessage => NewMessage
    case ReactionAdded => ReactionAdded
    case ReactionRemoved => ReactionRemoved
    case MessageDeleted => MessageDeleted
  }

  function TriggerBack(trigger: UpdateTrigger): W.UpdateTrigger {
    match trigger
    case NewMessage => W.UpdateTrigger.NewMessage
    case ReactionAdded => W.UpdateTrigger.ReactionAdded
    case ReactionRemoved => W.UpdateTrigger.ReactionRemoved
    case MessageDeleted => W.UpdateTrigger.MessageDeleted
  }

  /** Same-named variants, and a bijection: `TriggerBack` inverts it both ways. */
  lemma TriggerBijection(t: W.UpdateTrigger, u: UpdateTrigger)
    ensures TriggerBack(ConvertTrigger(t)) == t
    ensures ConvertTrigger(TriggerBack(u)) == u
    ensures ConvertTrigger(W.UpdateTrigger.NewMessage) == NewMessage
    ensures ConvertTrigger(W.UpdateTrigger.ReactionAdded) == ReactionAdded
    ensures ConvertTrigger(W.UpdateTrigger.ReactionRemoved) == ReactionRemoved
    ensures ConvertTrigger(W.UpdateTrigger.MessageDeleted) == MessageDeleted
  {
  }

  // --- messages -----------------------------------------------------------

  function ConvertTokens(tokens: seq<W.SerializableToken>): (r: seq<SerializableToken>)
    ensures |r| == |tokens|
    ensures forall i :: 0 <= i < |tokens| ==> r[i] == ConvertToken(tokens[i])
  {
    Relay.MapSeqAt(ConvertToken, tokens);
    Relay.MapSeq(ConvertToken, tokens)
  }

  /** One `by_emoji` entry: the emoji key, the count, and each reacting key in hex. */
  function ConvertEmojiReaction(entry: (string, W.EmojiReaction)): (r: EmojiReaction)
    ensures r.emoji == entry.0 && r.count == entry.1.count
    ensures |r.users| == |entry.1.users|
    ensures forall i :: 0 <= i < |entry.1.users| ==> r.users[i] == entry.1.users[i].ToHex()
  {
    Relay.MapSeqAt((pk: W.PublicKey) => pk.ToHex(), entry.1.users);
    EmojiReaction(entry.0, entry.1.count, Relay.MapSeq((pk: W.PublicKey) => pk.ToHex(), entry.1.users))
  }

  function ConvertUserReaction(reaction: W.UserReaction): (r: UserReaction)
    ensures r.reactionId == reaction.reactionId.ToHex() && r.user == reaction.user.ToHex()
    ensures r.emoji == reaction.emoji && r.createdAt == ToDateTime(reaction.createdAt)
  {
    UserReaction(reaction.reactionId.ToHex(), reaction.user.ToHex(), reaction.emoji, ToDateTime(reaction.createdAt))
  }

  /** `From<&WhitenoiseReactionSummary>`: both lists converted element by
      element, in order. */
  function ConvertReactions(reactions: W.ReactionSummary): (r: ReactionSummary)
    ensures |r.byEmoji| == |reactions.byEmoji| && |r.userReactions| == |reactions.userReactions|
    ensures forall i :: 0 <= i < |reactions.byEmoji| ==> r.byEmoji[i] == ConvertEmojiReaction(reactions.byEmoji[i])
    ensures forall i :: 0 <= i < |reactions.userReactions| ==>
              r.userReactions[i] == ConvertUserReaction(reactions.userReactions[i])
  {
    Relay.MapSeqAt(ConvertEmojiReaction, reactions.byEmoji);
    Relay.MapSeqAt(ConvertUserReaction, reactions.userReactions);
    ReactionSummary(
      Relay.MapSeq(ConvertEmojiReaction, reactions.byEmoji),
      Relay.MapSeq(ConvertUserReaction, reactions.userReactions))
  }

  /** `From<&WhitenoiseChatMessage> for ChatMessage`. */
  function ConvertChatMessage(message: W.ChatMessage): (r: ChatMessage)
    ensures r.id == message.id && r.content == message.content && r.kind == message.kind
    ensures r.isReply == message.isReply && r.replyToId == message.replyToId
    ensures r.isDeleted == message.isDeleted && r.tags == message.tags
    ensures r.pubkey == message.author.ToHex()
    ensures r.createdAt == ToDateTime(message.createdAt)
    ensures r.contentTokens == ConvertTokens(message.contentTokens)
    ensures r.reactions == ConvertReactions(message.reactions)
  {
    ChatMessage(
      message.id,
      message.author.ToHex(),
      message.content,
      ToDateTime(message.createdAt),
      message.tags,
      message.isReply,
      message.replyToId,
      message.isDeleted,
      ConvertTokens(message.contentTokens),
      ConvertReactions(message.reactions),
      message.kind)
  }

  function ConvertMessageUpdate(update: W.MessageUpdate): (r: MessageUpdate)
    ensures r.trigger == ConvertTrigger(update.trigger)
    ensures r.message == ConvertChatMessage(update.message)
  {
    MessageUpdate(ConvertTrigger(update.trigger), ConvertChatMessage(update.message))
  }

  /** `From<&WhitenoiseMessageWithTokens> for MessageWithTokens`. */
  function ConvertMessageWithTokens(m: W.MessageWithTokens): (r: MessageWithTokens)
    ensures r.content == Some(m.message.content)
    ensures r.kind == m.message.kind && r.createdAt == ToDateTime(m.message.createdAt)
    ensures r.id == m.message.id.ToHex() && r.pubkey == m.message.pubkey.ToHex()
    ensures r.tokens == ConvertTokens(m.tokens)
  {
    MessageWithTokens(
      m.message.id.ToHex(),
      m.message.pubkey.ToHex(),
      m.message.kind,
      ToDateTime(m.message.createdAt),
      Some(m.message.content),
      ConvertTokens(m.tokens))
  }

  /** `From<WhitenoiseChatMessageSummary>`: the group id in its string form,
      the author in hex, the rest unchanged. */
  function ConvertChatMessageSummary(s: W.ChatMessageSummary): (r: ChatMessageSummary)
    ensures Utils.GroupIdFromString(r.mlsGroupId) == Success(s.mlsGroupId)
    ensures r.author == s.author.ToHex()
    ensures r.authorDisplayName == s.authorDisplayName && r.content == s.content
    ensures r.createdAt == s.createdAt && r.mediaAttachmentCount == s.mediaAttachmentCount
  {
    Utils.GroupIdRoundTrip(s.mlsGroupId);
    ChatMessageSummary(
      Utils.GroupIdToString(s.mlsGroupId),
      s.author.ToHex(),
      s.authorDisplayName,
      s.content,
      s.createdAt,
      s.mediaAttachmentCount)
  }

  // --- the stream ---------------------------------------------------------

  function Snapshot(initialMessages: seq<W.ChatMessage>): (item: MessageStreamItem)
    ensures item.InitialSnapshot? && |item.messages| == |initialMessages|
    ensures forall i :: 0 <= i < |initialMessages| ==> item.messages[i] == ConvertChatMessage(initialMessages[i])
  {
    Relay.MapSeqAt(ConvertChatMessage, initialMessages);
    InitialSnapshot(Relay.MapSeq(ConvertChatMessage, initialMessages))
  }

  /** An update as a stream item: never a snapshot, and carrying the
      update's converted trigger and message. */
  function UpdateItem(update: W.MessageUpdate): (item: MessageStreamItem)
    ensures item.Update? && TriggerBack(item.update.trigger) == update.trigger
    ensures item.update.message == ConvertChatMessage(update.message)
  {
    Update(ConvertMessageUpdate(update))
  }

  /** `subscribe_to_group_messages`. Fails, with nothing sent, when the
      library is not initialised, when `groupId` is not base16, or when the
      library refuses the subscription; otherwise sends the snapshot and the
      updates to `sink` as `Relay.Relay` does and returns `Ok(())`. `read` is
      the number of receive outcomes consumed. */
  method SubscribeToGroupMessages(instance: Option<W.Whitenoise>, groupId: string, sink: Relay.Sink<MessageStreamItem>)
      returns (r: Result<(), ApiError>, read: nat)
    requires sink.Valid()
    modifies sink
    ensures sink.Valid() && sink.capacity == old(sink.capacity)
    ensures instance.None? ==> r == Failure(NotInitialized)
    ensures instance.Some? && Utils.GroupIdFromString(groupId).Failure? ==>
              r == Failure(Utils.GroupIdFromString(groupId).error)
    ensures instance.Some? && Utils.GroupIdFromString(groupId).Success? ==>
              match instance.value.subscribeToGroupMessages(Utils.GroupIdFromString(groupId).value)
              case Failure(e) => r == Failure(Whitenoise(e))
              case Success(_) => r == Success(())
    ensures r.Failure? ==> sink.accepted == old(sink.accepted) && read == 0
    ensures r.Success? <==>
              instance.Some? && Utils.GroupIdFromString(groupId).Success?
              && instance.value.subscribeToGroupMessages(Utils.GroupIdFromString(groupId).value).Success?
    ensures r.Success? ==>
              var sub := instance.value.subscribeToGroupMessages(Utils.GroupIdFromString(groupId).value).value;
              sink.accepted == old(sink.accepted)
                + Relay.Delivered(Some(Snapshot(sub.initialMessages)), sub.updates, UpdateItem, old(sink.Room()))
              && (old(sink.Room()) == 0 ==> read == 0)
              && read <= |sub.updates|
  {
    read := 0;
    if instance.None? {
      return Failure(NotInitialized), 0;
    }
    var whitenoise := instance.value;
    var parsed := Utils.GroupIdFromString(groupId);
    if parsed.Failure? {
      return Failure(parsed.error), 0;
    }
    var subscription := whitenoise.subscribeToGroupMessages(parsed.value);
    if subscription.Failure? {
      return Failure(Whitenoise(subscription.error)), 0;
    }
    var sub := subscription.value;
    read := Relay.Relay(Some(Snapshot(sub.initialMessages)), sub.updates, UpdateItem, sink);
    r := Success(());
  }

  /** The group-message stream starts with the snapshot of every initial
      message, converted and in order, whenever the sink takes anything. */
  lemma SnapshotComesFirst(sub: W.GroupMessageSubscription, room: nat)
    requires room > 0
    ensures var delivered := Relay.Delivered(Some(Snapshot(sub.initialMessages)), sub.updates, UpdateItem, room);
            delivered != [] && delivered[0].InitialSnapshot?
            && delivered[0].messages == Relay.MapSeq(ConvertChatMessage, sub.initialMessages)
            && forall i :: 1 <= i < |delivered| ==> delivered[i].Update?
  {
    var f := Relay.Forwardable(sub.updates);
    var o := Relay.Offered(Some(Snapshot(sub.initialMessages)), sub.updates, UpdateItem);
    Relay.MapSeqAt(UpdateItem, f);
    assert o == [Snapshot(sub.initialMessages)] + Relay.MapSeq(UpdateItem, f);
  }
}
