/** The values the API layer receives from the libraries it wraps: the
    `whitenoise` messaging library, `nostr_sdk` keys and timestamps, and the
    MLS group identifier. The library itself is injected as a `Whitenoise`
    record whose fields stand for the results of its calls, so that every
    call the API layer makes is an input of the model. */
module Whitenoise {
  import opened Wrappers
  import Hex
  import Relay

  type U8 = x: int | 0 <= x < 0x100
  type U16 = x: int | 0 <= x < 0x1_0000
  type U64 = x: int | 0 <= x < 0x1_0000_0000_0000_0000
  /** `usize` on the 64-bit targets the app ships for. */
  type Usize = U64

  /** A Nostr public key (x-only, 32 bytes); `to_hex` is its base16 form. */
  datatype PublicKey = PublicKey(bytes: seq<Hex.Byte>) {
    function ToHex(): string { Hex.Encode(bytes) }
  }

  /** A Nostr event id (32 bytes). */
  datatype EventId = EventId(bytes: seq<Hex.Byte>) {
    function ToHex(): string { Hex.Encode(bytes) }
  }

  /** An MLS group id: any number of bytes. */
  datatype GroupId = GroupId(bytes: seq<Hex.Byte>)

  /** A Nostr `Timestamp`: seconds since the Unix epoch, as a `u64`. */
  datatype Timestamp = Timestamp(seconds: U64)

  /** A chrono `DateTime<Utc>` with whole seconds. */
  datatype DateTime = DateTime(seconds: int)

  datatype ThemeMode = Light | Dark | System

  datatype Language = English | Spanish | French | German | Italian | Portuguese | Russian | Turkish

  datatype Account = Account(pubkey: PublicKey)

  // --- group messages -------------------------------------------------------

  datatype SerializableToken =
    | Nostr(s: string)
    | Url(s: string)
    | Hashtag(s: string)
    | Text(s: string)
    | LineBreak
    | Whitespace

  datatype UpdateTrigger = NewMessage | ReactionAdded | ReactionRemoved | MessageDeleted

  datatype EmojiReaction = EmojiReaction(count: Usize, users: seq<PublicKey>)

  datatype UserReaction = UserReaction(reactionId: EventId, user: PublicKey, emoji: string, createdAt: Timestamp)

  /** `by_emoji` in the library's iteration order. */
  datatype ReactionSummary = ReactionSummary(byEmoji: seq<(string, EmojiReaction)>, userReactions: seq<UserReaction>)

  datatype ChatMessage = ChatMessage(
    id: string,
    author: PublicKey,
    content: string,
    createdAt: Timestamp,
    tags: seq<seq<string>>,
    isReply: bool,
    replyToId: Option<string>,
    isDeleted: bool,
    contentTokens: seq<SerializableToken>,
    reactions: ReactionSummary,
    kind: U16)

  datatype MessageUpdate = MessageUpdate(trigger: UpdateTrigger, message: ChatMessage)

  /** The Nostr event inside a `MessageWithTokens`. */
  datatype Message = Message(id: EventId, pubkey: PublicKey, kind: U16, createdAt: Timestamp, content: string)

  datatype MessageWithTokens = MessageWithTokens(message: Message, tokens: seq<SerializableToken>)

  datatype ChatMessageSummary = ChatMessageSummary(
    mlsGroupId: GroupId,
    author: PublicKey,
    authorDisplayName: Option<string>,
    content: string,
    createdAt: DateTime,
    mediaAttachmentCount: Usize)

  /** What `subscribe_to_group_messages` hands over, taken atomically. */
  datatype GroupMessageSubscription = GroupMessageSubscription(
    initialMessages: seq<ChatMessage>,
    updates: seq<Relay.Recv<MessageUpdate>>)

  // --- chat list ------------------------------------------------------------

  datatype GroupType = Group | DirectMessage

  datatype ChatListItem = ChatListItem(
    mlsGroupId: GroupId,
    name: Option<string>,
    groupType: GroupType,
    createdAt: DateTime,
    groupImagePath: Option<string>,
    groupImageUrl: Option<string>,
    lastMessage: Option<ChatMessageSummary>,
    pendingConfirmation: bool,
    welcomerPubkey: Option<PublicKey>)

  datatype ChatListUpdateTrigger = NewGroup | NewLastMessage | LastMessageDeleted

  datatype ChatListUpdate = ChatListUpdate(trigger: ChatListUpdateTrigger, item: ChatListItem)

  datatype ChatListSubscription = ChatListSubscription(
    initialItems: seq<ChatListItem>,
    updates: seq<Relay.Recv<ChatListUpdate>>)

  // --- notifications --------------------------------------------------------

  datatype NotificationTrigger = NewMessage | GroupInvite

  datatype NotificationUser = NotificationUser(pubkey: PublicKey, displayName: Option<string>, pictureUrl: Option<string>)

  datatype NotificationUpdate = NotificationUpdate(
    trigger: NotificationTrigger,
    mlsGroupId: GroupId,
    groupName: Option<string>,
    isDm: bool,
    receiver: NotificationUser,
    sender: NotificationUser,
    content: string,
    timestamp: DateTime)

  // --- user search ----------------------------------------------------------

  datatype MatchQuality = Exact | Prefix | Contains

  datatype MatchedField = Name | Nip05 | DisplayName | About

  datatype SearchUpdateTrigger =
    | RadiusStarted(radius: U8)
    | ResultsFound
    | RadiusCompleted(radius: U8, totalPubkeysSearched: Usize)
    | RadiusCapped(radius: U8, cap: Usize, actual: Usize)
    | RadiusTimeout(radius: U8)
    | SearchCompleted(finalRadius: U8, totalResults: Usize)
    | Error(message: string)

  datatype UserSearchResult = UserSearchResult(
    pubkey: PublicKey,
    radius: U8,
    matchQuality: MatchQuality,
    bestField: MatchedField,
    matchedFields: seq<MatchedField>)

  datatype UserSearchUpdate = UserSearchUpdate(
    trigger: SearchUpdateTrigger,
    newResults: seq<UserSearchResult>,
    totalResultCount: Usize)

  datatype UserSearchParams = UserSearchParams(
    query: string,
    searcherPubkey: PublicKey,
    radiusStart: U8,
    radiusEnd: U8)

  // --- the injected collaborator --------------------------------------------

  /** The results of the library calls the API layer makes. Each field is
      what the corresponding call returns; `Failure(reason)` is a
      `WhitenoiseError`. */
  datatype Whitenoise = Whitenoise(
    /** `PublicKey::parse` (hex or NIP-19 `npub`). */
    parsePublicKey: string -> Option<PublicKey>,
    findAccountByPubkey: PublicKey -> Result<Account, string>,
    subscribeToGroupMessages: GroupId -> Result<GroupMessageSubscription, string>,
    subscribeToChatList: Account -> Result<ChatListSubscription, string>,
    /** `subscribe_to_notifications()` cannot fail; the receiver's outcomes. */
    notificationUpdates: seq<Relay.Recv<NotificationUpdate>>,
    searchUsers: UserSearchParams -> Result<seq<Relay.Recv<UserSearchUpdate>>, string>,
    loginWithExternalSigner: PublicKey -> Result<Account, string>)
}
