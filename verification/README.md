# sloth API layer and Amber signer plugin, modelled in Dafny

This project models the Rust API layer that the sloth Flutter app uses to reach the
`whitenoise` messaging library. It also models the Android plugin that talks to an
external NIP-55 signer such as Amber.

- **Relay** (`relay.dfy`): the receive-and-forward loop shared by the four stream
  functions.
  - `subscribe_to_group_messages` and `subscribe_to_chat_list` first send one
    `InitialSnapshot` item; `subscribe_to_notifications` and `search_users` send none.
  - The loop then forwards each received update, converted, to the Flutter stream sink.
  - It skips `Lagged` and stops on `Closed` or on the first item the sink rejects.
  - The broadcast receiver is the finite sequence of outcomes its `recv` calls give.
  - The sink is a `Sink` object that accepts a fixed number of items and rejects the rest.
  - `Relay.Relay` is proved against `Delivered`, a specification function. Lemmas about
    `Delivered` state the properties the code comments promise:
    - the snapshot comes first;
    - each update is delivered once, in order;
    - a lag yields nothing;
    - nothing is delivered after `Closed` or after a rejection.
    - A replay lemma shows why skipping a lag is safe: each update carries an entity's full
      state, so a missed update that a later one supersedes leaves the consumer's final
      state unchanged. A second lemma applies this to what the relay forwards when the
      receiver lags.
- **Messages, ChatList, Notifications, UserSearch**: the Flutter-side types, the `From`
  conversions and the four stream functions. Each stream function is the relay
  instantiated with its own snapshot and conversion.
  - Timestamps convert as in the `From` impls: a `u64` that does not fit `i64` becomes 0,
    and a value chrono's `Utc.timestamp_opt` rejects becomes the Unix epoch.
  - The latest second chrono accepts is taken as 8210298412799, the end of year 262143.
    Only non-negative seconds reach chrono here.
  - Each trigger conversion is proved to be a same-named bijection.
- **Hex, Utils** (`hex.dfy`, `utils.dfy`): the group-id codec.
  - It is Base16 from section 8 of RFC 4648, with the semantics of the Rust `hex` crate.
  - Encoding writes lower case.
  - Decoding accepts either case. It rejects an input of odd UTF-8 length first, and
    otherwise reports the index of the first non-hex character.
  - Also in Utils: the fixed theme-mode and language string maps (ISO 639-1 codes).
- **Signer** (`signer.dfy`): `DartSigner`, a `NostrSigner` that calls one of five Dart
  callbacks per operation.
  - Each operation returns its result and the log of callback calls it made.
  - JSON (serde) is an injected codec.
  - `login_with_external_signer_and_callbacks` returns its result and the list of library
    steps it took.
- **AmberSigner** (`amber_signer_plugin.dfy`): the Kotlin plugin as a class.
  - It has a single pending-request slot (`pendingResult`, `currentRequestId`), the stored
    signer package, the replies sent to Dart, and the intents launched.
  - Whether a context and an activity exist is a field. What the package manager, the
    content resolver and `startActivityForResult` do is a `Device` input.
  - Each operation's effect is a two-state predicate. Both the operation and
    `OnMethodCall`, which dispatches to it, promise that predicate.
  - Two behaviours of the code show up in the contracts:
    - **`NO_ACTIVITY` is unreachable in sign/crypt.** The signer package name is read
      through the activity (`getSignerPackageName` returns `null` without one). So a
      sign or encrypt/decrypt request that gets past the `NO_SIGNER` check always has an
      activity, and the `NO_ACTIVITY` branches at lines 247-251 and 387-391 cannot run.
    - **A new request overwrites the pending slot.** A request that reaches the intent
      path while another is pending replaces it. The earlier Dart `Result` is then never
      answered.
    - **`onActivityResult` with an empty slot** returns `true` at once and does not clear
      `currentRequestId`. No id is ever held without a pending result, so nothing is
      lost.

The collaborator (the `whitenoise` library) is the `Whitenoise.Whitenoise` record. Each
of its fields is what one library call returns, so every call the API layer makes is an
input of the model. `Whitenoise::get_instance()` is an `Option` argument: `None` means
the library is not initialised.

Only `subscribe_to_group_messages` and `subscribe_to_chat_list` send a snapshot; the
notification and search streams send updates only.

## Model

| member | source | states |
|---|---|---|
| Relay.Sink.Add | rust/src/api/messages.rs:408-410 | `sink.add` succeeds exactly while the sink has room; an accepted item is appended, a rejected one counted |
| Relay.ClosedAt | rust/src/api/messages.rs:417-419 | position of the first `Closed` outcome: no earlier outcome is `Closed` |
| Relay.RelayUpdates | rust/src/api/messages.rs:400-421 | the receive loop: the sink gains exactly the converted updates received before `Closed`, cut at its room; at most one rejection; it reads up to and including `Closed` unless a rejection stops it at a `Received` outcome |
| Relay.Relay | rust/src/api/messages.rs:384-423 | snapshot first, then the loop; a rejected snapshot returns with no outcome read; the sink gains exactly `Delivered(...)` |
| Relay.LoopForwardsIsForwardable | rust/src/api/messages.rs:402-421 | the loop's step-by-step behaviour (forward, continue, stop) equals the filter definition: every update received before `Closed`, once each, in receive order, nothing else |
| Relay.LaggedIsSkipped | rust/src/api/messages.rs:412-416 | a `Lagged` outcome anywhere changes nothing forwarded |
| Relay.ClosedEndsStream | rust/src/api/messages.rs:417-419 | nothing after `Closed` is ever forwarded |
| Relay.FirstDelivered | rust/src/api/messages.rs:384-398 | with room, the first item is the snapshot; without a snapshot it is the first update forwarded |
| Relay.SnapshotRejected | rust/src/api/messages.rs:391-398 | a sink that rejects the snapshot receives nothing |
| Relay.DeliveredIsPrefix | rust/src/api/messages.rs:408-410 | the sink's capacity only cuts the offered sequence, never reorders or alters it |
| Relay.LagBetweenUpdates | rust/src/api/messages.rs:412-416 | example: the trace snapshot, update, lag, update delivers the snapshot and both updates, and the lag delivers nothing |
| Relay.ClosedAfterSnapshot | rust/src/api/messages.rs:417-419 | a source that closes right after the snapshot yields exactly the snapshot |
| Relay.SupersededUpdateIsRedundant | rust/src/api/messages.rs:412-416 | a missed update superseded later by one for the same entity leaves the consumer's final state unchanged |
| Relay.LagHidesSupersededUpdate | rust/src/api/messages.rs:400-421 | when the receiver lags over an update that a later update of the same entity, received before `Closed`, supersedes, replaying the forwarded items gives the same state as receiving it |
| Messages.ToDateTime | rust/src/api/messages.rs:148-154 | seconds kept when chrono accepts them, otherwise the Unix epoch |
| Messages.ToDateTimeMonotone | rust/src/api/messages.rs:280-285 | within chrono's range the conversion keeps order and distinctness |
| Messages.ConvertToken | rust/src/api/messages.rs:167-196 | fixed type name per variant; content is `None` exactly for LineBreak and Whitespace, otherwise the token's text |
| Messages.TokenRoundTrip | rust/src/api/messages.rs:167-196 | the token can be read back from its type name and content: the conversion loses nothing |
| Messages.ConvertTrigger | rust/src/api/messages.rs:309-318 | the original trigger can be read back from the converted one |
| Messages.TriggerBijection | rust/src/api/messages.rs:309-318 | each trigger maps to its namesake and the map is a bijection |
| Messages.ConvertTokens | rust/src/api/messages.rs:266-271 | tokens converted one by one, in order |
| Messages.ConvertEmojiReaction | rust/src/api/messages.rs:219-227 | emoji and count kept, each reacting key in hex, in order |
| Messages.ConvertUserReaction | rust/src/api/messages.rs:229-243 | ids and user in hex, emoji kept, time through the epoch fallback |
| Messages.ConvertReactions | rust/src/api/messages.rs:217-250 | both reaction lists converted element by element, in order |
| Messages.ConvertChatMessage | rust/src/api/messages.rs:258-301 | id, content, tags, reply and deletion flags and kind kept; author in hex; time through the fallback; tokens and reactions converted |
| Messages.ConvertMessageUpdate | rust/src/api/messages.rs:320-327 | trigger and message converted |
| Messages.ConvertMessageWithTokens | rust/src/api/messages.rs:135-159 | content always present; id and pubkey in hex; kind kept; time through the fallback; tokens converted |
| Messages.ConvertChatMessageSummary | rust/src/api/messages.rs:204-215 | group id as a string that decodes back to it; author in hex; other fields kept |
| Messages.UpdateItem | rust/src/api/messages.rs:404-407 | each update becomes an `Update` item, never a snapshot, with its trigger and message converted |
| Messages.Snapshot | rust/src/api/messages.rs:384-389 | the snapshot holds every initial message, converted, in order |
| Messages.SubscribeToGroupMessages | rust/src/api/messages.rs:375-424 | not initialised gives `NotInitialized`; a group id that does not decode gives its `InvalidGroupId` error; a refused subscription gives `Whitenoise(e)` with the library's error; each fails before the sink is touched; otherwise `Ok(())` with the relay's delivery of the library's subscription |
| Messages.SnapshotComesFirst | rust/src/api/messages.rs:384-398 | the first item delivered is the snapshot of all initial messages; every later one is an update |
| ChatList.ConvertChatListItem | rust/src/api/chat_list.rs:41-57 | name, type, created time, image path and URL and pending flag kept; last message and welcomer are `None` exactly when the source's are; the group id string decodes back |
| ChatList.ConvertTrigger | rust/src/api/chat_list.rs:71-79 | the original trigger can be read back from the converted one |
| ChatList.TriggerBijection | rust/src/api/chat_list.rs:71-79 | same-named bijection |
| ChatList.ConvertUpdate | rust/src/api/chat_list.rs:92-99 | trigger and item converted |
| ChatList.UpdateItem | rust/src/api/chat_list.rs:164-168 | each update becomes an `Update` item, never a snapshot, with its trigger and summary converted |
| ChatList.Snapshot | rust/src/api/chat_list.rs:145-150 | every initial item, converted, in order |
| ChatList.Prepare | rust/src/api/chat_list.rs:139-143 | not initialised gives `NotInitialized`, an invalid key `InvalidPublicKey`; a failed account lookup or subscription gives `Whitenoise(e)` with the library's error; otherwise the library's own chat-list subscription for the account |
| ChatList.SubscribeToChatList | rust/src/api/chat_list.rs:135-185 | any failure of `Prepare` returns its error with nothing sent; otherwise `Ok(())` with the relay's delivery; a rejected snapshot reads no update |
| ChatList.SnapshotComesFirst | rust/src/api/chat_list.rs:145-159 | the first item delivered is the snapshot of all initial items; every later one is an update |
| Notifications.ConvertTrigger | rust/src/api/notifications.rs:20-27 | the original trigger can be read back from the converted one |
| Notifications.TriggerBijection | rust/src/api/notifications.rs:20-27 | same-named bijection |
| Notifications.ConvertUser | rust/src/api/notifications.rs:37-45 | key in hex, display name and picture kept |
| Notifications.ConvertUpdate | rust/src/api/notifications.rs:60-73 | group name, DM flag, content and timestamp kept; trigger converted; group id string decodes back |
| Notifications.SubscribeToNotifications | rust/src/api/notifications.rs:75-101 | fails only when not initialised, then with nothing sent; otherwise every update relayed with no snapshot |
| Notifications.FirstIsFirstUpdate | rust/src/api/notifications.rs:80-90 | the first notification delivered is the first update received; the stream is a prefix of the converted updates |
| UserSearch.ConvertQuality | rust/src/api/user_search.rs:21-29 | the original quality can be read back from the converted one |
| UserSearch.ConvertField | rust/src/api/user_search.rs:40-49 | the original field can be read back from the converted one |
| UserSearch.ConvertTrigger | rust/src/api/user_search.rs:79-111 | the original trigger, with every field, can be read back from the converted one |
| UserSearch.QualityBijection | rust/src/api/user_search.rs:21-29 | same-named bijection |
| UserSearch.FieldBijection | rust/src/api/user_search.rs:40-49 | same-named bijection |
| UserSearch.TriggerBijection | rust/src/api/user_search.rs:79-111 | the conversion keeps the variant and every field: inverted both ways |
| UserSearch.TriggerExamples | rust/src/api/user_search.rs:247-334 | the conversions the module's tests check |
| UserSearch.ConvertResult | rust/src/api/user_search.rs:124-139 | key in hex, radius kept, quality and fields converted, matched fields in length and order |
| UserSearch.ConvertUpdate | rust/src/api/user_search.rs:149-157 | trigger converted, total count kept, results converted in length and order |
| UserSearch.Prepare | rust/src/api/user_search.rs:167-177 | not initialised or an invalid key fail before searching; the search gets the query and radii unchanged and the parsed key |
| UserSearch.SearchUsers | rust/src/api/user_search.rs:159-199 | any failure of `Prepare` returns with nothing sent; otherwise every update relayed with no snapshot |
| Hex.Encode | rust/src/api/utils.rs:53 | two lower-case hex digits per byte |
| Hex.DigitChar | rust/src/api/utils.rs:53 | the digit of a nibble is lower-case and decodes back to the nibble |
| Hex.Decode | rust/src/api/utils.rs:58 | on success, one byte per two hex digits, each the value of its pair; a bad-character error names a position holding a non-hex character |
| Hex.FirstNonHex | rust/src/api/utils.rs:58 | the first position holding a non-hex character, none exactly when all are hex |
| Hex.DecodeSucceedsIff | rust/src/api/utils.rs:58 | decoding succeeds exactly on an even number of hex digits of either case, one byte per two digits |
| Hex.DecodeFailure | rust/src/api/utils.rs:58 | odd UTF-8 length is reported first; otherwise the first non-hex character's index |
| Hex.DecodeEncode | rust/src/api/utils.rs:52-60 | decoding an encoding gives the bytes back |
| Hex.EncodeDecode | rust/src/api/utils.rs:52-60 | re-encoding what decoded gives the input in lower case |
| Utils.GroupIdToString | rust/src/api/utils.rs:52-54 | length twice the byte count, lower-case hex |
| Utils.GroupIdFromString | rust/src/api/utils.rs:56-60 | succeeds exactly on an even number of hex digits, and then re-encodes to the lower-cased input; otherwise the decoder's error and no id |
| Utils.GroupIdRoundTrip | rust/src/api/utils.rs:52-60 | every group id survives the string round trip |
| Utils.GroupIdToStringInjective | rust/src/api/utils.rs:52-54 | distinct ids give distinct strings |
| Utils.ThemeModeLight | rust/src/api/utils.rs:62-65 | returns Light |
| Utils.ThemeModeDark | rust/src/api/utils.rs:67-70 | returns Dark |
| Utils.ThemeModeSystem | rust/src/api/utils.rs:72-75 | returns System |
| Utils.ThemeModeToString | rust/src/api/utils.rs:77-84 | one of "light", "dark", "system" |
| Utils.ThemeModeStrings | rust/src/api/utils.rs:62-84 | injective, and each constructor gives its own name |
| Utils.LanguageEnglish | rust/src/api/utils.rs:86-89 | returns English |
| Utils.LanguageSpanish | rust/src/api/utils.rs:91-94 | returns Spanish |
| Utils.LanguageFrench | rust/src/api/utils.rs:96-99 | returns French |
| Utils.LanguageGerman | rust/src/api/utils.rs:101-104 | returns German |
| Utils.LanguageItalian | rust/src/api/utils.rs:106-109 | returns Italian |
| Utils.LanguagePortuguese | rust/src/api/utils.rs:111-114 | returns Portuguese |
| Utils.LanguageRussian | rust/src/api/utils.rs:116-119 | returns Russian |
| Utils.LanguageTurkish | rust/src/api/utils.rs:121-124 | returns Turkish |
| Utils.LanguageToString | rust/src/api/utils.rs:126-138 | a two-letter ISO 639-1 code among en, es, fr, de, it, pt, ru, tr |
| Utils.LanguageStrings | rust/src/api/utils.rs:86-138 | injective, and each constructor gives its own code |
| Signer.New | rust/src/api/signer.rs:41-57 | keeps the key and the callbacks |
| Signer.Debug | rust/src/api/signer.rs:31-37 | the debug form shows the struct name and only the pubkey field |
| Signer.DebugHidesCallbacks | rust/src/api/signer.rs:31-37 | signers with the same key print alike, whatever their callbacks |
| Signer.GetPublicKey | rust/src/api/signer.rs:65-67 | never fails and calls no callback |
| Signer.GetPublicKeyOfNew | rust/src/api/signer.rs:41-67 | the key reported is the one given to `new` |
| Signer.SignEvent | rust/src/api/signer.rs:69-83 | calls the sign callback once with the serialised event; succeeds exactly when the answer parses, with that event; a parse failure is a backend error |
| Signer.Crypt | rust/src/api/signer.rs:85-139 | never fails; one call of the operation's own callback with the content and the counterparty key in hex, in that order |
| Signer.CryptIsVerbatim | rust/src/api/signer.rs:94-96 | the answer is the callback's string, unchanged |
| Signer.CryptUsesOnlyItsCallback | rust/src/api/signer.rs:85-139 | replacing every other callback leaves the operation unchanged |
| Signer.SignUsesOnlyItsCallback | rust/src/api/signer.rs:69-83 | signing depends on the sign callback only |
| Signer.LoginWithExternalSigner | rust/src/api/signer.rs:163-197 | not initialised or an unparsable key fail before any step; otherwise login, then register, then publish, the first error ending the sequence as `Whitenoise(e)` with the library's error; publishing is handed the signer built from the caller's callbacks, and the login returns the account exactly when that publish succeeds |
| Signer.LoginOrder | rust/src/api/signer.rs:171-196 | the steps taken are always a prefix of login, register, publish with one signer from the caller's callbacks; success took all three |
| AmberSigner.ParseCall | android/app/src/main/kotlin/com/example/sloth/AmberSignerPlugin.kt:72-179 | a known method with its required arguments yields its own request carrying the call's values (event JSON, content, pubkey, permissions, package), with `id` and `currentUser` defaulting to ""; a missing required argument is reported under the name that method needs (`eventJson`, `packageName`, the crypt content argument, then `pubkey`); any other method name is unknown |
| AmberSigner.RequiredArguments | android/app/src/main/kotlin/com/example/sloth/AmberSignerPlugin.kt:86-177 | each method is rejected exactly when one of its required arguments is missing, and the one reported is its own, the content argument checked before `pubkey` |
| AmberSigner.ResolverPath | android/app/src/main/kotlin/com/example/sloth/AmberSignerPlugin.kt:431-438 | nip04_encrypt, nip04_decrypt, nip44_encrypt and nip44_decrypt map to NIP04_ENCRYPT, NIP04_DECRYPT, NIP44_ENCRYPT and NIP44_DECRYPT; every other type has no path |
| AmberSigner.ResolverPathInjective | android/app/src/main/kotlin/com/example/sloth/AmberSignerPlugin.kt:431-438 | distinct types have distinct paths |
| AmberSigner.CryptMethodsHavePaths | android/app/src/main/kotlin/com/example/sloth/AmberSignerPlugin.kt:100-157 | each of the four encrypt/decrypt channel methods reaches the resolver path of its own name |
| AmberSigner.SignQuery | android/app/src/main/kotlin/com/example/sloth/AmberSignerPlugin.kt:286-290 | the signer package's `SIGN_EVENT` endpoint, asked with the event JSON, an empty key and the current user |
| AmberSigner.CryptQuery | android/app/src/main/kotlin/com/example/sloth/AmberSignerPlugin.kt:441-445 | the signer package's endpoint for the type's path, asked with the content, the counterparty key and the current user |
| AmberSigner.QueryUrisDistinct | android/app/src/main/kotlin/com/example/sloth/AmberSignerPlugin.kt:286-290 | signing and each of the four encrypt/decrypt types reach different endpoints of the signer app |
| AmberSigner.SignResolverHit | android/app/src/main/kotlin/com/example/sloth/AmberSignerPlugin.kt:278-320 | a hit exactly with a context, a cursor, no `rejected` column, a row and a `result` column; signature and event read from the row, possibly `null` |
| AmberSigner.CryptResolverHit | android/app/src/main/kotlin/com/example/sloth/AmberSignerPlugin.kt:421-470 | a hit exactly with a context, a known type, a cursor, no `rejected` column, a row and a non-null `result`, which is the answer |
| AmberSigner.PublicKeyIntent | android/app/src/main/kotlin/com/example/sloth/AmberSignerPlugin.kt:205-210 | the bare `nostrsigner:` URI, no package; extras: type `get_public_key`, and the permissions exactly when non-empty; nothing else |
| AmberSigner.SignIntent | android/app/src/main/kotlin/com/example/sloth/AmberSignerPlugin.kt:256-263 | the URI carries the event JSON; the signer package; extras: type `sign_event`, the id always, the current user exactly when non-empty; nothing else |
| AmberSigner.CryptIntent | android/app/src/main/kotlin/com/example/sloth/AmberSignerPlugin.kt:396-406 | the URI carries the content; the signer package; extras: the type and pubkey always, the current user and the id each exactly when non-empty; nothing else |
| AmberSigner.ActivityReply | android/app/src/main/kotlin/com/example/sloth/AmberSignerPlugin.kt:486-515 | not OK is `USER_REJECTED`, no data is `NO_DATA`, otherwise a response of the returned result, package and event, and an id that is the returned one or else the stored request id |
| AmberSigner.AmberSignerPlugin.SignerPackageName | android/app/src/main/kotlin/com/example/sloth/AmberSignerPlugin.kt:518-522 | with an activity, the stored package; without one, none |
| AmberSigner.AmberSignerPlugin.ExternalSignerInstalled | android/app/src/main/kotlin/com/example/sloth/AmberSignerPlugin.kt:181-190 | true exactly with an activity and a signer app installed |
| AmberSigner.AmberSignerPlugin.SetSignerPackageName | android/app/src/main/kotlin/com/example/sloth/AmberSignerPlugin.kt:524-528 | stores the package through the activity, a no-op without one; slot and replies untouched |
| AmberSigner.AmberSignerPlugin.GetPublicKey | android/app/src/main/kotlin/com/example/sloth/AmberSignerPlugin.kt:192-221 | `NO_ACTIVITY` without an activity; otherwise takes the slot with no request id and launches; `NO_SIGNER` or `LAUNCH_ERROR` by exception kind, freeing the slot |
| AmberSigner.AmberSignerPlugin.Launch | android/app/src/main/kotlin/com/example/sloth/AmberSignerPlugin.kt:393-414 | takes the slot with the caller's id before launching; a throwing launch frees it and answers `LAUNCH_ERROR` |
| AmberSigner.AmberSignerPlugin.SignEvent | android/app/src/main/kotlin/com/example/sloth/AmberSignerPlugin.kt:223-272 | no package is `NO_SIGNER` with the slot untouched; a resolver hit answers at once with result, event and id, slot untouched; otherwise the intent path; never `NO_ACTIVITY` |
| AmberSigner.AmberSignerPlugin.LaunchSignerIntent | android/app/src/main/kotlin/com/example/sloth/AmberSignerPlugin.kt:362-415 | as `SignEvent`, with the crypto resolver and intent |
| AmberSigner.AmberSignerPlugin.OnMethodCall | android/app/src/main/kotlin/com/example/sloth/AmberSignerPlugin.kt:72-179 | `INVALID_ARGUMENT` or `notImplemented` with state unchanged; every valid request has the effect of its operation |
| AmberSigner.AmberSignerPlugin.OnActivityResult | android/app/src/main/kotlin/com/example/sloth/AmberSignerPlugin.kt:472-516 | a foreign request code is not handled and changes nothing; otherwise the slot is read and cleared, the pending request (if any) answered with `ActivityReply`, and a non-empty returned package stored |
| AmberSigner.SignThroughIntent | android/app/src/main/kotlin/com/example/sloth/AmberSignerPlugin.kt:472-516 | a resolver miss goes out as an intent; the answer reaches the pending request under its own id; a stray second result answers nothing |
| AmberSigner.SignWithoutPackage | android/app/src/main/kotlin/com/example/sloth/AmberSignerPlugin.kt:370-374 | encrypting with no stored package answers `NO_SIGNER`; a foreign request code is not handled |

## Left out

- The `whitenoise` library is not modelled. Its account lookup, group storage, the
  atomicity of its snapshot and the broadcast channel's buffering are all outside the
  model; its calls are the fields of `Whitenoise.Whitenoise`.
- The receiver is a finite sequence of outcomes. The real loop blocks on `recv` forever.
  When the sequence runs out, the model stops as if it had ended there.
- Async/await, `Arc` sharing and concurrent use of the signer are not modelled. Every
  operation runs sequentially.
- The Flutter stream sink is a fixed capacity. A Dart listener that cancels is a sink
  whose room runs out.
- `send_message_to_group`, `fetch_aggregated_messages_for_group` and `get_chat_list`
  are one-shot calls that only delegate and convert. They are not modelled.
- Media attachments in `ChatMessage` and the metadata in `UserSearchResult` are not
  modelled. rust/src/api/media_files.rs and rust/src/api/metadata.rs are not part of
  this model.
- `GroupType` keeps the library's type. The Flutter mirror in rust/src/api/groups.rs is
  not part of this model.
- The account returned by login keeps the library's type. rust/src/api/accounts.rs is not
  part of this model.
- `ApiError` is reduced to the cases these functions can produce. rust/src/api/error.rs
  is not part of this model. Library errors carry only their message.
- `PublicKey::parse` (hex or NIP-19 `npub`) is an injected function. So is the serde
  JSON codec used by `sign_event`.
- The other parts of rust/src/api/utils.rs are not modelled: npub conversion, relay-URL
  and tag parsing, and the blossom server URL constant.
- rust/src/api/account_groups.rs, rust/src/api/account_settings.rs and rust/src/api/mod.rs
  are plumbing and are not modelled.
- `DartSigner::backend`, a constant name, is not modelled.
- Android machinery is not modelled:
  - plugin attach/detach, the method channel and `Log` calls;
  - the intent flags;
  - the shared-preferences API (the stored package is a field);
  - `queryIntentActivities` (reduced to a boolean);
  - the exception messages (inputs).
- Messages.ToDateTime: `DateTime<Utc>` is kept as whole seconds. Nanoseconds are always 0
  in these conversions.
- Messages.ToDateTime: the chrono version is not part of this model. The upper bound is
  the last second of year 262143. A chrono release whose maximum year is 262142 ends one
  year earlier (8210266876799), which moves only this threshold.
- Messages.ConvertMessageWithTokens: the conversion of the message kind to `u16` is
  taken as the kind itself.
- ChatList.ConvertChatListItem: the image path is taken as a string. The lossy conversion
  from an OS path is not modelled.
- UserSearch.ConvertTrigger: `usize` counts are `u64` (the 64-bit targets), so the
  `as u64` widening is the identity.
- Hex.Decode: reports the index of the first bad character but not the character itself.
