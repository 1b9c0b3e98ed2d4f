# Voice chat coordination layer, in Dafny

This project models the coordination logic of a voice and text chat
application: a Node.js socket server that keeps rooms, chat histories,
direct messages, reactions and presence in Redis, and a React client that
runs a one-to-one call state machine, a WebRTC mesh for room voice, and
the room and room-list pages.

How the model is built:

- **Redis.** Each store is a class whose field is a map from the store's
  own key strings (`room:<id>:chat`, `presence:user:<name>`, …) to the
  decoded values. The key functions are proved injective, so one id never
  disturbs another.
- **Socket emits.** Each emit is appended to an `EmitLog`. An entry records
  its target (the sender, a room, or a room without the sender) and the
  event with its payload.
- **Handlers.** Each socket handler is one atomic method.
  - Its contract states the whole new state: the connection data, the
    store entries and the emitted events.
  - The state is stated through pure functions.
  - Lemmas about those functions prove the properties the code promises.
- **Client hooks and pages.** Each is a class whose fields are the refs and
  the state the source updates. Corresponding pure functions are proved
  alongside.
- **Inputs from outside.** Clock values, random ids, microphone permission,
  local storage and the room-membership service are method parameters.
- **Timers.** Each timer is a pending entry. An explicit method fires it.

Modules (one per source file, plus shared helpers):

- Shared helpers: `Common` (options, JavaScript truthiness, store keys),
  `Strings` (`trim`, `toLowerCase`, the `/\s+/g` replacement, string order,
  decimals), `Seqs` (`indexOf`, `splice`, `filter`, `Set` dedup, `reverse`).
  - `BoundedHistory` is the push-and-trim list shared by the two history
    stores.
  - `Messages` and `Socket` hold the message records, the events and the
    connection data.
- Server stores: `ChatStore`, `DmStore`, `PresenceStore`, `RoomStore`,
  `ReactionsStore`.
- Server services: `ReactionsService`, `PresenceService`.
- Socket controllers: `CallController`, `ChatController`, `DmController`,
  `RoomController`, `TypingController`.
- Client: `VoiceCall` for `usevoiceCall.js`, `WebrtcMesh` for `useWebRTC.js`,
  `VoiceRoom` for the room page, `RoomSelector` for the room list page,
  `App` for the page flow.

## Model

| member | source | states |
|---|---|---|
| ReactionsService.ToggleAuthors | server/services/reactions.service.js:9-13 | an author already in the list loses exactly its first occurrence (one element shorter); an absent author is appended at the end |
| ReactionsService.ToggleUpdatesBucket | server/services/reactions.service.js:6-13 | after `toggleReaction` the touched `(messageId, emoji)` list is the old one with the author's first occurrence removed when present, or with the author appended when absent |
| ReactionsService.TogglePrunes | server/services/reactions.service.js:16-17 | the touched emoji bucket is never left empty and the touched message entry is never left an empty map |
| ReactionsService.ToggleFrame | server/services/reactions.service.js:6-17 | entries of other message ids, and other emojis of the same message, are unchanged |
| ReactionsService.ToggleAuthorsNoDup | server/services/reactions.service.js:10-13 | a duplicate-free author list stays duplicate-free, because the push happens only when `indexOf` found nothing |
| ReactionsService.ToggleWellFormed | server/services/reactions.service.js:6-20 | a map with no empty bucket, no empty message entry and no duplicate author stays that way |
| ReactionsService.ToggleTwiceAbsent | server/services/reactions.service.js:9-17 | for an author initially absent, two toggles with the same arguments restore the original map exactly |
| ReactionsService.ToggleTwicePresent | server/services/reactions.service.js:9-17 | for an author initially present (no duplicates), two toggles give the same authors as a multiset, with that author moved to the end |
| ReactionsService.AliceBobScenario | server/services/reactions.service.js:9-13 | alice then bob on one emoji gives `["alice","bob"]`; alice again gives `["bob"]` |
| ReactionsService.ToggleList | server/services/reactions.service.js:10-13 | the list step gives exactly `ToggleAuthors`: one element shorter exactly when the author was present, and the author is in the result exactly when it was absent or occurred more than once |
| ReactionsService.ApplyToggle | server/services/reactions.service.js:6-17 | the in-place steps on the fetched map (default entries, the list toggle, the two deletions) end in exactly the map `Toggle` describes |
| ReactionsService.ToggleReaction | server/services/reactions.service.js:3-21 | the method that mutates the fetched map step by step returns exactly the toggled map and writes that same map to the scope's key; on well-formed input the result is well-formed |
| ReactionsStore.ReadAbsent | server/stores/reactions.store.js:6-9 | a scope with no stored value reads as the empty map |
| ReactionsStore.ReadAfterWrite | server/stores/reactions.store.js:6-13 | `setReactions(s, m)` followed by `getReactions(s)` gives `m` |
| ReactionsStore.WriteOverwrites | server/stores/reactions.store.js:11-13 | a second write replaces the first one entirely; there is no merge |
| ReactionsStore.WriteOtherScope | server/stores/reactions.store.js:3-13 | writing one scope leaves every other scope's value unchanged |
| ReactionsStore.Store.GetReactions | server/stores/reactions.store.js:6-9 | returns the stored map, or the empty map when the key is missing |
| ReactionsStore.Store.SetReactions | server/stores/reactions.store.js:11-13 | the scope's key holds the new map, which a read then returns, and no other key changes |
| BoundedHistory.PushBounded | server/stores/chat.store.js:5-9 | one `lPush` plus `lTrim(0, cap-1)` leaves at most `cap` entries, with the new element at the head ahead of the previous `cap-1` |
| BoundedHistory.HistoryAfterPushes | server/stores/chat.store.js:5-14 | after pushes onto a stored list, a read returns the newest `cap` entries of the old history followed by the pushes, in send order |
| ChatStore.PushHead | server/stores/chat.store.js:5-9 | after `pushMessage` the room's list has at most 50 entries, the new message first, then the previous 49; every list stays within 50 |
| ChatStore.HistoryIsReversed | server/stores/chat.store.js:11-14 | `getHistory` returns the stored list reversed: oldest first |
| ChatStore.HistoryEndsWithPushed | server/stores/chat.store.js:5-14 | right after a push, the history ends with the pushed message |
| ChatStore.PushOtherRoom | server/stores/chat.store.js:3-9 | pushing to one room leaves every other room's list unchanged |
| ChatStore.EmptyHistory | server/stores/chat.store.js:11-14 | a room with nothing stored has an empty history |
| ChatStore.HistoryAfterSends | server/stores/chat.store.js:5-14 | after sends m1…mn to an empty room, `getHistory` returns the last min(n, 50) of them in send order |
| ChatStore.SixtySends | server/stores/chat.store.js:5-14 | sixty sends leave messages 11 to 60 |
| ChatStore.Store.PushMessage | server/stores/chat.store.js:5-9 | the stored lists become the `lPush`-then-`lTrim(0, 49)` result for the room, and the 50-entry bound is kept |
| ChatStore.Store.GetHistory | server/stores/chat.store.js:11-14 | returns the first 50 stored entries reversed; on bounded lists, the whole stored list reversed |
| DmStore.PushHead | server/stores/dm.store.js:5-9 | after `pushDM` the list has at most 100 entries, the new message first |
| DmStore.HistoryIsReversed | server/stores/dm.store.js:11-14 | `getDMHistory` returns the stored list reversed |
| DmStore.HistoryEndsWithPushed | server/stores/dm.store.js:5-14 | right after a push, the history ends with the pushed message |
| DmStore.PushOtherConversation | server/stores/dm.store.js:3-9 | other conversation ids are unaffected by a push |
| DmStore.EmptyHistory | server/stores/dm.store.js:11-14 | an unknown conversation has an empty history |
| DmStore.HistoryAfterSends | server/stores/dm.store.js:5-14 | after sends m1…mn, `getDMHistory` returns the last min(n, 100) in send order |
| DmStore.HundredTwentySends | server/stores/dm.store.js:5-14 | 120 sends leave messages 21 to 120 |
| DmStore.Store.PushDM | server/stores/dm.store.js:5-9 | the stored lists become the `lPush`-then-`lTrim(0, 99)` result for the conversation, and the 100-entry bound is kept |
| DmStore.Store.GetDMHistory | server/stores/dm.store.js:11-14 | returns the first 100 stored entries reversed; on bounded lists, the whole stored list reversed |
| PresenceStore.KeyInjective | server/stores/presence.store.js:3 | two names share a key only when they are equal |
| PresenceStore.LookupAfterOnline | server/stores/presence.store.js:5-11 | `setOnline(n, s)` then `getUserSocket(n)` gives `s` |
| PresenceStore.OnlineLastWriteWins | server/stores/presence.store.js:5-7 | a later `setOnline` for a name overwrites the earlier one completely |
| PresenceStore.OfflineGuarded | server/stores/presence.store.js:13-18 | `setOffline(n, s)` removes the entry exactly when it holds `s`; otherwise the store is unchanged |
| PresenceStore.OtherNamesUnchanged | server/stores/presence.store.js:3-18 | `setOnline` and `setOffline` on one name never change another name's entry |
| PresenceStore.LookupAbsent | server/stores/presence.store.js:9-11 | an unregistered name has no socket |
| PresenceStore.ReconnectSurvivesLateOffline | server/stores/presence.store.js:13-18 | a reconnect on a new socket survives the old socket's late `setOffline` |
| PresenceStore.Store.GetUserSocket | server/stores/presence.store.js:9-11 | returns a socket exactly when the name's key is stored, and that socket is the stored one |
| PresenceStore.Store.SetOnline | server/stores/presence.store.js:5-7 | the name's key now holds the socket id, whatever it held before |
| PresenceStore.Store.SetOffline | server/stores/presence.store.js:13-18 | the name's key is deleted only when it holds this socket id |
| PresenceService.NoRoomNoChange | server/services/presence.service.js:5-7 | `setSpeaking` with an empty room id changes nothing |
| PresenceService.SetSpeakingMembership | server/services/presence.service.js:5-14 | afterwards the socket is in the room's speaking set exactly when `isSpeaking` is truthy; other sockets keep their state |
| PresenceService.SetSpeakingIdempotent | server/services/presence.service.js:5-14 | repeating the same `setSpeaking` changes nothing more |
| PresenceService.SetSpeakingOtherRoom | server/services/presence.service.js:3-14 | other rooms are unaffected |
| PresenceService.Speaking.GetSpeaking | server/services/presence.service.js:16-18 | returns exactly the room's set, empty when the key is missing |
| PresenceService.Speaking.SetSpeaking | server/services/presence.service.js:5-14 | no room: nothing; a truthy flag adds the socket to the room's speaking set, a falsy one removes it |
| RoomStore.FindIndex | server/stores/room.store.js:46 | the index of the first room with the id, with no earlier match, or -1 exactly when no room has it |
| RoomStore.GetAll | server/stores/room.store.js:12-27 | a missing key gives the three defaults and stores them; unparsable data gives the defaults and writes nothing; a stored array is returned as it is |
| RoomStore.DefaultsUnique | server/stores/room.store.js:6-10 | the default rooms have distinct ids |
| RoomStore.GetAllValid | server/stores/room.store.js:12-27 | a read of a catalog with unique ids sees unique ids, and the store stays valid |
| RoomStore.AddRoomDuplicate | server/stores/room.store.js:29-36 | `addRoom` with an id already present returns the catalog as read and writes nothing of its own |
| RoomStore.AddRoomFresh | server/stores/room.store.js:37-41 | a fresh id is appended at the end, earlier rooms are kept, the result is stored, and ids stay unique |
| RoomStore.AddRoomValid | server/stores/room.store.js:29-42 | `addRoom` always returns unique ids and keeps the store valid |
| RoomStore.UpdateUsersTargeted | server/stores/room.store.js:44-55 | `updateUsers` sets `users` on the first room with the id and changes nothing else; with no match nothing is written |
| RoomStore.UpdateUsersValid | server/stores/room.store.js:44-55 | `updateUsers` keeps ids unique |
| RoomStore.WithoutMember | server/stores/room.store.js:59 | the filter keeps exactly the rooms with other ids |
| RoomStore.WithoutAppend | server/stores/room.store.js:59 | the filter keeps the order: it distributes over concatenation |
| RoomStore.RemoveRoomFilters | server/stores/room.store.js:57-64 | `removeRoom` drops every room with the id, keeps the others, and always stores the result |
| RoomStore.RemoveRoomValid | server/stores/room.store.js:57-64 | `removeRoom` keeps ids unique |
| RoomStore.CorruptReadsDefaults | server/stores/room.store.js:21-26 | an unreadable catalog reads as the three defaults |
| RoomStore.GetAllAsWritten | server/stores/room.store.js:12-27 | both fallback paths return the module's own `defaultRooms` array, and a stored catalog does not |
| RoomStore.DefaultsAliasing | server/stores/room.store.js:17-38 | a room added while the key is missing is pushed into `defaultRooms` itself, so a later corrupt read returns four rooms |
| RoomStore.AddRoomCopyingKeepsDefaults | server/stores/room.store.js:29-42 | with a copy on the fallback paths, `defaultRooms` keeps the three defaults and `addRoom` is exactly `Added` |
| RoomStore.Store.GetAllRooms | server/stores/room.store.js:12-27 | returns the catalog `GetAll` reads and stores what it writes back |
| RoomStore.Store.AddRoom | server/stores/room.store.js:29-42 | returns and stores the result of `addRoom`, keeping ids unique |
| RoomStore.Store.UpdateUsers | server/stores/room.store.js:44-55 | returns and stores the result of `updateUsers`, keeping ids unique |
| RoomStore.Store.RemoveRoom | server/stores/room.store.js:57-64 | returns and stores the filtered catalog, keeping ids unique |
| CallController.RequestEmits | server/socket/controllers/call.socket.controller.js:21-36 | `call:request` emits one event: `call:unavailable {to}` back to the caller exactly when the name has no socket, else `call:incoming {from}` to the callee's socket |
| CallController.Forwarded | server/socket/controllers/call.socket.controller.js:39-106 | a forwarding handler emits the event once to the target's socket when it is registered, and nothing otherwise |
| CallController.DirectoryValid | server/socket/controllers/call.socket.controller.js:9-15 | registering (and unregistering on disconnect, lines 109-115) never makes the empty name a key |
| CallController.RegisteredRoutes | server/socket/controllers/call.socket.controller.js:9-15 | `user:online` with a falsy name changes nothing; otherwise the name routes to this socket whatever it routed to before, and other names route as before |
| CallController.DisconnectDropsNewerSocket | server/socket/controllers/call.socket.controller.js:109-115 | `disconnect` deletes the name even when a newer socket registered it since, which leaves that newer socket unreachable |
| CallController.DisconnectOtherNames | server/socket/controllers/call.socket.controller.js:109-115 | `disconnect` leaves other names as they were |
| CallController.UserOnline | server/socket/controllers/call.socket.controller.js:9-15 | a truthy name is recorded on the connection and routed to this socket; a falsy one changes nothing; the directory stays free of the empty name |
| CallController.CallRequest | server/socket/controllers/call.socket.controller.js:21-36 | `call:unavailable` to the caller when the callee is not registered, else `call:incoming` to the callee with the caller's name |
| CallController.CallAccept | server/socket/controllers/call.socket.controller.js:39-48 | `call:accepted` reaches the registered callee, and nothing is sent otherwise |
| CallController.CallReject | server/socket/controllers/call.socket.controller.js:51-60 | `call:rejected` reaches the registered target, and nothing is sent otherwise |
| CallController.OfferRelay | server/socket/controllers/call.socket.controller.js:63-72 | the offer reaches the registered target with the sender's name |
| CallController.AnswerRelay | server/socket/controllers/call.socket.controller.js:75-84 | the answer reaches the registered target with the sender's name |
| CallController.IceRelay | server/socket/controllers/call.socket.controller.js:87-94 | the candidate reaches the registered target with the sender's name |
| CallController.CallEnd | server/socket/controllers/call.socket.controller.js:97-106 | `call:ended` reaches the registered target, and nothing is sent otherwise |
| CallController.Disconnect | server/socket/controllers/call.socket.controller.js:109-115 | the connection's name is removed from the directory whatever socket it points to, and the directory stays free of the empty name |
| ChatController.TextMessage | server/socket/controllers/chat.socket.controller.js:15-35 | `chat:send` stores nothing exactly when there is no room or the text is all white space; otherwise the message has the trimmed non-empty text, `type` "chat", the room, the sender socket and the name or "User" |
| ChatController.VoiceMessage | server/socket/controllers/chat.socket.controller.js:38-66 | `chat:send:voice` does nothing exactly without a room or audio; `duration` defaults to 0 and `mimeType` to "audio/webm" |
| ChatController.History | server/socket/controllers/chat.socket.controller.js:6-12 | no room: no emit; otherwise the room's history goes to the requester only |
| ChatController.Send | server/socket/controllers/chat.socket.controller.js:15-35 | the message is pushed to the room history, then the same message is broadcast to the whole room; a refused send changes nothing |
| ChatController.SendVoice | server/socket/controllers/chat.socket.controller.js:38-66 | the voice message is stored, then broadcast to the room; a refused send changes nothing |
| ChatController.React | server/socket/controllers/chat.socket.controller.js:69-83 | without room, user, message id and emoji nothing changes; otherwise the room's reactions become the toggled map and `{messageId, emoji, user}` goes to the room |
| ChatController.Typing | server/socket/controllers/chat.socket.controller.js:86-97 | the status, with `isTyping` coerced to a boolean, goes to the room without the sender; no room, no emit |
| DmController.MakeDMId | server/socket/controllers/dm.socket.controller.js:5-8 | the id is the smaller name, a colon, then the larger name |
| DmController.MakeDMIdSymmetric | server/socket/controllers/dm.socket.controller.js:5-8 | both participants compute the same id |
| DmController.MakeDMIdCollision | server/socket/controllers/dm.socket.controller.js:5-8 | names containing ':' can collide: ("a", "b:c") and ("a:b", "c") share "a:b:c" |
| DmController.DirectMessage | server/socket/controllers/dm.socket.controller.js:20-36 | `dm:send` stores nothing exactly when a name is missing or the text is all white space; otherwise the message has the trimmed text, the sender, the receiver and the symmetric id |
| DmController.BothSides | server/socket/controllers/dm.socket.controller.js:38-63 | the sender always gets the event first; the receiver gets it second exactly when the presence lookup found a socket |
| DmController.History | server/socket/controllers/dm.socket.controller.js:11-18 | without both names no emit; otherwise `{dmId, history}` goes to the requester only |
| DmController.Send | server/socket/controllers/dm.socket.controller.js:20-46 | the message is stored under its conversation id before it is sent to the sender and, when online, to the receiver |
| DmController.React | server/socket/controllers/dm.socket.controller.js:49-64 | with any field missing nothing changes; otherwise the conversation's reactions become the toggled map and both sides are told |
| RoomController.JoinAllowedIff | server/socket/controllers/room.socket.controller.js:7-8 | `room:join` proceeds exactly with a room id and a name that is not all white space |
| RoomController.JoinHistoryExcludesNote | server/socket/controllers/room.socket.controller.js:23-36 | the history sent to the joiner is read before the join note is stored, so it excludes the note, and the next read ends with it |
| RoomController.Join | server/socket/controllers/room.socket.controller.js:6-37 | a refused join changes nothing; otherwise the connection records the room and trimmed name, presence maps the name to this socket, `room:users` goes to the room, the earlier history to the joiner, and the "joined the room" note is stored, then broadcast |
| RoomController.Disconnecting | server/socket/controllers/room.socket.controller.js:40-61 | without room or name nothing changes; otherwise the guarded `setOffline`, then `room:users`, then the "left the room" note stored and broadcast |
| TypingController.NextTimer | server/socket/controllers/typing.socket.controller.js:6-29 | without a room the timer is untouched; otherwise a timer is pending exactly when `isTyping` is truthy, for the current room and name |
| TypingController.Typing | server/socket/controllers/typing.socket.controller.js:6-29 | the status with boolean `isTyping` goes to the whole room, sender included; the pending timer becomes `NextTimer` |
| TypingController.Fire | server/socket/controllers/typing.socket.controller.js:21-27 | the expiry broadcasts `isTyping: false` for the captured room and name and leaves no timer |
| TypingController.Disconnect | server/socket/controllers/typing.socket.controller.js:31-33 | `disconnect` cancels the pending timer |
| VoiceCall.FormatDuration | client/src/hooks/usevoiceCall.js:44-48 | the minutes in decimal, a colon, then the seconds as two digits |
| VoiceCall.FormatDurationRoundTrip | client/src/hooks/usevoiceCall.js:44-48 | reading the two parts back gives seconds = 60·minutes + ss, with ss < 60 |
| VoiceCall.ClearRef | client/src/hooks/usevoiceCall.js:132-135 | clearing the ring timeout unschedules exactly the one the ref holds and empties the ref |
| VoiceCall.ClearRefEmpties | client/src/hooks/usevoiceCall.js:132-135 | from tidy timers, clearing leaves no ring timeout scheduled |
| VoiceCall.ReplaceRingTidy | client/src/hooks/usevoiceCall.js:435-458 | `onIncoming` clears the old ring timeout before arming one, so exactly one is scheduled |
| VoiceCall.ArmWithoutClearOrphans | client/src/hooks/usevoiceCall.js:259-290 | `startCall` arms without clearing: a timeout already held stays scheduled but no `clearTimeout` can reach it any more |
| VoiceCall.EnsureRemoteAudio | client/src/hooks/usevoiceCall.js:70-107 | the audio element and audio context exist afterwards, are created at most once, and nothing else changes |
| VoiceCall.CreatePC | client/src/hooks/usevoiceCall.js:192-253 | a new peer connection for the other user, with remote audio ensured and nothing applied yet |
| VoiceCall.ReleaseMedia | client/src/hooks/usevoiceCall.js:130-190 | cleanup stops the mic, closes the peer connection and the audio context, and disconnects the remote source |
| VoiceCall.CallClient.Cleanup | client/src/hooks/usevoiceCall.js:130-190 | state idle, no peer, no duration timer, duration 0, media released, unmuted; from tidy timers no ring timeout is left |
| VoiceCall.CallClient.StartCall | client/src/hooks/usevoiceCall.js:259-290 | no socket or no target: nothing changes; otherwise state calling, peer set, `call:request` emitted, one ring timeout armed |
| VoiceCall.CallClient.FireRing | client/src/hooks/usevoiceCall.js:276-289 | the caller's timeout logs a missed outgoing call and emits `call:timeout`; the callee's (lines 445-457) logs a missed incoming call and emits `call:reject`; both clean up |
| VoiceCall.CallClient.AcceptCall | client/src/hooks/usevoiceCall.js:292-334 | without a socket or a remembered peer no field changes; otherwise the ring timeout is cleared and `call:accept` sent; with the mic the call is in progress and logged as answered, with the duration timer and mute state kept; without it the client cleans up |
| VoiceCall.CallClient.RejectCall | client/src/hooks/usevoiceCall.js:336-357 | without a socket or a remembered peer no field changes; otherwise `call:reject` is sent, the call logged as rejected, and the client cleaned up |
| VoiceCall.CallClient.CreateOffer | client/src/hooks/usevoiceCall.js:359-392 | without a socket or a callee no field changes; with the mic: in call, peer connection created, offer sent, logged answered, duration timer and mute state kept; without: cleaned up with nothing sent or logged |
| VoiceCall.CallClient.EndCall | client/src/hooks/usevoiceCall.js:394-414 | `call:end {to, duration}` is sent when a peer is set; "ended" is logged only from in-call with duration > 0; then cleanup |
| VoiceCall.CallClient.ToggleMute | client/src/hooks/usevoiceCall.js:416-424 | mute flips only when there is a mic stream |
| VoiceCall.CallClient.Register | client/src/hooks/usevoiceCall.js:433 | `user:online` is sent once there is a socket and a name |
| VoiceCall.CallClient.OnIncoming | client/src/hooks/usevoiceCall.js:435-458 | state ringing, peer set, and the ring timeout replaced, so at most one is pending |
| VoiceCall.CallClient.OnAccepted | client/src/hooks/usevoiceCall.js:460-463 | the caller runs `createOffer` to the accepting user: no field changes without a socket or a sender; with the mic the call is in progress with an offer sent and the call logged, every other field kept; without the mic the client cleans up with nothing sent or logged |
| VoiceCall.CallClient.OnRejected | client/src/hooks/usevoiceCall.js:465-477 | logs a rejected outgoing call and cleans up |
| VoiceCall.CallClient.OnEnded | client/src/hooks/usevoiceCall.js:479-494 | the payload duration is used when present, else the local count; "ended" is logged only above 0; then cleanup |
| VoiceCall.CallClient.OnTimeout | client/src/hooks/usevoiceCall.js:496-507 | logs a missed incoming call and cleans up |
| VoiceCall.CallClient.OnUnavailable | client/src/hooks/usevoiceCall.js:509-513 | cleans up only |
| VoiceCall.CallClient.OnOffer | client/src/hooks/usevoiceCall.js:515-544 | joins the call if not in one, reuses or creates the peer connection, applies the offer and answers, keeping the timers, the duration timer, the duration, the mute state and the log; without a mic it cleans up |
| VoiceCall.CallClient.OnAnswer | client/src/hooks/usevoiceCall.js:546-558 | the answer is applied only with a peer connection |
| VoiceCall.CallClient.OnIce | client/src/hooks/usevoiceCall.js:560-569 | the candidate is applied only with a peer connection |
| VoiceCall.CallClient.OnLocalCandidate | client/src/hooks/usevoiceCall.js:227-231 | a real candidate is sent to the user the connection was made for |
| VoiceCall.CallClient.OnRemoteTrack | client/src/hooks/usevoiceCall.js:198-225 | with an audio context, the remote source is connected |
| VoiceCall.CallClient.OnConnectionState | client/src/hooks/usevoiceCall.js:237-249 | "connected" with no duration timer starts one from 0 and changes nothing else; "connected" with a running timer, and every other state, changes no field; "failed" and "disconnected" clean up |
| VoiceCall.CallClient.StopCallTimer | client/src/hooks/usevoiceCall.js:62-67 | afterwards no duration timer runs, and nothing else changes |
| VoiceCall.CallClient.StartCallTimer | client/src/hooks/usevoiceCall.js:51-60 | a running timer is replaced; counting restarts at 0 |
| VoiceCall.CallClient.Tick | client/src/hooks/usevoiceCall.js:56-58 | each tick adds one second |
| VoiceCall.OutgoingCallScenario | client/src/hooks/usevoiceCall.js:259-414 | ring, accept, connect, three ticks and hang-up send `call:end` with duration 3 and log the answered call and its end |
| WebrtcMesh.AddStream | client/src/hooks/useWebRTC.js:9-15 | an id already present has its stream replaced in place; a new id is appended |
| WebrtcMesh.AddStreamUnique | client/src/hooks/useWebRTC.js:9-15 | stream ids stay unique and the id then has exactly the new stream |
| WebrtcMesh.KeepStreamsMember | client/src/hooks/useWebRTC.js:17-22 | the filter keeps exactly the streams of the remaining ids |
| WebrtcMesh.KeepStreamsTwice | client/src/hooks/useWebRTC.js:68-70 | removing peers one after another removes their streams as one filter would |
| WebrtcMesh.Others | client/src/hooks/useWebRTC.js:59 | the own socket id is never among the others |
| WebrtcMesh.InitiatorExactlyOne | client/src/hooks/useWebRTC.js:47-65 | of two distinct ids exactly one side is the initiator, so one offer is made per pair |
| WebrtcMesh.CreateAllSpec | client/src/hooks/useWebRTC.js:24-66 | creating peers for the others gives every other id a peer, keeps existing peers as they were, makes a new peer the initiator exactly when its id is greater, and sends offers only to new peers this side initiates |
| WebrtcMesh.ReconcileExact | client/src/hooks/useWebRTC.js:57-72 | after reconcile the peers are exactly the other members, never oneself, and surviving peers are unchanged |
| WebrtcMesh.Mesh.RemovePeer | client/src/hooks/useWebRTC.js:17-22 | the id leaves the peer map and the stream list, and nothing else changes |
| WebrtcMesh.Mesh.OnTrack | client/src/hooks/useWebRTC.js:34-37 | the remote stream is recorded under the peer id through `addRemoteStream` |
| WebrtcMesh.Mesh.CreatePeer | client/src/hooks/useWebRTC.js:24-54 | nothing without a local stream or for a known id; otherwise a peer is added and an offer sent when initiating |
| WebrtcMesh.Mesh.Reconcile | client/src/hooks/useWebRTC.js:57-72 | the loops leave the peers of `CreateAll` restricted to the others, the offers of `CreateAll`, and the streams of every removed peer filtered out |
| WebrtcMesh.Mesh.CreatePeers | client/src/hooks/useWebRTC.js:60-64 | the `forEach` over the others leaves exactly the peers and the offers `CreateAll` describes, initiating towards every larger id |
| WebrtcMesh.Mesh.RemoveDeparted | client/src/hooks/useWebRTC.js:66-69 | the loop over the peer keys keeps exactly the peers whose ids are among the others and filters the streams of every other peer out |
| WebrtcMesh.Mesh.OnOffer | client/src/hooks/useWebRTC.js:78-84 | a non-initiating peer is ensured, the offer applied, and an answer sent |
| WebrtcMesh.Mesh.OnAnswer | client/src/hooks/useWebRTC.js:86-90 | answers from an unknown peer are ignored |
| WebrtcMesh.Mesh.OnIce | client/src/hooks/useWebRTC.js:92-98 | candidates from an unknown peer are ignored |
| WebrtcMesh.Mesh.OnLocalCandidate | client/src/hooks/useWebRTC.js:39-43 | a truthy candidate is sent to the peer it was found for; a falsy one sends nothing |
| VoiceRoom.ClientToggle | client/src/pages/VoiceRoom.jsx:96-119 | a present user is removed from the touched list (every occurrence); an absent one is appended |
| VoiceRoom.ClientTogglePrunes | client/src/pages/VoiceRoom.jsx:103-109 | an emptied emoji bucket and an emptied message entry are dropped |
| VoiceRoom.ClientToggleFrame | client/src/pages/VoiceRoom.jsx:96-119 | other messages and other emojis are untouched |
| VoiceRoom.ClientServerAgree | client/src/pages/VoiceRoom.jsx:96-119 | on a duplicate-free bucket the reducer gives exactly the server's `toggleReaction` map |
| VoiceRoom.ClientServerDifferOnDuplicates | client/src/pages/VoiceRoom.jsx:101-103 | with a duplicate the two differ: the client removes every copy, the server one |
| VoiceRoom.ClientToggleWellFormed | client/src/pages/VoiceRoom.jsx:96-119 | well-formed maps stay well-formed under the reducer |
| VoiceRoom.ClientToggleTwice | client/src/pages/VoiceRoom.jsx:96-119 | on a well-formed map a reaction and its repetition by an absent user cancel out |
| VoiceRoom.RemoveSocket | client/src/pages/VoiceRoom.jsx:86-88 | the key's entry is deleted and every other entry kept |
| VoiceRoom.TypingSetEntries | client/src/pages/VoiceRoom.jsx:84-91 | afterwards the socket maps to the user exactly when typing; other sockets' entries are unchanged; keys stay unique |
| VoiceRoom.TypingUsers | client/src/pages/VoiceRoom.jsx:167 | the distinct non-empty values of the map, each once, and every non-empty value is among them |
| VoiceRoom.TypingTextEmptyIff | client/src/pages/VoiceRoom.jsx:167-168 | the typing text is empty exactly when no typist has a name |
| VoiceRoom.TypingTextTwoUsers | client/src/pages/VoiceRoom.jsx:168 | two typists are joined by ", " before the suffix |
| VoiceRoom.Names | client/src/pages/VoiceRoom.jsx:65-70 | the trimmed non-empty display names of the members |
| VoiceRoom.OnlineNames | client/src/pages/VoiceRoom.jsx:296-303 | the normalized non-empty display names, each once |
| VoiceRoom.MergeNames | client/src/pages/VoiceRoom.jsx:71-76 | a duplicate-free union of both lists without the own name, compared after trim and lower case |
| VoiceRoom.Route | client/src/pages/VoiceRoom.jsx:183-222 | a send goes to the room exactly when joined in the room view, and to a partner exactly when joined in the DM view with a partner that is not oneself |
| VoiceRoom.RoomPage.DmUsers | client/src/pages/VoiceRoom.jsx:308-311 | known and online names, each once, never oneself |
| VoiceRoom.RoomPage.JoinEffect | client/src/pages/VoiceRoom.jsx:37-50 | `room:join` is sent once per mount, only with a room and a name |
| VoiceRoom.RoomPage.OnUsers | client/src/pages/VoiceRoom.jsx:65-80 | a non-array list empties the members; the names are merged into the stored known users |
| VoiceRoom.RoomPage.OnTypingStatus | client/src/pages/VoiceRoom.jsx:84-91 | the typing map becomes the `TypingSet` update |
| VoiceRoom.RoomPage.OnReaction | client/src/pages/VoiceRoom.jsx:96-119 | the room reactions become the client toggle |
| VoiceRoom.RoomPage.OnDMReaction | client/src/pages/VoiceRoom.jsx:121-144 | the DM reactions become the same client toggle |
| VoiceRoom.RoomPage.SendMessage | client/src/pages/VoiceRoom.jsx:183-196 | sends to the room, to the partner, or nothing, as `Route` decides |
| VoiceRoom.RoomPage.SendVoiceMessage | client/src/pages/VoiceRoom.jsx:198-222 | the same routing for voice messages |
| VoiceRoom.RoomPage.HandleReact | client/src/pages/VoiceRoom.jsx:224-234 | reacts in the room view, or in the DM view with a partner; otherwise nothing |
| VoiceRoom.RoomPage.SetTyping | client/src/pages/VoiceRoom.jsx:236-240 | emits only when joined and in the room view |
| VoiceRoom.RoomPage.OpenDM | client/src/pages/VoiceRoom.jsx:242-254 | refused for an empty name or oneself; otherwise the DM view opens with empty messages and history is requested |
| VoiceRoom.RoomPage.HandleDisconnect | client/src/pages/VoiceRoom.jsx:272-294 | declined: no field changes; confirmed: `room:leave` sent, every room state reset, known users merged with no members, and one more 150 ms leave timer pending |
| VoiceRoom.RoomPage.FireLeave | client/src/pages/VoiceRoom.jsx:289-292 | a pending leave timer fires: one timer fewer, the socket closed, `onLeave` called once more |
| VoiceRoom.RoomPage.OnHistory | client/src/pages/VoiceRoom.jsx:81 | only an array replaces the room messages; anything else leaves them |
| VoiceRoom.RoomPage.OnMessage | client/src/pages/VoiceRoom.jsx:82 | the message is appended after the existing ones |
| VoiceRoom.RoomPage.OnDMHistory | client/src/pages/VoiceRoom.jsx:93 | only an array replaces the direct messages |
| VoiceRoom.RoomPage.OnDMMessage | client/src/pages/VoiceRoom.jsx:94 | the direct message is appended after the existing ones |
| VoiceRoom.RoomPage.OpenRoom | client/src/pages/VoiceRoom.jsx:256-260 | back to the room view with no DM partner |
| VoiceRoom.RoomPage.ToggleMute | client/src/pages/VoiceRoom.jsx:262-270 | without a microphone stream nothing changes; with one the mute state flips and `presence:mute` carries the new state |
| VoiceRoom.RoomPage.constructor | client/src/pages/VoiceRoom.jsx:12-77 | empty room and DM state, the room view, not muted, and the known-users effect run once with no members: the stored list deduplicated without the own name, and written back |
| VoiceRoom.NoSelfInDmUsers | client/src/pages/VoiceRoom.jsx:308-311 | the own name is never offered as a DM partner |
| VoiceRoom.SelfDmRefused | client/src/pages/VoiceRoom.jsx:188-212 | a DM with oneself as partner is refused |
| RoomSelector.Slug | client/src/pages/RoomSelector.jsx:42 | the room id has no white space and is no longer than the name |
| RoomSelector.CheckCreate | client/src/pages/RoomSelector.jsx:37-54 | blank exactly when all white space; too long exactly when over 30 trimmed characters; duplicate exactly when the slug is listed; otherwise the room with the slug, the trimmed name, the icon and 0 users |
| RoomSelector.CreatedKeepsIdsUnique | client/src/pages/RoomSelector.jsx:45-57 | appending a created room keeps ids unique |
| RoomSelector.SlugOfTwoWords | client/src/pages/RoomSelector.jsx:42 | "study   hall" slugs to "study-hall" |
| RoomSelector.GeneralIsTaken | client/src/pages/RoomSelector.jsx:6-47 | "General" is refused against the default list |
| RoomSelector.Page.OnRoomList | client/src/pages/RoomSelector.jsx:19-24 | only an array replaces the rooms |
| RoomSelector.Page.CreateRoom | client/src/pages/RoomSelector.jsx:37-69 | on success the room is appended, `rooms:create` sent, the form reset and the room selected; otherwise nothing changes; ids stay unique |
| RoomSelector.Page.JoinRoom | client/src/pages/RoomSelector.jsx:71-73 | hands the room to the selection callback |
| App.Shown | client/src/App.jsx:26-28 | each page is shown exactly when its step is current |
| App.OnePagePerStep | client/src/App.jsx:26-28 | exactly one page is shown for each step |
| App.Flow.constructor | client/src/App.jsx:7-8 | the flow starts at the name form with no room |
| App.Flow.HandleJoin | client/src/App.jsx:10-12 | moves to the room list |
| App.Flow.HandleRoomSelect | client/src/App.jsx:14-17 | stores the room and moves into it |
| App.Flow.HandleLeave | client/src/App.jsx:19-22 | clears the room and returns to the room list |
| App.Flow.OnLeaveTimer | client/src/App.jsx:28 | the room page's leave timer closes its socket and calls `onLeave`, which is `handleLeave`: back to the room list with no room |
| App.RoomProps | client/src/App.jsx:28 | the room page gets the selected room's id and name; with none, the props are undefined and its defaults "general" / "General" apply |

## Findings

| source | as written | input that shows it | evidently intended | confidence | as-written member | corrected member |
|---|---|---|---|---|---|---|
| server/stores/room.store.js:17-38 | `getAllRooms` returns the module-level `defaultRooms` array itself on both fallback paths, and `addRoom` pushes into the array it got | `addRoom({id: "x"})` while `app:rooms` is missing, then a read after the stored text became unreadable: four rooms come back | the fallback returns a fresh copy of the three defaults, so a push never changes them | medium, not executed | RoomStore.DefaultsAliasing | RoomStore.AddRoomCopyingKeepsDefaults |

The rest of the model (`RoomStore.GetAll`, `RoomStore.Added` and the
`RoomStore.Store` class) uses the copying behaviour.

## Left out

- Redis I/O, key expiry (`EX`, `expire`) and JSON encoding: each store is a map of decoded values, and encoding is taken to round-trip. The one parse failure modelled is the room catalog fallback.
- Asynchronous interleaving of store calls, including the read-modify-write race in `toggleReaction`: each handler is one atomic step.
- Message ids and timestamps (`Date.now()`, `Math.random()`): they are parameters.
- Real timers: ring timeouts, the duration interval, the typing expiry and the 150 ms leave timer of the room page are pending entries fired by explicit methods (`VoiceRoom.RoomPage.FireLeave`, and `App.Flow.OnLeaveTimer` for the `onLeave` it calls).
- Browser media and WebRTC APIs (getUserMedia, RTCPeerConnection, AudioContext gain and compressor values, MediaRecorder): they are flags and a list of applied payloads. Microphone permission is a parameter. The recorder and local audio hooks and the audio components are not part of this model.
- UI rendering, styles, alerts, `window.confirm` (a parameter of `HandleDisconnect`), sidebar toggles and scrolling.
- Local storage: the stored known-users list is a constructor parameter, whatever `JSON.parse` gives (an empty list when it fails), and a field written back.
- The room-membership service (`joinRoom`/`leaveRoom` in server/services/room.service.js) calls store functions that the room store does not define, so the member list it returns is a parameter of `RoomController.Join` and `RoomController.Disconnecting`.
- server/services/chat.service.js only delegates to the chat store; the controllers call the store directly.
- Transport and bootstrap plumbing (socket.js, server/index.js, app.js, config, routes, the rooms REST controller, the error middleware) and the presence socket controller are glue.
- The socket-id relay in webrtc.socket.controller.js depends on a validator it does not contain, so it is not part of this model.
- Handlers that the client emits to but that the server code does not register (`call:timeout`, `room:leave`, `rooms:list`, `rooms:create`, `dm:send:voice`, `presence:mute`): only the client side of each is modelled.
- Two `chat:typing` handlers exist (the chat controller and the typing controller), and the wiring that picks one is not shown. Each is modelled as its own handler.
- `RoomController.Join`: the store writes and emits are in source order, but the `socket.join` call is recorded as room membership of the connection, and socket.io's delivery to room members is not modelled.
- `Strings.Trim`: the white space set is the Unicode one JavaScript uses, on characters rather than UTF-16 code units.
- `Strings.ToLower`: only ASCII letters are lowered; `NormalizeName`, `Slug` and the duplicate check inherit this.
- `Strings.LexLess`: compares Dafny characters, not UTF-16 code units, so `makeDMId` and the initiator rule can order two names differently from JavaScript when one holds characters outside the Basic Multilingual Plane.
- `RoomSelector.CheckCreate`: the 30-character limit counts characters, whereas JavaScript's `length` counts UTF-16 code units.
- The order of keys in JavaScript objects and maps: reaction maps are Dafny maps, and the typing map is a list in insertion order. Integer-like keys, which JavaScript orders first, are not modelled.
- `VoiceRoom.TypingSuffix` is the three characters the file actually holds after the word "typing" (a UTF-8 ellipsis read as Windows-1252), as written.
- `VoiceCall`: the call log callback is taken to be present. `isUserOnline` only feeds the UI and is left out.
- `VoiceCall.ArmWithoutClearOrphans` shows that `startCall` can orphan a ring timeout. The caller of the hook is not part of this model, so whether a second `startCall` can happen during a ring is not claimed as a finding.
- `DmController.MakeDMIdCollision` shows that names containing ':' share conversations. The source does not say that names exclude ':', so this is not claimed as a finding.
- `VoiceRoom.RoomPage.HandleDisconnect`: stopping the local stream's tracks is not modelled, since the microphone stream is only a flag here.
- `RoomStore.GetAll`, `RoomStore.Added`, `RoomStore.Store`: on both fallback paths the model returns a fresh copy of the three defaults. room.store.js:15-26 returns the module's `defaultRooms` array itself, and `addRoom` (line 38) and `updateUsers` (line 49) then change that shared array in place. The behaviour as written is `RoomStore.GetAllAsWritten` and `RoomStore.DefaultsAliasing`, listed under Findings.
- `WebrtcMesh`: the peer map is a Dafny map, and `Reconcile` visits the keys in an order it picks. That order does not change the result.
