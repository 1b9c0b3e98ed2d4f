/** The room chat handlers (server/socket/controllers/chat.socket.controller.js):
    history on request, text and voice messages stored then broadcast to the
    room, reaction toggles, and a typing indicator for the other members. */
module ChatController {
  import opened Common
  import opened Strings
  import opened Messages
  import opened Socket
  import ChatStore
  import ReactionsStore
  import ReactionsService

  /** The message `chat:send {text}` stores and broadcasts, or `None` when
      the handler returns early (no room, or blank text after trimming). */
  function TextMessage(roomId: string, userName: string, socketId: string, text: string, id: string, now: int)
    : (r: Option<Message>)
    ensures r.None? <==> roomId == "" || AllSpace(text)
    ensures r.Some? ==> var m := r.value;
      && m.ChatText? && m.Type() == "chat" && m.roomId == roomId && m.id == id && m.createdAt == now
      && m.text == Trim(text) && m.text != "" && m.from == socketId
      && m.user == NameOrUser(userName) && (userName != "" ==> m.user == userName)
  {
    if roomId == "" then None
    else
      var clean := Trim(text);
      TrimEmptyIff(text);
      if clean == "" then None
      else Some(ChatText(id, roomId, clean, NameOrUser(userName), socketId, now))
  }

  /** The message `chat:send:voice {audio, duration, mimeType}` stores and
      broadcasts, or `None` without a room or without audio. */
  function VoiceMessage(roomId: string, userName: string, socketId: string, audio: string,
                        duration: JsValue, mimeType: string, id: string, now: int)
    : (r: Option<Message>)
    ensures r.None? <==> roomId == "" || audio == ""
    ensures r.Some? ==> var m := r.value;
      && m.ChatVoice? && m.Type() == "voice" && m.roomId == roomId && m.audio == audio
      && m.duration == (if Truthy(duration) then duration else JsNumber(0))
      && m.mimeType == (if mimeType == "" then "audio/webm" else mimeType)
      && m.user == NameOrUser(userName) && m.from == socketId && m.id == id && m.createdAt == now
  {
    if roomId == "" || audio == "" then None
    else
      var d := if Truthy(duration) then duration else JsNumber(0);
      var mt := if mimeType != "" then mimeType else "audio/webm";
      Some(ChatVoice(id, roomId, audio, d, mt, NameOrUser(userName), socketId, now))
  }

  /** `chat:react` runs only with a room, a user name, a message id and an emoji. */
  predicate ReactAllowed(roomId: string, userName: string, messageId: string, emoji: string) {
    roomId != "" && userName != "" && messageId != "" && emoji != ""
  }

  /** `chat:history`: the room's history to the requesting socket only. */
  method History(conn: Connection, chat: ChatStore.Store, log: EmitLog)
    modifies log
    ensures conn.roomId == "" ==> log.events == old(log.events)
    ensures conn.roomId != "" ==>
      log.events == old(log.events) + [Emit(ToSelf(conn.id), ChatHistory(ChatStore.HistoryOf(chat.lists, conn.roomId)))]
  {
    var roomId := conn.roomId;
    if roomId == "" {
      return;
    }
    var history := chat.GetHistory(roomId);
    log.Send(ToSelf(conn.id), ChatHistory(history));
  }

  /** `chat:send {text}`: the trimmed text is stored, then the same message
      is broadcast to the whole room, sender included. */
  method Send(conn: Connection, chat: ChatStore.Store, log: EmitLog, text: string, id: string, now: int)
    modifies chat, log
    ensures var r := TextMessage(conn.roomId, conn.userName, conn.id, text, id, now);
      && (r.None? ==> chat.lists == old(chat.lists) && log.events == old(log.events))
      && (r.Some? ==>
           && chat.lists == ChatStore.AfterPush(old(chat.lists), conn.roomId, r.value)
           && log.events == old(log.events) + [Emit(ToRoom(conn.roomId), ChatMessage(r.value))])
  {
    var roomId := conn.roomId;
    if roomId == "" {
      return;
    }
    var clean := Trim(text);
    if clean == "" {
      return;
    }
    var msg := ChatText(id, roomId, clean, NameOrUser(conn.userName), conn.id, now);
    chat.PushMessage(roomId, msg);
    log.Send(ToRoom(roomId), ChatMessage(msg));
  }

  /** `chat:send:voice {audio, duration, mimeType}`. */
  method SendVoice(conn: Connection, chat: ChatStore.Store, log: EmitLog, audio: string,
                   duration: JsValue, mimeType: string, id: string, now: int)
    modifies chat, log
    ensures var r := VoiceMessage(conn.roomId, conn.userName, conn.id, audio, duration, mimeType, id, now);
      && (r.None? ==> chat.lists == old(chat.lists) && log.events == old(log.events))
      && (r.Some? ==>
           && chat.lists == ChatStore.AfterPush(old(chat.lists), conn.roomId, r.value)
           && log.events == old(log.events) + [Emit(ToRoom(conn.roomId), ChatMessage(r.value))])
  {
    var roomId := conn.roomId;
    if roomId == "" {
      return;
    }
    if audio == "" {
      return;
    }
    var msg := ChatVoice(id, roomId, audio, if Truthy(duration) then duration else JsNumber(0),
                         if mimeType != "" then mimeType else "audio/webm", NameOrUser(conn.userName), conn.id, now);
    chat.PushMessage(roomId, msg);
    log.Send(ToRoom(roomId), ChatMessage(msg));
  }

  /** `chat:react {messageId, emoji}`: toggle the connection's user in the
      room's reactions, then tell the room who toggled what. */
  method React(conn: Connection, reactions: ReactionsStore.Store, log: EmitLog, messageId: string, emoji: string)
    modifies reactions, log
    ensures !ReactAllowed(conn.roomId, conn.userName, messageId, emoji) ==>
      reactions.entries == old(reactions.entries) && log.events == old(log.events)
    ensures ReactAllowed(conn.roomId, conn.userName, messageId, emoji) ==>
      && reactions.entries == ReactionsStore.Write(old(reactions.entries), conn.roomId,
           ReactionsService.Toggle(ReactionsStore.Read(old(reactions.entries), conn.roomId), messageId, emoji, conn.userName))
      && log.events == old(log.events) + [Emit(ToRoom(conn.roomId), ChatReaction(messageId, emoji, conn.userName))]
  {
    var roomId := conn.roomId;
    var user := conn.userName;
    if roomId == "" || user == "" || messageId == "" || emoji == "" {
      return;
    }
    var _ := ReactionsService.ToggleReaction(reactions, roomId, messageId, emoji, user);
    log.Send(ToRoom(roomId), ChatReaction(messageId, emoji, user));
  }

  /** `chat:typing {isTyping}`: the status goes to the room without the sender. */
  method Typing(conn: Connection, log: EmitLog, isTyping: JsValue)
    modifies log
    ensures conn.roomId == "" ==> log.events == old(log.events)
    ensures conn.roomId != "" ==>
      log.events == old(log.events) + [Emit(ToRoomExcept(conn.roomId, conn.id), TypingStatus(conn.id, NameOrUser(conn.userName), Truthy(isTyping)))]
  {
    var roomId := conn.roomId;
    var user := NameOrUser(conn.userName);
    if roomId == "" {
      return;
    }
    log.Send(ToRoomExcept(roomId, conn.id), TypingStatus(conn.id, user, Truthy(isTyping)));
  }
}
