/** The room presence handlers (server/socket/controllers/room.socket.controller.js):
    `room:join` and `disconnecting`. Room membership lives in a service
    whose store functions are not part of this model, so the member list
    it returns is a parameter. */
module RoomController {
  import opened Common
  import opened Strings
  import opened Seqs
  import opened Messages
  import opened Socket
  import opened BoundedHistory
  import ChatStore
  import PresenceStore

  /** The system note a join stores and broadcasts. */
  function JoinNote(id: string, roomId: string, name: string, now: int): Message {
    SystemNote(id, roomId, name + " joined the room", now)
  }

  /** The system note a departure stores and broadcasts. */
  function LeaveNote(id: string, roomId: string, name: string, now: int): Message {
    SystemNote(id, roomId, name + " left the room", now)
  }

  /** `room:join` goes ahead only with a room id and a name that is not
      blank once trimmed. */
  predicate JoinAllowed(roomId: string, rawName: string) {
    roomId != "" && Trim(rawName) != ""
  }

  lemma JoinAllowedIff(roomId: string, rawName: string)
    ensures JoinAllowed(roomId, rawName) <==> roomId != "" && !AllSpace(rawName)
  {
    TrimEmptyIff(rawName);
  }

  /** The history a joiner receives is read before its own join note is
      stored: the note is not in it, and the next read ends with it. */
  lemma JoinHistoryExcludesNote(lists: map<string, seq<Message>>, roomId: string, note: Message)
    requires ChatStore.Bounded(lists)
    requires note !in ChatStore.Stored(lists, roomId)
    ensures note !in ChatStore.HistoryOf(lists, roomId)
    ensures var h := ChatStore.HistoryOf(ChatStore.AfterPush(lists, roomId, note), roomId);
      |h| > 0 && h[|h| - 1] == note
  {
    var l := ChatStore.Stored(lists, roomId);
    ChatStore.HistoryIsReversed(lists, roomId);
    var h := ChatStore.HistoryOf(lists, roomId);
    forall i | 0 <= i < |h| ensures h[i] != note {
      assert h[i] == l[|l| - 1 - i];
    }
    ChatStore.HistoryEndsWithPushed(lists, roomId, note);
  }

  /** `room:join {roomId, user}`. */
  method Join(conn: Connection, presence: PresenceStore.Store, chat: ChatStore.Store, log: EmitLog,
              roomId: string, rawName: string, users: seq<Member>, id: string, now: int)
    modifies conn`roomId, conn`userName, conn`rooms, presence, chat, log
    ensures !JoinAllowed(roomId, rawName) ==>
      && conn.roomId == old(conn.roomId) && conn.userName == old(conn.userName) && conn.rooms == old(conn.rooms)
      && presence.entries == old(presence.entries) && chat.lists == old(chat.lists) && log.events == old(log.events)
    ensures JoinAllowed(roomId, rawName) ==>
      var name := Trim(rawName);
      var note := JoinNote(id, roomId, name, now);
      && conn.roomId == roomId && conn.userName == name && conn.rooms == old(conn.rooms) + {roomId}
      && presence.entries == PresenceStore.Online(old(presence.entries), name, conn.id)
      && chat.lists == ChatStore.AfterPush(old(chat.lists), roomId, note)
      && log.events == old(log.events) + [
           Emit(ToRoom(roomId), RoomUsers(users)),
           Emit(ToSelf(conn.id), ChatHistory(ChatStore.HistoryOf(old(chat.lists), roomId))),
           Emit(ToRoom(roomId), ChatMessage(note))]
  {
    var name := Trim(rawName);
    if roomId == "" || name == "" {
      return;
    }
    EnterRoom(conn, presence, roomId, name);
    AnnounceJoin(conn.id, chat, log, roomId, name, users, id, now);
  }

  /** The first half of `room:join`: record the room and name on the
      connection, mark the user online and join the socket room. */
  method EnterRoom(conn: Connection, presence: PresenceStore.Store, roomId: string, name: string)
    modifies conn`roomId, conn`userName, conn`rooms, presence
    ensures conn.roomId == roomId && conn.userName == name && conn.rooms == old(conn.rooms) + {roomId}
    ensures presence.entries == PresenceStore.Online(old(presence.entries), name, conn.id)
  {
    conn.roomId := roomId;
    conn.userName := name;
    presence.SetOnline(name, conn.id);
    conn.rooms := conn.rooms + {roomId};
  }

  /** The second half of `room:join`: the member list to the room, the
      history to the joiner, then the join note stored and broadcast. */
  method AnnounceJoin(self: string, chat: ChatStore.Store, log: EmitLog,
                      roomId: string, name: string, users: seq<Member>, id: string, now: int)
    modifies chat, log
    ensures chat.lists == ChatStore.AfterPush(old(chat.lists), roomId, JoinNote(id, roomId, name, now))
    ensures log.events == old(log.events) + [
      Emit(ToRoom(roomId), RoomUsers(users)),
      Emit(ToSelf(self), ChatHistory(ChatStore.HistoryOf(old(chat.lists), roomId))),
      Emit(ToRoom(roomId), ChatMessage(JoinNote(id, roomId, name, now)))]
  {
    ghost var before := log.events;
    log.Send(ToRoom(roomId), RoomUsers(users));
    var history := chat.GetHistory(roomId);
    log.Send(ToSelf(self), ChatHistory(history));
    var msg := JoinNote(id, roomId, name, now);
    chat.PushMessage(roomId, msg);
    log.Send(ToRoom(roomId), ChatMessage(msg));
    assert log.events == before + [Emit(ToRoom(roomId), RoomUsers(users)),
      Emit(ToSelf(self), ChatHistory(history)), Emit(ToRoom(roomId), ChatMessage(msg))];
  }

  /** `disconnecting`: only for a connection that joined a room under a name. */
  method Disconnecting(conn: Connection, presence: PresenceStore.Store, chat: ChatStore.Store, log: EmitLog,
                       users: seq<Member>, id: string, now: int)
    modifies presence, chat, log
    ensures conn.roomId == "" || conn.userName == "" ==>
      presence.entries == old(presence.entries) && chat.lists == old(chat.lists) && log.events == old(log.events)
    ensures conn.roomId != "" && conn.userName != "" ==>
      var note := LeaveNote(id, conn.roomId, conn.userName, now);
      && presence.entries == PresenceStore.Offline(old(presence.entries), conn.userName, conn.id)
      && chat.lists == ChatStore.AfterPush(old(chat.lists), conn.roomId, note)
      && log.events == old(log.events) + [Emit(ToRoom(conn.roomId), RoomUsers(users)), Emit(ToRoom(conn.roomId), ChatMessage(note))]
  {
    var roomId := conn.roomId;
    var name := conn.userName;
    if roomId == "" || name == "" {
      return;
    }
    presence.SetOffline(name, conn.id);
    log.Send(ToRoom(roomId), RoomUsers(users));
    var msg := LeaveNote(id, roomId, name, now);
    chat.PushMessage(roomId, msg);
    log.Send(ToRoom(roomId), ChatMessage(msg));
  }
}
