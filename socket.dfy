/** The socket.io side of the server as the controllers use it: where an
    emit goes, what it carries, the per-connection `socket.data`, and the
    log of everything emitted so far. */
module Socket {
  import opened Common
  import opened Messages

  /** `socket.emit` (the connection itself), `io.to(x).emit` (every socket
      in room `x`; a socket id names its own room), and
      `socket.to(room).emit` (the room without the sender). */
  datatype Target = ToSelf(socketId: string) | ToRoom(room: string) | ToRoomExcept(room: string, except: string)

  /** One entry of a room's member list (`joinRoom`/`leaveRoom` results). */
  datatype Member = Member(socketId: string, name: string)

  /** The events the server emits, with their payloads. */
  datatype Event =
    | CallUnavailable(to: string)
    | CallIncoming(from: string)
    | CallAccepted(from: string)
    | CallRejected(from: string)
    | CallEnded(from: string)
    | WebrtcOffer(from: string, offer: JsValue)
    | WebrtcAnswer(from: string, answer: JsValue)
    | WebrtcIce(from: string, candidate: JsValue)
    | ChatHistory(history: seq<Message>)
    | ChatMessage(msg: Message)
    | ChatReaction(messageId: string, emoji: string, user: string)
    | TypingStatus(socketId: string, user: string, isTyping: bool)
    | DmHistory(dmId: string, dmHistory: seq<Message>)
    | DmMessage(dm: Message)
    | DmReaction(dmMessageId: string, dmEmoji: string, dmUser: string)
    | RoomUsers(users: seq<Member>)

  datatype Emit = Emit(target: Target, event: Event)

  /** Everything emitted, in order. */
  class EmitLog {
    var events: seq<Emit>

    constructor ()
      ensures events == []
    {
      events := [];
    }

    method Send(target: Target, event: Event)
      modifies this
      ensures events == old(events) + [Emit(target, event)]
    {
      events := events + [Emit(target, event)];
    }
  }

  /** One connected socket: its id and `socket.data`. A missing
      `data.user`/`data.username`/`data.roomId` is `""`, which every handler
      tests as falsy. */
  class Connection {
    /** `socket.id`. */
    const id: string
    /** `socket.data.roomId`. */
    var roomId: string
    /** `socket.data.user?.name`. */
    var userName: string
    /** `socket.data.username`, set by the call controller. */
    var username: string
    /** The rooms joined with `socket.join`. */
    var rooms: set<string>

    constructor (id: string)
      ensures this.id == id && roomId == "" && userName == "" && username == "" && rooms == {}
    {
      this.id := id;
      roomId := "";
      userName := "";
      username := "";
      rooms := {};
    }
  }

  /** `x || "User"`: the display name when the connection has none. */
  function NameOrUser(name: string): (r: string)
    ensures r != ""
    ensures name != "" ==> r == name
  {
    if name == "" then "User" else name
  }
}
