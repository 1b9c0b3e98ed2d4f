/** The typing indicator with auto-expiry (server/socket/controllers/typing.socket.controller.js):
    every status goes to the whole room, and a "typing" status arms a
    2-second timer that announces "stopped". One timer per connection. */
module TypingController {
  import opened Common
  import opened Socket

  /** What the armed timer will announce: the room and name captured when it was set. */
  datatype Expiry = Expiry(roomId: string, user: string)

  /** The connection's `typingTimeout`. `None` is no pending timer; a real
      clock is replaced by `Fire`. */
  class TypingTimer {
    var pending: Option<Expiry>

    constructor ()
      ensures pending == None
    {
      pending := None;
    }
  }

  /** The pending timer after a typing event: cleared, then re-armed when
      `isTyping` is truthy. Without a room nothing is touched. */
  function NextTimer(pending: Option<Expiry>, roomId: string, user: string, isTyping: JsValue): (r: Option<Expiry>)
    ensures roomId == "" ==> r == pending
    ensures roomId != "" ==> (r.Some? <==> Truthy(isTyping))
    ensures r.Some? && roomId != "" ==> r.value == Expiry(roomId, user)
  {
    if roomId == "" then pending
    else if Truthy(isTyping) then Some(Expiry(roomId, user))
    else None
  }

  /** `chat:typing {isTyping}`. */
  method Typing(conn: Connection, timer: TypingTimer, log: EmitLog, isTyping: JsValue)
    modifies timer, log
    ensures timer.pending == NextTimer(old(timer.pending), conn.roomId, NameOrUser(conn.userName), isTyping)
    ensures conn.roomId == "" ==> log.events == old(log.events)
    ensures conn.roomId != "" ==>
      log.events == old(log.events) + [Emit(ToRoom(conn.roomId), TypingStatus(conn.id, NameOrUser(conn.userName), Truthy(isTyping)))]
  {
    var roomId := conn.roomId;
    var user := NameOrUser(conn.userName);
    if roomId == "" {
      return;
    }
    log.Send(ToRoom(roomId), TypingStatus(conn.id, user, Truthy(isTyping)));
    timer.pending := None;
    if Truthy(isTyping) {
      timer.pending := Some(Expiry(roomId, user));
    }
  }

  /** The 2-second timer fires: "stopped typing" goes to the captured room. */
  method Fire(conn: Connection, timer: TypingTimer, log: EmitLog)
    requires timer.pending.Some?
    modifies timer, log
    ensures timer.pending == None
    ensures log.events == old(log.events) +
      [Emit(ToRoom(old(timer.pending).value.roomId), TypingStatus(conn.id, old(timer.pending).value.user, false))]
  {
    var e := timer.pending.value;
    log.Send(ToRoom(e.roomId), TypingStatus(conn.id, e.user, false));
    timer.pending := None;
  }

  /** `disconnect`: the pending timer is cancelled. */
  method Disconnect(timer: TypingTimer)
    modifies timer
    ensures timer.pending == None
  {
    timer.pending := None;
  }
}
