/** The call signalling relay (server/socket/controllers/call.socket.controller.js):
    a process-wide directory from user name to socket id, filled by
    `user:online`, and handlers that forward call and WebRTC messages to the
    socket registered for the `to` name. */
module CallController {
  import opened Common
  import opened Socket

  /** The module-level `onlineUsers` Map: user name to socket id. */
  class OnlineUsers {
    var sockets: map<string, string>

    /** A falsy name is never registered. */
    ghost predicate Valid()
      reads this
    {
      "" !in sockets
    }

    constructor ()
      ensures sockets == map[] && Valid()
    {
      sockets := map[];
    }
  }

  /** `getSocketId(to)`, with the truthiness test every handler applies. */
  function Route(sockets: map<string, string>, to: string): Option<string> {
    if to in sockets && sockets[to] != "" then Some(sockets[to]) else None
  }

  /** The directory after `user:online` with `name` on socket `socketId`. */
  function Registered(sockets: map<string, string>, name: string, socketId: string): map<string, string> {
    if name == "" then sockets else sockets[name := socketId]
  }

  /** The directory after `disconnect` of a socket whose `data.username` is `username`. */
  function Unregistered(sockets: map<string, string>, username: string): map<string, string> {
    if username == "" then sockets else sockets - {username}
  }

  /** What `call:request` emits: `call:unavailable {to}` back to the caller
      when the name has no socket, else `call:incoming {from}` to the callee. */
  function RequestEmits(sockets: map<string, string>, self: string, from: string, to: string): (es: seq<Emit>)
    ensures |es| == 1
    ensures es[0].target == ToSelf(self) <==> Route(sockets, to).None?
    ensures Route(sockets, to).None? ==> es[0].event == CallUnavailable(to)
    ensures Route(sockets, to).Some? ==> es[0] == Emit(ToRoom(Route(sockets, to).value), CallIncoming(from))
  {
    match Route(sockets, to)
    case None => [Emit(ToSelf(self), CallUnavailable(to))]
    case Some(s) => [Emit(ToRoom(s), CallIncoming(from))]
  }

  /** What a forwarding handler emits: `ev` to the callee's socket, or nothing. */
  function Forwarded(sockets: map<string, string>, to: string, ev: Event): (es: seq<Emit>)
    ensures es == [] <==> Route(sockets, to).None?
    ensures forall i :: 0 <= i < |es| ==> es[i] == Emit(ToRoom(Route(sockets, to).value), ev)
    ensures |es| <= 1
  {
    match Route(sockets, to)
    case None => []
    case Some(s) => [Emit(ToRoom(s), ev)]
  }

  /** Registering and unregistering never make `""` a key. */
  lemma DirectoryValid(sockets: map<string, string>, name: string, socketId: string, username: string)
    requires "" !in sockets
    ensures "" !in Registered(sockets, name, socketId)
    ensures "" !in Unregistered(sockets, username)
  {
  }

  /** `user:online` with a falsy name changes nothing; otherwise the name
      now routes to this socket, whatever it routed to before, and every
      other name routes as before. */
  lemma RegisteredRoutes(sockets: map<string, string>, name: string, socketId: string, other: string)
    requires socketId != ""
    ensures name == "" ==> Registered(sockets, name, socketId) == sockets
    ensures name != "" ==> Route(Registered(sockets, name, socketId), name) == Some(socketId)
    ensures other != name ==> Route(Registered(sockets, name, socketId), other) == Route(sockets, other)
  {
  }

  /** `disconnect` removes the name outright, even when a newer connection
      has registered it since: that connection becomes unreachable (compare
      `PresenceStore.ReconnectSurvivesLateOffline`). */
  lemma DisconnectDropsNewerSocket(sockets: map<string, string>, name: string, s1: string, s2: string)
    requires name != "" && s1 != s2
    ensures var newer := Registered(Registered(sockets, name, s1), name, s2);
      && Route(newer, name) == (if s2 == "" then None else Some(s2))
      && Route(Unregistered(newer, name), name) == None
  {
  }

  /** `disconnect` leaves every other name as it was. */
  lemma DisconnectOtherNames(sockets: map<string, string>, username: string, other: string)
    requires other != username
    ensures Route(Unregistered(sockets, username), other) == Route(sockets, other)
  {
  }

  /** `user:online {name}`. */
  method UserOnline(conn: Connection, online: OnlineUsers, name: string)
    modifies conn, online
    ensures online.sockets == Registered(old(online.sockets), name, conn.id)
    ensures conn.username == (if name == "" then old(conn.username) else name)
    ensures conn.roomId == old(conn.roomId) && conn.userName == old(conn.userName) && conn.rooms == old(conn.rooms)
    ensures old(online.Valid()) ==> online.Valid()
  {
    if name == "" {
      return;
    }
    conn.username := name;
    online.sockets := online.sockets[name := conn.id];
  }

  /** `call:request {to}`. */
  method CallRequest(conn: Connection, online: OnlineUsers, log: EmitLog, to: string)
    modifies log
    ensures log.events == old(log.events) + RequestEmits(online.sockets, conn.id, conn.username, to)
  {
    var target := Route(online.sockets, to);
    if target.None? {
      log.Send(ToSelf(conn.id), CallUnavailable(to));
      return;
    }
    log.Send(ToRoom(target.value), CallIncoming(conn.username));
  }

  /** The shared shape of the forwarding handlers: emit `ev` to the socket of `to` when there is one. */
  method Forward(online: OnlineUsers, log: EmitLog, to: string, ev: Event)
    modifies log
    ensures log.events == old(log.events) + Forwarded(online.sockets, to, ev)
  {
    var target := Route(online.sockets, to);
    if target.Some? {
      log.Send(ToRoom(target.value), ev);
    }
  }

  /** `call:accept {to}`: forwards `call:accepted {from}`. */
  method CallAccept(conn: Connection, online: OnlineUsers, log: EmitLog, to: string)
    modifies log
    ensures log.events == old(log.events) + Forwarded(online.sockets, to, CallAccepted(conn.username))
  {
    Forward(online, log, to, CallAccepted(conn.username));
  }

  /** `call:reject {to}`: forwards `call:rejected {from}`. */
  method CallReject(conn: Connection, online: OnlineUsers, log: EmitLog, to: string)
    modifies log
    ensures log.events == old(log.events) + Forwarded(online.sockets, to, CallRejected(conn.username))
  {
    Forward(online, log, to, CallRejected(conn.username));
  }

  /** `call:end {to}`: forwards `call:ended {from}`; the caller's duration is not passed on. */
  method CallEnd(conn: Connection, online: OnlineUsers, log: EmitLog, to: string)
    modifies log
    ensures log.events == old(log.events) + Forwarded(online.sockets, to, CallEnded(conn.username))
  {
    Forward(online, log, to, CallEnded(conn.username));
  }

  /** `webrtc:offer {to, offer}`: the offer is forwarded unchanged. */
  method OfferRelay(conn: Connection, online: OnlineUsers, log: EmitLog, to: string, offer: JsValue)
    modifies log
    ensures log.events == old(log.events) + Forwarded(online.sockets, to, WebrtcOffer(conn.username, offer))
  {
    Forward(online, log, to, WebrtcOffer(conn.username, offer));
  }

  /** `webrtc:answer {to, answer}`. */
  method AnswerRelay(conn: Connection, online: OnlineUsers, log: EmitLog, to: string, answer: JsValue)
    modifies log
    ensures log.events == old(log.events) + Forwarded(online.sockets, to, WebrtcAnswer(conn.username, answer))
  {
    Forward(online, log, to, WebrtcAnswer(conn.username, answer));
  }

  /** `webrtc:ice {to, candidate}`. */
  method IceRelay(conn: Connection, online: OnlineUsers, log: EmitLog, to: string, candidate: JsValue)
    modifies log
    ensures log.events == old(log.events) + Forwarded(online.sockets, to, WebrtcIce(conn.username, candidate))
  {
    Forward(online, log, to, WebrtcIce(conn.username, candidate));
  }

  /** `disconnect`: the connection's name is deleted from the directory. */
  method Disconnect(conn: Connection, online: OnlineUsers)
    modifies online
    ensures online.sockets == Unregistered(old(online.sockets), conn.username)
    ensures old(online.Valid()) ==> online.Valid()
  {
    if conn.username != "" {
      online.sockets := online.sockets - {conn.username};
    }
  }
}
