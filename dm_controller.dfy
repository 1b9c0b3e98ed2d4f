/** The direct-message handlers (server/socket/controllers/dm.socket.controller.js):
    one conversation per pair of names, keyed by `makeDMId`; messages and
    reactions go to the sender and, when the presence directory has a
    socket for the receiver, to the receiver. */
module DmController {
  import opened Common
  import opened Strings
  import opened Messages
  import opened Socket
  import DmStore
  import PresenceStore
  import ReactionsStore
  import ReactionsService

  /** The comparator `(m, n) => (m > n ? 1 : -1)`. */
  function Compare(m: string, n: string): int {
    if LexLess(n, m) then 1 else -1
  }

  /** `makeDMId(a, b)`: `[a, b]` sorted with the comparator, joined by `:`.
      Sorting two elements puts `b` first exactly when `Compare(b, a) < 0`. */
  function MakeDMId(a: string, b: string): (id: string)
    ensures LexLess(a, b) || a == b ==> id == a + ":" + b
    ensures LexLess(b, a) ==> id == b + ":" + a
  {
    LexLessTrichotomy(a, b);
    var pair := if Compare(b, a) < 0 then [b, a] else [a, b];
    pair[0] + ":" + pair[1]
  }

  /** Both participants compute the same conversation id. */
  lemma MakeDMIdSymmetric(a: string, b: string)
    ensures MakeDMId(a, b) == MakeDMId(b, a)
  {
    LexLessTrichotomy(a, b);
  }

  /** The id does not determine the pair when a name contains `:`: "a"
      writing to "b:c" shares the conversation of "a:b" writing to "c". */
  lemma MakeDMIdCollision()
    ensures MakeDMId("a", "b:c") == MakeDMId("a:b", "c") == "a:b:c"
  {
    assert LexLess("a", "b:c");
    assert LexLess("a:b", "c");
  }

  /** The message `dm:send {toUser, text}` stores, or `None` when the
      sender or receiver name is missing or the trimmed text is blank. */
  function DirectMessage(fromUser: string, toUser: string, text: string, id: string, now: int)
    : (r: Option<Message>)
    ensures r.None? <==> fromUser == "" || toUser == "" || AllSpace(text)
    ensures r.Some? ==> var m := r.value;
      && m.Direct? && m.text == Trim(text) && m.text != "" && m.user == fromUser && m.to == toUser
      && m.dmId == MakeDMId(fromUser, toUser) && m.id == id && m.createdAt == now
  {
    if fromUser == "" || toUser == "" then None
    else
      var clean := Trim(text);
      TrimEmptyIff(text);
      if clean == "" then None
      else Some(Direct(id, MakeDMId(fromUser, toUser), clean, fromUser, toUser, now))
  }

  /** The emits that tell both sides: the sender always, the receiver when online. */
  function BothSides(self: string, receiver: Option<string>, ev: Event): (es: seq<Emit>)
    ensures |es| >= 1 && es[0] == Emit(ToSelf(self), ev)
    ensures |es| == 2 <==> receiver.Some? && receiver.value != ""
    ensures |es| == 2 ==> es[1] == Emit(ToRoom(receiver.value), ev)
  {
    if receiver.Some? && receiver.value != "" then [Emit(ToSelf(self), ev), Emit(ToRoom(receiver.value), ev)]
    else [Emit(ToSelf(self), ev)]
  }

  /** `dm:history {toUser}`: `{dmId, history}` to the requester only. */
  method History(conn: Connection, dms: DmStore.Store, log: EmitLog, toUser: string)
    modifies log
    ensures conn.userName == "" || toUser == "" ==> log.events == old(log.events)
    ensures conn.userName != "" && toUser != "" ==>
      var dmId := MakeDMId(conn.userName, toUser);
      log.events == old(log.events) + [Emit(ToSelf(conn.id), DmHistory(dmId, DmStore.HistoryOf(dms.lists, dmId)))]
  {
    var fromUser := conn.userName;
    if fromUser == "" || toUser == "" {
      return;
    }
    var dmId := MakeDMId(fromUser, toUser);
    var history := dms.GetDMHistory(dmId);
    log.Send(ToSelf(conn.id), DmHistory(dmId, history));
  }

  /** `dm:send {toUser, text}`: store, echo to the sender, deliver to the
      receiver's socket when the presence directory has one. */
  method Send(conn: Connection, dms: DmStore.Store, presence: PresenceStore.Store, log: EmitLog,
              toUser: string, text: string, id: string, now: int)
    modifies dms, log
    ensures var r := DirectMessage(conn.userName, toUser, text, id, now);
      && (r.None? ==> dms.lists == old(dms.lists) && log.events == old(log.events))
      && (r.Some? ==>
           && dms.lists == DmStore.AfterPush(old(dms.lists), r.value.dmId, r.value)
           && log.events == old(log.events) +
                BothSides(conn.id, PresenceStore.Lookup(presence.entries, toUser), DmMessage(r.value)))
  {
    var fromUser := conn.userName;
    if fromUser == "" || toUser == "" {
      return;
    }
    var clean := Trim(text);
    if clean == "" {
      assert DirectMessage(fromUser, toUser, text, id, now).None?;
      return;
    }
    var dmId := MakeDMId(fromUser, toUser);
    var msg := Direct(id, dmId, clean, fromUser, toUser, now);
    assert DirectMessage(fromUser, toUser, text, id, now) == Some(msg);
    dms.PushDM(dmId, msg);
    TellBoth(conn.id, presence, log, toUser, DmMessage(msg));
  }

  /** `dm:react {toUser, messageId, emoji}`: toggle under the shared
      conversation id, then tell both sides. */
  method React(conn: Connection, reactions: ReactionsStore.Store, presence: PresenceStore.Store, log: EmitLog,
               toUser: string, messageId: string, emoji: string)
    modifies reactions, log
    ensures conn.userName == "" || toUser == "" || messageId == "" || emoji == "" ==>
      reactions.entries == old(reactions.entries) && log.events == old(log.events)
    ensures conn.userName != "" && toUser != "" && messageId != "" && emoji != "" ==>
      var dmId := MakeDMId(conn.userName, toUser);
      && reactions.entries == ReactionsStore.Write(old(reactions.entries), dmId,
           ReactionsService.Toggle(ReactionsStore.Read(old(reactions.entries), dmId), messageId, emoji, conn.userName))
      && log.events == old(log.events) +
           BothSides(conn.id, PresenceStore.Lookup(presence.entries, toUser), DmReaction(messageId, emoji, conn.userName))
  {
    var fromUser := conn.userName;
    if fromUser == "" || toUser == "" || messageId == "" || emoji == "" {
      return;
    }
    var dmId := MakeDMId(fromUser, toUser);
    var _ := ReactionsService.ToggleReaction(reactions, dmId, messageId, emoji, fromUser);
    TellBoth(conn.id, presence, log, toUser, DmReaction(messageId, emoji, fromUser));
  }

  /** The delivery both handlers end with: the event to the sender's own
      socket, then to the receiver's socket when the presence store has one. */
  method TellBoth(self: string, presence: PresenceStore.Store, log: EmitLog, toUser: string, ev: Event)
    modifies log
    ensures log.events == old(log.events) + BothSides(self, PresenceStore.Lookup(presence.entries, toUser), ev)
  {
    ghost var before := log.events;
    log.Send(ToSelf(self), ev);
    var toSocket := presence.GetUserSocket(toUser);
    if toSocket.Some? && toSocket.value != "" {
      log.Send(ToRoom(toSocket.value), ev);
    }
    assert log.events == before + BothSides(self, toSocket, ev);
  }
}
