/** The room page of the client (client/src/pages/VoiceRoom.jsx): the state
    it keeps from server events (members, messages, typing, reactions, the
    direct-message view) and the guards on what it sends. */
module VoiceRoom {
  import opened Common
  import opened Strings
  import opened Seqs
  import opened Messages
  import opened ReactionsStore
  import opened ReactionsService

  // ---------------------------------------------------------------------------
  // Reactions: the `onReaction` / `onDMReaction` reducer

  /** The client's reducer: remove every occurrence of `user` when present
      (pruning an emptied bucket and an emptied message), append otherwise. */
  function ClientToggle(prev: ReactionMap, messageId: string, emoji: string, user: string): (r: ReactionMap)
    ensures user in AuthorsOf(prev, messageId, emoji) ==>
      AuthorsOf(r, messageId, emoji) == RemoveAll(AuthorsOf(prev, messageId, emoji), user)
    ensures user !in AuthorsOf(prev, messageId, emoji) ==>
      AuthorsOf(r, messageId, emoji) == AuthorsOf(prev, messageId, emoji) + [user]
  {
    var msgReacts := BucketsOf(prev, messageId);
    var emojiUsers := AuthorsOf(prev, messageId, emoji);
    if user in emojiUsers then
      var filtered := RemoveAll(emojiUsers, user);
      if |filtered| == 0 then
        var rest := msgReacts - {emoji};
        if |rest| == 0 then prev - {messageId} else prev[messageId := rest]
      else prev[messageId := msgReacts[emoji := filtered]]
    else prev[messageId := msgReacts[emoji := emojiUsers + [user]]]
  }

  /** The reducer never leaves an empty bucket or an empty message entry at the touched place. */
  lemma ClientTogglePrunes(prev: ReactionMap, messageId: string, emoji: string, user: string)
    ensures var r := ClientToggle(prev, messageId, emoji, user);
      && (messageId in r ==> r[messageId] != map[])
      && (messageId in r && emoji in r[messageId] ==> r[messageId][emoji] != [])
  {
  }

  /** Other messages, and other emojis of the same message, are left as they were. */
  lemma ClientToggleFrame(prev: ReactionMap, messageId: string, emoji: string, user: string)
    ensures var r := ClientToggle(prev, messageId, emoji, user);
      && (forall m :: m != messageId ==> (m in r <==> m in prev) && (m in r ==> r[m] == prev[m]))
      && (forall e :: e != emoji ==> AuthorsOf(r, messageId, e) == AuthorsOf(prev, messageId, e))
  {
    var msg := BucketsOf(prev, messageId);
    var before := AuthorsOf(prev, messageId, emoji);
    if user in before && |RemoveAll(before, user)| == 0 {
      forall e | e != emoji ensures AuthorsOf(ClientToggle(prev, messageId, emoji, user), messageId, e) == AuthorsOf(prev, messageId, e) {
        assert e in msg - {emoji} <==> e in msg;
      }
    }
  }

  /** On a bucket without duplicates the client's reducer and the server's
      `toggleReaction` produce the same map, so a client that applies every
      broadcast toggle stays in step with the server. */
  lemma ClientServerAgree(prev: ReactionMap, messageId: string, emoji: string, user: string)
    requires NoDup(AuthorsOf(prev, messageId, emoji))
    ensures ClientToggle(prev, messageId, emoji, user) == Toggle(prev, messageId, emoji, user)
  {
    var before := AuthorsOf(prev, messageId, emoji);
    if user in before {
      RemoveAllOnce(before, user);
    }
  }

  /** With a duplicate in the bucket the two differ: the server removes one
      copy, the client every copy. */
  lemma ClientServerDifferOnDuplicates()
    ensures var prev: ReactionMap := map["m" := map["👍" := ["ann", "ann"]]];
      && AuthorsOf(ClientToggle(prev, "m", "👍", "ann"), "m", "👍") == []
      && AuthorsOf(Toggle(prev, "m", "👍", "ann"), "m", "👍") == ["ann"]
  {
    var prev: ReactionMap := map["m" := map["👍" := ["ann", "ann"]]];
    assert RemoveAll(["ann", "ann"], "ann") == [];
    assert IndexOf(["ann", "ann"], "ann") == 0;
    assert RemoveAt(["ann", "ann"], 0) == ["ann"];
  }

  /** Maps the server writes stay well-formed under the client's reducer. */
  lemma ClientToggleWellFormed(prev: ReactionMap, messageId: string, emoji: string, user: string)
    requires WellFormed(prev)
    ensures WellFormed(ClientToggle(prev, messageId, emoji, user))
  {
    ClientServerAgree(prev, messageId, emoji, user);
    ToggleWellFormed(prev, messageId, emoji, user);
  }

  /** A reaction and its repetition cancel out on a well-formed map. */
  lemma ClientToggleTwice(prev: ReactionMap, messageId: string, emoji: string, user: string)
    requires WellFormed(prev)
    requires user !in AuthorsOf(prev, messageId, emoji)
    ensures ClientToggle(ClientToggle(prev, messageId, emoji, user), messageId, emoji, user) == prev
  {
    ClientServerAgree(prev, messageId, emoji, user);
    var once := Toggle(prev, messageId, emoji, user);
    ToggleWellFormed(prev, messageId, emoji, user);
    WellFormedPrunedAt(once, messageId, emoji);
    ClientServerAgree(once, messageId, emoji, user);
    WellFormedPrunedAt(prev, messageId, emoji);
    ToggleTwiceAbsent(prev, messageId, emoji, user);
  }

  // ---------------------------------------------------------------------------
  // Typing: `onTypingStatus`, `typingUsers`, `typingText`

  /** One entry of `typingMap`, in the object's insertion order. */
  datatype Typist = Typist(socketId: string, user: string)

  ghost predicate UniqueSockets(t: seq<Typist>) {
    forall i, j :: 0 <= i < j < |t| ==> t[i].socketId != t[j].socketId
  }

  /** The position of `socketId` in the map, or -1. */
  function FindSocket(t: seq<Typist>, socketId: string): (i: int)
    ensures -1 <= i < |t|
    ensures 0 <= i ==> t[i].socketId == socketId
    ensures i < 0 ==> forall j :: 0 <= j < |t| ==> t[j].socketId != socketId
  {
    if t == [] then -1
    else
      var j := FindSocket(t[1..], socketId);
      if t[0].socketId == socketId then 0 else if j < 0 then -1 else j + 1
  }

  /** `onTypingStatus`: set `socketId -> user` when typing (a present key keeps
      its place), delete the key otherwise. */
  function TypingSet(prev: seq<Typist>, socketId: string, user: string, isTyping: bool): seq<Typist> {
    if isTyping then
      var i := FindSocket(prev, socketId);
      if i >= 0 then prev[i := Typist(socketId, user)] else prev + [Typist(socketId, user)]
    else RemoveSocket(prev, socketId)
  }

  /** `delete next[socketId]`. */
  function RemoveSocket(t: seq<Typist>, socketId: string): (r: seq<Typist>)
    ensures forall e :: e in r <==> e in t && e.socketId != socketId
  {
    if t == [] then []
    else
      var rest := RemoveSocket(t[1..], socketId);
      assert forall e :: e in t <==> e == t[0] || e in t[1..];
      if t[0].socketId == socketId then rest else [t[0]] + rest
  }

  lemma {:induction false} RemoveSocketUnique(t: seq<Typist>, socketId: string)
    requires UniqueSockets(t)
    ensures UniqueSockets(RemoveSocket(t, socketId))
  {
    if t != [] {
      var tail := t[1..];
      assert UniqueSockets(tail) by {
        forall i, j | 0 <= i < j < |tail| ensures tail[i].socketId != tail[j].socketId {
          assert tail[i] == t[i + 1] && tail[j] == t[j + 1];
        }
      }
      RemoveSocketUnique(tail, socketId);
      var rest := RemoveSocket(tail, socketId);
      if t[0].socketId != socketId {
        forall k | 0 <= k < |rest| ensures t[0].socketId != rest[k].socketId {
          assert rest[k] in tail;
          var j :| 0 <= j < |tail| && tail[j] == rest[k];
          assert t[j + 1] == rest[k];
        }
        ConsUnique(t[0], rest);
      }
    }
  }

  /** Putting a socket not among `rest`'s in front keeps the keys unique. */
  lemma ConsUnique(x: Typist, rest: seq<Typist>)
    requires UniqueSockets(rest)
    requires forall k :: 0 <= k < |rest| ==> x.socketId != rest[k].socketId
    ensures UniqueSockets([x] + rest)
  {
    var r := [x] + rest;
    forall i, j | 0 <= i < j < |r| ensures r[i].socketId != r[j].socketId {
      if i > 0 {
        assert r[i] == rest[i - 1] && r[j] == rest[j - 1];
      } else {
        assert r[j] == rest[j - 1];
      }
    }
  }

  /** After the update `socketId` maps to `user` exactly when typing, and no
      other socket's entry changes; keys stay unique. */
  lemma TypingSetEntries(prev: seq<Typist>, socketId: string, user: string, isTyping: bool)
    requires UniqueSockets(prev)
    ensures var r := TypingSet(prev, socketId, user, isTyping);
      && UniqueSockets(r)
      && (forall v :: Typist(socketId, v) in r <==> isTyping && v == user)
      && (forall k, v :: k != socketId ==> (Typist(k, v) in r <==> Typist(k, v) in prev))
  {
    var r := TypingSet(prev, socketId, user, isTyping);
    if isTyping {
      var i := FindSocket(prev, socketId);
      if i >= 0 {
        forall k, v | k != socketId ensures Typist(k, v) in r <==> Typist(k, v) in prev {
          if Typist(k, v) in prev {
            var j :| 0 <= j < |prev| && prev[j] == Typist(k, v);
            assert r[j] == prev[j];
          }
          if Typist(k, v) in r {
            var j :| 0 <= j < |r| && r[j] == Typist(k, v);
            assert j != i && prev[j] == r[j];
          }
        }
        forall v | Typist(socketId, v) in r ensures v == user {
          var j :| 0 <= j < |r| && r[j] == Typist(socketId, v);
          assert j == i;
        }
        assert r[i] == Typist(socketId, user);
      } else {
        assert r[|prev|] == Typist(socketId, user);
      }
    } else {
      RemoveSocketUnique(prev, socketId);
    }
  }

  /** `Object.values(typingMap)`. */
  function Values(t: seq<Typist>): (r: seq<string>)
    ensures |r| == |t| && forall i :: 0 <= i < |t| ==> r[i] == t[i].user
  {
    seq(|t|, i requires 0 <= i < |t| => t[i].user)
  }

  /** `[...new Set(Object.values(typingMap))].filter(Boolean)`: each typing
      user once, no empty name, and every non-empty value of the map. */
  function TypingUsers(t: seq<Typist>): (r: seq<string>)
    ensures NoDup(r) && "" !in r
    ensures forall i :: 0 <= i < |r| ==> exists j :: 0 <= j < |t| && t[j].user == r[i]
    ensures forall j :: 0 <= j < |t| && t[j].user != "" ==> t[j].user in r
  {
    var d := Dedup(Values(t));
    FilterNoDup(d, (u: string) => u != "");
    var r := Filter(d, (u: string) => u != "");
    assert forall i :: 0 <= i < |r| ==> r[i] in Values(t);
    r
  }

  /** `xs.join(sep)`. */
  function JoinWith(xs: seq<string>, sep: string): string {
    if |xs| == 0 then "" else if |xs| == 1 then xs[0] else xs[0] + sep + JoinWith(xs[1..], sep)
  }

  /** The suffix as the file spells it: the three characters a UTF-8
      ellipsis becomes when read as Windows-1252. */
  const TypingSuffix: string := " typing\U{00E2}\U{20AC}\U{00A6}"

  /** `typingText`. */
  function TypingText(users: seq<string>): (r: string)
    ensures |users| > 0 ==> r == JoinWith(users, ", ") + TypingSuffix
  {
    if |users| > 0 then JoinWith(users, ", ") + TypingSuffix else ""
  }

  /** The typing line is blank exactly when nobody with a name is typing. */
  lemma TypingTextEmptyIff(t: seq<Typist>)
    ensures TypingText(TypingUsers(t)) == "" <==> forall j :: 0 <= j < |t| ==> t[j].user == ""
  {
    var u := TypingUsers(t);
    if |u| > 0 {
      var j :| 0 <= j < |t| && t[j].user == u[0];
    }
  }

  lemma TypingTextTwoUsers()
    ensures TypingText(["ann", "bo"]) == "ann, bo" + TypingSuffix
  {
  }

  // ---------------------------------------------------------------------------
  // Names: `normalizeName`, the `knownUsers` merge and `dmUsers`

  /** `(name || "").trim().toLowerCase()`. */
  function NormalizeName(name: string): string {
    ToLower(Trim(name))
  }

  /** An entry of the `room:users` list: the name is `u.user.name || u.name`. */
  datatype UserEntry = UserEntry(nestedName: string, name: string)

  function DisplayName(u: UserEntry): string {
    if u.nestedName != "" then u.nestedName else u.name
  }

  /** `users.map(u => u?.user?.name || u?.name).filter(Boolean).map(f)`. */
  function NamesBy(users: seq<UserEntry>, f: string -> string): (r: seq<string>)
    ensures forall x :: x in r <==> exists u :: u in users && DisplayName(u) != "" && x == f(DisplayName(u))
  {
    if users == [] then []
    else
      var rest := NamesBy(users[1..], f);
      assert forall u :: u in users <==> u == users[0] || u in users[1..];
      if DisplayName(users[0]) != "" then [f(DisplayName(users[0]))] + rest else rest
  }

  /** The trimmed member names, as the known-users effect collects them. */
  function Names(users: seq<UserEntry>): (r: seq<string>)
    ensures forall x :: x in r <==> exists u :: u in users && DisplayName(u) != "" && x == Trim(DisplayName(u))
  {
    NamesBy(users, Trim)
  }

  /** The members' names as `onlineUsersSet` holds them: normalized, each once, in first-seen order. */
  function OnlineNames(users: seq<UserEntry>): (r: seq<string>)
    ensures NoDup(r)
    ensures forall x :: x in r <==> exists u :: u in users && DisplayName(u) != "" && x == NormalizeName(DisplayName(u))
  {
    var ns := NamesBy(users, NormalizeName);
    var r := Dedup(ns);
    assert forall x :: x in r <==> x in ns by {
      forall x ensures x in r <==> x in ns {
        if x in ns {
          var i :| 0 <= i < |ns| && ns[i] == x;
        }
        if x in r {
          var i :| 0 <= i < |r| && r[i] == x;
        }
      }
    }
    r
  }

  /** `[...new Set([...a, ...b])].filter(n => normalizeName(n) !== normalizeName(myName))`:
      the union of both lists without duplicates and without the own name. */
  function MergeNames(a: seq<string>, b: seq<string>, myName: string): (r: seq<string>)
    ensures NoDup(r)
    ensures forall x :: x in r <==> (x in a || x in b) && NormalizeName(x) != NormalizeName(myName)
  {
    var keep := (n: string) => NormalizeName(n) != NormalizeName(myName);
    var d := Dedup(a + b);
    FilterNoDup(d, keep);
    var r := Filter(d, keep);
    forall x ensures x in r <==> x in a + b && keep(x) {
      if x in r {
        var i :| 0 <= i < |r| && r[i] == x;
      }
      if x in a + b && keep(x) {
        var i :| 0 <= i < |a + b| && (a + b)[i] == x;
        var k :| 0 <= k < |d| && d[k] == x;
      }
    }
    r
  }

  // ---------------------------------------------------------------------------
  // Sending

  datatype View = RoomView | DmView

  /** Where a text or voice message goes. */
  datatype SendRoute = Refused | RoomChat | DirectTo(user: string)

  /** The guards of `sendMessage` and `sendVoiceMessage`: join first; in the
      DM view a partner must be picked and must not be oneself. */
  function Route(joined: bool, view: View, activeDMUser: string, myName: string): (r: SendRoute)
    ensures r.RoomChat? <==> joined && view.RoomView?
    ensures r.DirectTo? <==>
      joined && view == DmView && activeDMUser != "" && NormalizeName(activeDMUser) != NormalizeName(myName)
    ensures r.DirectTo? ==> r.user == activeDMUser
  {
    if !joined then Refused
    else match view
      case RoomView => RoomChat
      case DmView =>
        if activeDMUser == "" then Refused
        else if NormalizeName(activeDMUser) == NormalizeName(myName) then Refused
        else DirectTo(activeDMUser)
  }

  /** What the page sends to the server. */
  datatype ClientEmit =
    | RoomJoin(roomId: string, name: string)
    | ChatSend(text: string)
    | ChatSendVoice(voice: JsValue)
    | DmSend(toUser: string, text: string)
    | DmSendVoice(toUser: string, voice: JsValue)
    | ChatReact(messageId: string, emoji: string)
    | DmReact(toUser: string, messageId: string, emoji: string)
    | ChatTyping(isTyping: bool)
    | DmHistoryRequest(toUser: string)
    | PresenceMute(muted: bool)
    | RoomLeave

  /** The state of one mounted room page. */
  class RoomPage {
    /** `vc_name` from local storage (`""` when unset). */
    const rawName: string
    /** The own name: `rawName`, trimmed. */
    const myName: string := Trim(rawName)
    const roomId: string
    /** Whether the microphone stream is available. */
    const hasLocalStream: bool

    var users: seq<UserEntry>
    var messages: seq<Message>
    var typing: seq<Typist>
    var reactions: ReactionMap
    var view: View
    /** `activeDMUser`; `""` for none. */
    var activeDMUser: string
    var dmMessages: seq<Message>
    var dmReactions: ReactionMap
    var muted: bool
    var knownUsers: seq<string>
    /** The `vc_known_users` entry of local storage. */
    var storedKnownUsers: seq<string>
    var joinedRef: bool
    var emits: seq<ClientEmit>
    /** The 150 ms leave timers armed by confirmed disconnects and not yet fired. */
    var pendingLeaves: nat
    /** The socket has not been closed by `socket.disconnect()`. */
    var socketOpen: bool
    /** How often `onLeave` has been called. */
    var leaveCalls: nat

    /** Mounting the page; `storedKnown` is what `vc_known_users` parses to (`[]` when it does not).
        The known-users effect runs once at mount, with no members yet. */
    constructor (rawName: string, roomId: string, hasLocalStream: bool, storedKnown: seq<string>)
      ensures this.rawName == rawName && this.roomId == roomId && this.hasLocalStream == hasLocalStream
      ensures users == [] && messages == [] && typing == [] && reactions == map[]
      ensures view == RoomView && activeDMUser == "" && dmMessages == [] && dmReactions == map[]
      ensures !muted && knownUsers == MergeNames(storedKnown, Names([]), myName) && storedKnownUsers == knownUsers
      ensures !joinedRef && emits == []
      ensures pendingLeaves == 0 && socketOpen && leaveCalls == 0
    {
      this.rawName := rawName;
      this.roomId := roomId;
      this.hasLocalStream := hasLocalStream;
      users := [];
      messages := [];
      typing := [];
      reactions := map[];
      view := RoomView;
      activeDMUser := "";
      dmMessages := [];
      dmReactions := map[];
      muted := false;
      var known := MergeNames(storedKnown, Names([]), Trim(rawName));
      knownUsers := known;
      storedKnownUsers := known;
      joinedRef := false;
      emits := [];
      pendingLeaves := 0;
      socketOpen := true;
      leaveCalls := 0;
    }

    /** `joined`: the server has sent a non-empty member list. */
    function Joined(): bool
      reads this`users
    {
      |users| > 0
    }

    /** `dmUsers`: known and online names, each once, without oneself. */
    function DmUsers(): (r: seq<string>)
      reads this`knownUsers, this`users
      ensures NoDup(r)
      ensures forall x :: x in r <==> (x in knownUsers || x in OnlineNames(users)) && NormalizeName(x) != NormalizeName(myName)
    {
      MergeNames(knownUsers, OnlineNames(users), myName)
    }

    /** The join effect: once per mount, and only with a room and a name. */
    method JoinEffect()
      modifies this`joinedRef, this`emits
      ensures roomId == "" || myName == "" || old(joinedRef) ==> joinedRef == old(joinedRef) && emits == old(emits)
      ensures roomId != "" && myName != "" && !old(joinedRef) ==> joinedRef && emits == old(emits) + [RoomJoin(roomId, myName)]
    {
      if roomId == "" || myName == "" {
        return;
      }
      if joinedRef {
        return;
      }
      joinedRef := true;
      emits := emits + [RoomJoin(roomId, myName)];
    }

    /** The join effect's cleanup. */
    method JoinCleanup()
      modifies this`joinedRef
      ensures !joinedRef
    {
      joinedRef := false;
    }

    /** The effect on `users`: merge the member names into `knownUsers` and store them. */
    method SyncKnownUsers()
      modifies this`knownUsers, this`storedKnownUsers
      ensures knownUsers == MergeNames(old(knownUsers), Names(users), myName)
      ensures storedKnownUsers == knownUsers
    {
      knownUsers := MergeNames(knownUsers, Names(users), myName);
      storedKnownUsers := knownUsers;
    }

    /** `room:users`: a list that is not an array (`None`) empties the members. */
    method OnUsers(list: Option<seq<UserEntry>>)
      modifies this`users, this`knownUsers, this`storedKnownUsers
      ensures users == list.GetOr([])
      ensures knownUsers == MergeNames(old(knownUsers), Names(users), myName) && storedKnownUsers == knownUsers
    {
      users := list.GetOr([]);
      SyncKnownUsers();
    }

    /** `chat:history`: only an array replaces the messages. */
    method OnHistory(history: Option<seq<Message>>)
      modifies this`messages
      ensures messages == if history.Some? then history.value else old(messages)
    {
      if history.Some? {
        messages := history.value;
      }
    }

    /** `chat:message`. */
    method OnMessage(msg: Message)
      modifies this`messages
      ensures messages == old(messages) + [msg]
    {
      messages := messages + [msg];
    }

    /** `chat:typing:status`. */
    method OnTypingStatus(socketId: string, user: string, isTyping: bool)
      modifies this`typing
      ensures typing == TypingSet(old(typing), socketId, user, isTyping)
    {
      typing := TypingSet(typing, socketId, user, isTyping);
    }

    /** `dm:history`: only an array replaces the direct messages. */
    method OnDMHistory(history: Option<seq<Message>>)
      modifies this`dmMessages
      ensures dmMessages == if history.Some? then history.value else old(dmMessages)
    {
      if history.Some? {
        dmMessages := history.value;
      }
    }

    /** `dm:message`. */
    method OnDMMessage(msg: Message)
      modifies this`dmMessages
      ensures dmMessages == old(dmMessages) + [msg]
    {
      dmMessages := dmMessages + [msg];
    }

    /** `chat:reaction`. */
    method OnReaction(messageId: string, emoji: string, user: string)
      modifies this`reactions
      ensures reactions == ClientToggle(old(reactions), messageId, emoji, user)
    {
      reactions := ClientToggle(reactions, messageId, emoji, user);
    }

    /** `dm:reaction`: the same reducer on the direct-message reactions. */
    method OnDMReaction(messageId: string, emoji: string, user: string)
      modifies this`dmReactions
      ensures dmReactions == ClientToggle(old(dmReactions), messageId, emoji, user)
    {
      dmReactions := ClientToggle(dmReactions, messageId, emoji, user);
    }

    /** `sendMessage(text)`. */
    method SendMessage(text: string)
      modifies this`emits
      ensures var route := Route(Joined(), view, activeDMUser, myName);
        emits == old(emits) + match route
          case Refused => []
          case RoomChat => [ChatSend(text)]
          case DirectTo(u) => [DmSend(u, text)]
    {
      var route := Route(Joined(), view, activeDMUser, myName);
      match route {
        case Refused =>
        case RoomChat => emits := emits + [ChatSend(text)];
        case DirectTo(u) => emits := emits + [DmSend(u, text)];
      }
    }

    /** `sendVoiceMessage(voiceData)`. */
    method SendVoiceMessage(voice: JsValue)
      modifies this`emits
      ensures var route := Route(Joined(), view, activeDMUser, myName);
        emits == old(emits) + match route
          case Refused => []
          case RoomChat => [ChatSendVoice(voice)]
          case DirectTo(u) => [DmSendVoice(u, voice)]
    {
      var route := Route(Joined(), view, activeDMUser, myName);
      match route {
        case Refused =>
        case RoomChat => emits := emits + [ChatSendVoice(voice)];
        case DirectTo(u) => emits := emits + [DmSendVoice(u, voice)];
      }
    }

    /** `handleReact(messageId, emoji)`: in the DM view only with a partner (no self check). */
    method HandleReact(messageId: string, emoji: string)
      modifies this`emits
      ensures !Joined() || (view == DmView && activeDMUser == "") ==> emits == old(emits)
      ensures Joined() && view == DmView && activeDMUser != "" ==> emits == old(emits) + [DmReact(activeDMUser, messageId, emoji)]
      ensures Joined() && view == RoomView ==> emits == old(emits) + [ChatReact(messageId, emoji)]
    {
      if !Joined() {
        return;
      }
      if view == DmView {
        if activeDMUser == "" {
          return;
        }
        emits := emits + [DmReact(activeDMUser, messageId, emoji)];
        return;
      }
      emits := emits + [ChatReact(messageId, emoji)];
    }

    /** `setTyping(isTyping)`: only when joined and in the room view. */
    method SetTyping(isTyping: bool)
      modifies this`emits
      ensures emits == old(emits) + if Joined() && view == RoomView then [ChatTyping(isTyping)] else []
    {
      if !Joined() {
        return;
      }
      if view != RoomView {
        return;
      }
      emits := emits + [ChatTyping(isTyping)];
    }

    /** `openDM(name)`: not for an empty name nor for oneself. */
    method OpenDM(name: string)
      modifies this`view, this`activeDMUser, this`dmMessages, this`emits
      ensures name == "" || NormalizeName(name) == NormalizeName(myName) ==>
        view == old(view) && activeDMUser == old(activeDMUser) && dmMessages == old(dmMessages) && emits == old(emits)
      ensures name != "" && NormalizeName(name) != NormalizeName(myName) ==>
        view == DmView && activeDMUser == name && dmMessages == [] && emits == old(emits) + [DmHistoryRequest(name)]
    {
      if name == "" {
        return;
      }
      if NormalizeName(name) == NormalizeName(myName) {
        return;
      }
      view := DmView;
      activeDMUser := name;
      dmMessages := [];
      emits := emits + [DmHistoryRequest(name)];
    }

    /** `openRoom()`. */
    method OpenRoom()
      modifies this`view, this`activeDMUser
      ensures view == RoomView && activeDMUser == ""
    {
      view := RoomView;
      activeDMUser := "";
    }

    /** `toggleMute()`: only with a microphone stream; the new state is announced. */
    method ToggleMute()
      modifies this`muted, this`emits
      ensures !hasLocalStream ==> muted == old(muted) && emits == old(emits)
      ensures hasLocalStream ==> muted == !old(muted) && emits == old(emits) + [PresenceMute(muted)]
    {
      if !hasLocalStream {
        return;
      }
      muted := !muted;
      emits := emits + [PresenceMute(muted)];
    }

    /** The state resets of `handleDisconnect()`. */
    method ResetRoom()
      modifies this`users, this`messages, this`typing, this`reactions, this`dmMessages
      modifies this`dmReactions, this`view, this`activeDMUser
      ensures users == [] && messages == [] && typing == [] && reactions == map[]
      ensures dmMessages == [] && dmReactions == map[] && view == RoomView && activeDMUser == ""
    {
      users := [];
      messages := [];
      typing := [];
      reactions := map[];
      dmMessages := [];
      dmReactions := map[];
      view := RoomView;
      activeDMUser := "";
    }

    /** `handleDisconnect()`: declined, nothing happens; once confirmed,
        announce the leave, reset the room state and arm the 150 ms leave
        timer. `users` becoming empty re-runs the known-users effect. */
    method HandleDisconnect(confirmed: bool)
      modifies this`emits, this`users, this`messages, this`typing, this`reactions, this`dmMessages
      modifies this`dmReactions, this`view, this`activeDMUser, this`knownUsers, this`storedKnownUsers
      modifies this`pendingLeaves
      ensures !confirmed ==> unchanged(this)
      ensures confirmed ==>
        && emits == old(emits) + [RoomLeave]
        && users == [] && messages == [] && typing == [] && reactions == map[]
        && dmMessages == [] && dmReactions == map[] && view == RoomView && activeDMUser == ""
        && knownUsers == MergeNames(old(knownUsers), Names([]), myName) && storedKnownUsers == knownUsers
        && pendingLeaves == old(pendingLeaves) + 1
    {
      if confirmed {
        Leave();
      }
    }

    /** The confirmed branch of `handleDisconnect()`. */
    method Leave()
      modifies this`emits, this`users, this`messages, this`typing, this`reactions, this`dmMessages
      modifies this`dmReactions, this`view, this`activeDMUser, this`knownUsers, this`storedKnownUsers
      modifies this`pendingLeaves
      ensures emits == old(emits) + [RoomLeave]
      ensures users == [] && messages == [] && typing == [] && reactions == map[]
      ensures dmMessages == [] && dmReactions == map[] && view == RoomView && activeDMUser == ""
      ensures knownUsers == MergeNames(old(knownUsers), Names([]), myName) && storedKnownUsers == knownUsers
      ensures pendingLeaves == old(pendingLeaves) + 1
    {
      // `users` becomes empty, so the known-users effect runs again with no members
      var known := MergeNames(knownUsers, Names([]), myName);
      emits := emits + [RoomLeave];
      ResetRoom();
      pendingLeaves := pendingLeaves + 1;
      knownUsers := known;
      storedKnownUsers := known;
    }

    /** A leave timer fires: `socket.disconnect()`, then `onLeave()`. */
    method FireLeave()
      requires pendingLeaves > 0
      modifies this`pendingLeaves, this`socketOpen, this`leaveCalls
      ensures pendingLeaves == old(pendingLeaves) - 1 && !socketOpen && leaveCalls == old(leaveCalls) + 1
    {
      pendingLeaves := pendingLeaves - 1;
      socketOpen := false;
      leaveCalls := leaveCalls + 1;
    }
  }

  /** The own name is never offered as a DM partner, whatever the members and the stored list. */
  lemma NoSelfInDmUsers(known: seq<string>, users: seq<UserEntry>, myName: string)
    ensures myName !in MergeNames(known, OnlineNames(users), myName)
  {
  }

  /** A refused DM: with oneself picked as partner, nothing is sent. */
  lemma SelfDmRefused(joined: bool, name: string)
    ensures Route(joined, DmView, name, name) == Refused
  {
  }
}
