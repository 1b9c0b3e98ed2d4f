/** The room chat store (server/stores/chat.store.js): one Redis list per
    room under `room:<roomId>:chat`, newest message first, trimmed to 50
    entries on every push. The one-day expiry is not modelled. */
module ChatStore {
  import opened Common
  import opened Seqs
  import opened BoundedHistory
  import opened Messages

  /** `lTrim(key, 0, 49)` keeps 50 entries. */
  const Cap: nat := 50

  /** `key(roomId)`. */
  function Key(roomId: string): string {
    Wrap("room:", roomId, ":chat")
  }

  /** The list stored for a room; Redis treats a missing key as an empty list. */
  function Stored(lists: map<string, seq<Message>>, roomId: string): seq<Message> {
    if Key(roomId) in lists then lists[Key(roomId)] else []
  }

  /** The store after `pushMessage(roomId, m)`. */
  function AfterPush(lists: map<string, seq<Message>>, roomId: string, m: Message): map<string, seq<Message>> {
    lists[Key(roomId) := Push(Stored(lists, roomId), m, Cap)]
  }

  /** What `getHistory(roomId)` returns. */
  function HistoryOf(lists: map<string, seq<Message>>, roomId: string): seq<Message> {
    History(Stored(lists, roomId), Cap)
  }

  /** Every stored list respects the cap. */
  ghost predicate Bounded(lists: map<string, seq<Message>>) {
    forall k :: k in lists ==> |lists[k]| <= Cap
  }

  /** A push leaves at most 50 entries, puts the new message at the head
      ahead of the previous 49, and keeps every list within the cap. */
  lemma PushHead(lists: map<string, seq<Message>>, roomId: string, m: Message)
    requires Bounded(lists)
    ensures var l := Stored(AfterPush(lists, roomId, m), roomId);
      && |l| <= Cap && l[0] == m && l[1..] == Take(Stored(lists, roomId), Cap - 1)
    ensures Bounded(AfterPush(lists, roomId, m))
  {
    PushBounded(Stored(lists, roomId), m, Cap);
  }

  /** A read returns the stored list reversed: oldest first, newest last. */
  lemma HistoryIsReversed(lists: map<string, seq<Message>>, roomId: string)
    requires Bounded(lists)
    ensures HistoryOf(lists, roomId) == Reverse(Stored(lists, roomId))
  {
    HistoryOrder(Stored(lists, roomId), Cap);
  }

  /** Right after a push the history ends with the pushed message. */
  lemma HistoryEndsWithPushed(lists: map<string, seq<Message>>, roomId: string, m: Message)
    requires Bounded(lists)
    ensures var h := HistoryOf(AfterPush(lists, roomId, m), roomId);
      |h| > 0 && h[|h| - 1] == m
  {
    PushOne(Stored(lists, roomId), m, Cap);
  }

  /** Pushing to one room leaves every other room's list as it was. */
  lemma PushOtherRoom(lists: map<string, seq<Message>>, roomId: string, other: string, m: Message)
    requires other != roomId
    ensures Stored(AfterPush(lists, roomId, m), other) == Stored(lists, other)
  {
    if Key(other) == Key(roomId) {
      WrapInjective("room:", other, roomId, ":chat");
    }
  }

  /** A room with nothing stored has an empty history. */
  lemma EmptyHistory(lists: map<string, seq<Message>>, roomId: string)
    requires Key(roomId) !in lists
    ensures HistoryOf(lists, roomId) == []
  {
  }

  /** The store after pushing `ms` to one room, in order. */
  function AfterPushes(lists: map<string, seq<Message>>, roomId: string, ms: seq<Message>): map<string, seq<Message>>
    decreases |ms|
  {
    if ms == [] then lists else AfterPush(AfterPushes(lists, roomId, ms[..|ms| - 1]), roomId, ms[|ms| - 1])
  }

  lemma {:induction false} AfterPushesStored(lists: map<string, seq<Message>>, roomId: string, ms: seq<Message>)
    ensures Stored(AfterPushes(lists, roomId, ms), roomId) == PushAll(Stored(lists, roomId), ms, Cap)
    decreases |ms|
  {
    if ms != [] {
      AfterPushesStored(lists, roomId, ms[..|ms| - 1]);
    }
  }

  /** After sends m1 ... mn to a room with no history, `getHistory` returns
      the last min(n, 50) of them in send order. */
  lemma HistoryAfterSends(lists: map<string, seq<Message>>, roomId: string, ms: seq<Message>)
    requires Key(roomId) !in lists
    ensures HistoryOf(AfterPushes(lists, roomId, ms), roomId) == ms[|ms| - Min(|ms|, Cap)..]
  {
    AfterPushesStored(lists, roomId, ms);
    HistoryOfFreshList(ms, Cap);
  }

  /** Sixty sends leave messages 11 to 60. */
  lemma SixtySends(lists: map<string, seq<Message>>, roomId: string, ms: seq<Message>)
    requires Key(roomId) !in lists && |ms| == 60
    ensures HistoryOf(AfterPushes(lists, roomId, ms), roomId) == ms[10..]
  {
    HistoryAfterSends(lists, roomId, ms);
  }

  /** The Redis lists holding room chat. */
  class Store {
    var lists: map<string, seq<Message>>

    constructor ()
      ensures lists == map[]
    {
      lists := map[];
    }

    /** `pushMessage(roomId, message)`: `lPush`, then `lTrim(0, 49)`. */
    method PushMessage(roomId: string, m: Message)
      modifies this
      ensures lists == AfterPush(old(lists), roomId, m)
      ensures Bounded(old(lists)) ==> Bounded(lists)
    {
      var k := Key(roomId);
      lists := lists[k := LPush(Stored(lists, roomId), m)];
      lists := lists[k := LTrim(lists[k], Cap - 1)];
      if Bounded(old(lists)) {
        PushHead(old(lists), roomId, m);
      }
    }

    /** `getHistory(roomId)`: `lRange(0, 49)`, reversed. */
    method GetHistory(roomId: string) returns (h: seq<Message>)
      ensures h == HistoryOf(lists, roomId)
      ensures Bounded(lists) ==> h == Reverse(Stored(lists, roomId))
    {
      var items := LRange(Stored(lists, roomId), Cap - 1);
      h := Reverse(items);
      if Bounded(lists) {
        HistoryIsReversed(lists, roomId);
      }
    }
  }
}
