/** The direct-message store (server/stores/dm.store.js): one Redis list per
    conversation under `dm:<dmId>:messages`, newest message first, trimmed to
    100 entries on every push. The seven-day expiry is not modelled. */
module DmStore {
  import opened Common
  import opened Seqs
  import opened BoundedHistory
  import opened Messages

  /** `lTrim(key, 0, 99)` keeps 100 entries. */
  const Cap: nat := 100

  /** `key(dmId)`. */
  function Key(dmId: string): string {
    Wrap("dm:", dmId, ":messages")
  }

  /** The list stored for a conversation; Redis treats a missing key as an empty list. */
  function Stored(lists: map<string, seq<Message>>, dmId: string): seq<Message> {
    if Key(dmId) in lists then lists[Key(dmId)] else []
  }

  /** The store after `pushDM(dmId, m)`. */
  function AfterPush(lists: map<string, seq<Message>>, dmId: string, m: Message): map<string, seq<Message>> {
    lists[Key(dmId) := Push(Stored(lists, dmId), m, Cap)]
  }

  /** What `getDMHistory(dmId)` returns. */
  function HistoryOf(lists: map<string, seq<Message>>, dmId: string): seq<Message> {
    History(Stored(lists, dmId), Cap)
  }

  /** Every stored list respects the cap. */
  ghost predicate Bounded(lists: map<string, seq<Message>>) {
    forall k :: k in lists ==> |lists[k]| <= Cap
  }

  /** A push leaves at most 100 entries, puts the new message at the head
      ahead of the previous 99, and keeps every list within the cap. */
  lemma PushHead(lists: map<string, seq<Message>>, dmId: string, m: Message)
    requires Bounded(lists)
    ensures var l := Stored(AfterPush(lists, dmId, m), dmId);
      && |l| <= Cap && l[0] == m && l[1..] == Take(Stored(lists, dmId), Cap - 1)
    ensures Bounded(AfterPush(lists, dmId, m))
  {
    PushBounded(Stored(lists, dmId), m, Cap);
  }

  /** A read returns the stored list reversed: oldest first, newest last. */
  lemma HistoryIsReversed(lists: map<string, seq<Message>>, dmId: string)
    requires Bounded(lists)
    ensures HistoryOf(lists, dmId) == Reverse(Stored(lists, dmId))
  {
    HistoryOrder(Stored(lists, dmId), Cap);
  }

  /** Right after a push the history ends with the pushed message. */
  lemma HistoryEndsWithPushed(lists: map<string, seq<Message>>, dmId: string, m: Message)
    requires Bounded(lists)
    ensures var h := HistoryOf(AfterPush(lists, dmId, m), dmId);
      |h| > 0 && h[|h| - 1] == m
  {
    PushOne(Stored(lists, dmId), m, Cap);
  }

  /** Pushing to one conversation leaves every other conversation's list as it was. */
  lemma PushOtherConversation(lists: map<string, seq<Message>>, dmId: string, other: string, m: Message)
    requires other != dmId
    ensures Stored(AfterPush(lists, dmId, m), other) == Stored(lists, other)
  {
    if Key(other) == Key(dmId) {
      WrapInjective("dm:", other, dmId, ":messages");
    }
  }

  /** A conversation with nothing stored has an empty history. */
  lemma EmptyHistory(lists: map<string, seq<Message>>, dmId: string)
    requires Key(dmId) !in lists
    ensures HistoryOf(lists, dmId) == []
  {
  }

  /** The store after pushing `ms` to one conversation, in order. */
  function AfterPushes(lists: map<string, seq<Message>>, dmId: string, ms: seq<Message>): map<string, seq<Message>>
    decreases |ms|
  {
    if ms == [] then lists else AfterPush(AfterPushes(lists, dmId, ms[..|ms| - 1]), dmId, ms[|ms| - 1])
  }

  lemma {:induction false} AfterPushesStored(lists: map<string, seq<Message>>, dmId: string, ms: seq<Message>)
    ensures Stored(AfterPushes(lists, dmId, ms), dmId) == PushAll(Stored(lists, dmId), ms, Cap)
    decreases |ms|
  {
    if ms != [] {
      AfterPushesStored(lists, dmId, ms[..|ms| - 1]);
    }
  }

  /** After sends m1 ... mn to a conversation with no history, `getHistory` returns
      the last min(n, 100) of them in send order. */
  lemma HistoryAfterSends(lists: map<string, seq<Message>>, dmId: string, ms: seq<Message>)
    requires Key(dmId) !in lists
    ensures HistoryOf(AfterPushes(lists, dmId, ms), dmId) == ms[|ms| - Min(|ms|, Cap)..]
  {
    AfterPushesStored(lists, dmId, ms);
    HistoryOfFreshList(ms, Cap);
  }

  /** A hundred and twenty sends leave messages 21 to 120. */
  lemma HundredTwentySends(lists: map<string, seq<Message>>, dmId: string, ms: seq<Message>)
    requires Key(dmId) !in lists && |ms| == 120
    ensures HistoryOf(AfterPushes(lists, dmId, ms), dmId) == ms[20..]
  {
    HistoryAfterSends(lists, dmId, ms);
  }

  /** The Redis lists holding direct messages. */
  class Store {
    var lists: map<string, seq<Message>>

    constructor ()
      ensures lists == map[]
    {
      lists := map[];
    }

    /** `pushDM(dmId, message)`: `lPush`, then `lTrim(0, 99)`. */
    method PushDM(dmId: string, m: Message)
      modifies this
      ensures lists == AfterPush(old(lists), dmId, m)
      ensures Bounded(old(lists)) ==> Bounded(lists)
    {
      var k := Key(dmId);
      lists := lists[k := LPush(Stored(lists, dmId), m)];
      lists := lists[k := LTrim(lists[k], Cap - 1)];
      if Bounded(old(lists)) {
        PushHead(old(lists), dmId, m);
      }
    }

    /** `getDMHistory(dmId)`: `lRange(0, 99)`, reversed. */
    method GetDMHistory(dmId: string) returns (h: seq<Message>)
      ensures h == HistoryOf(lists, dmId)
      ensures Bounded(lists) ==> h == Reverse(Stored(lists, dmId))
    {
      var items := LRange(Stored(lists, dmId), Cap - 1);
      h := Reverse(items);
      if Bounded(lists) {
        HistoryIsReversed(lists, dmId);
      }
    }
  }
}
