/** `toggleReaction` (server/services/reactions.service.js): read the scope's
    reaction map, add the author to the `(messageId, emoji)` list when absent
    or remove its first occurrence when present, prune an emptied emoji
    bucket and an emptied message entry, write the map back and return it. */
module ReactionsService {
  import opened Seqs
  import opened ReactionsStore

  /** `all[messageId] || {}`. */
  function BucketsOf(all: ReactionMap, messageId: string): Buckets {
    if messageId in all then all[messageId] else map[]
  }

  /** `(all[messageId] || {})[emoji] || []`. */
  function AuthorsOf(all: ReactionMap, messageId: string, emoji: string): Authors {
    var b := BucketsOf(all, messageId);
    if emoji in b then b[emoji] else []
  }

  /** The list update: `splice(indexOf(user), 1)` when present, `push(user)` otherwise. */
  function ToggleAuthors(arr: Authors, user: string): (r: Authors)
    ensures user in arr ==> r == RemoveAt(arr, IndexOf(arr, user)) && |r| == |arr| - 1
    ensures user !in arr ==> r == arr + [user]
  {
    var idx := IndexOf(arr, user);
    if idx >= 0 then RemoveAt(arr, idx) else arr + [user]
  }

  /** The touched message entry after the list update, with an emptied emoji bucket deleted. */
  function ToggledBuckets(all: ReactionMap, messageId: string, emoji: string, user: string): Buckets {
    var msg := BucketsOf(all, messageId);
    var arr := ToggleAuthors(AuthorsOf(all, messageId, emoji), user);
    if |arr| == 0 then msg - {emoji} else msg[emoji := arr]
  }

  /** The map `toggleReaction` writes back and returns: an emptied message entry is deleted. */
  function Toggle(all: ReactionMap, messageId: string, emoji: string, user: string): ReactionMap {
    var msg' := ToggledBuckets(all, messageId, emoji, user);
    if msg' == map[] then all - {messageId} else all[messageId := msg']
  }

  /** The invariant of every map the server writes: no empty emoji bucket,
      no empty message entry, and no author twice in one bucket. */
  ghost predicate WellFormed(all: ReactionMap) {
    forall m :: m in all ==>
      all[m] != map[] && forall e :: e in all[m] ==> all[m][e] != [] && NoDup(all[m][e])
  }

  /** The touched list is toggled: the author's first occurrence removed when
      present, the author appended at the end when absent. */
  lemma ToggleUpdatesBucket(all: ReactionMap, messageId: string, emoji: string, user: string)
    ensures var before := AuthorsOf(all, messageId, emoji);
      var after := AuthorsOf(Toggle(all, messageId, emoji, user), messageId, emoji);
      && (user in before ==> after == RemoveAt(before, IndexOf(before, user)))
      && (user !in before ==> after == before + [user])
  {
  }

  /** After a toggle the touched emoji bucket is never empty and the touched
      message entry is never an empty map: emptied ones are deleted. */
  lemma TogglePrunes(all: ReactionMap, messageId: string, emoji: string, user: string)
    ensures var r := Toggle(all, messageId, emoji, user);
      && (messageId in r ==> r[messageId] != map[])
      && (messageId in r && emoji in r[messageId] ==> r[messageId][emoji] != [])
  {
  }

  /** Entries for other messages, and other emojis of the same message, are unchanged. */
  lemma ToggleFrame(all: ReactionMap, messageId: string, emoji: string, user: string)
    ensures var r := Toggle(all, messageId, emoji, user);
      && (forall m :: m != messageId ==> (m in r <==> m in all) && (m in r ==> r[m] == all[m]))
      && (forall e :: e != emoji ==> AuthorsOf(r, messageId, e) == AuthorsOf(all, messageId, e))
  {
    var r := Toggle(all, messageId, emoji, user);
    var msg, msg' := BucketsOf(all, messageId), ToggledBuckets(all, messageId, emoji, user);
    forall e | e != emoji
      ensures AuthorsOf(r, messageId, e) == AuthorsOf(all, messageId, e)
    {
      assert (e in msg' <==> e in msg) && (e in msg' ==> msg'[e] == msg[e]);
      if msg' == map[] {
        assert e !in msg;
      }
    }
  }

  /** Removing an element from a duplicate-free list keeps it duplicate-free. */
  lemma NoDupRemoveAt(s: Authors, i: nat)
    requires NoDup(s) && i < |s|
    ensures NoDup(RemoveAt(s, i))
  {
    var r := RemoveAt(s, i);
    forall a, b | 0 <= a < b < |r| ensures r[a] != r[b] {
      var a' := if a < i then a else a + 1;
      var b' := if b < i then b else b + 1;
      assert r[a] == s[a'] && r[b] == s[b'];
    }
  }

  /** Toggling on a list without duplicates leaves it without duplicates:
      the author is pushed only when `indexOf` found no occurrence. */
  lemma ToggleAuthorsNoDup(arr: Authors, user: string)
    requires NoDup(arr)
    ensures NoDup(ToggleAuthors(arr, user))
  {
    if user in arr {
      NoDupRemoveAt(arr, IndexOf(arr, user));
    }
  }

  /** The server only ever writes well-formed maps. */
  lemma ToggleWellFormed(all: ReactionMap, messageId: string, emoji: string, user: string)
    requires WellFormed(all)
    ensures WellFormed(Toggle(all, messageId, emoji, user))
  {
    var arr := ToggleAuthors(AuthorsOf(all, messageId, emoji), user);
    ToggleAuthorsNoDup(AuthorsOf(all, messageId, emoji), user);
    var msg' := ToggledBuckets(all, messageId, emoji, user);
    assert forall e :: e in msg' ==> msg'[e] != [] && NoDup(msg'[e]);
  }

  /** What a second toggle needs of the map at the touched position: the
      message entry and the emoji bucket there, if present, are not empty. */
  ghost predicate PrunedAt(all: ReactionMap, messageId: string, emoji: string) {
    messageId in all ==> all[messageId] != map[] && (emoji in all[messageId] ==> all[messageId][emoji] != [])
  }

  lemma WellFormedPrunedAt(all: ReactionMap, messageId: string, emoji: string)
    requires WellFormed(all)
    ensures PrunedAt(all, messageId, emoji)
  {
  }

  /** A second toggle by an author who was absent restores the map exactly. */
  lemma ToggleTwiceAbsent(all: ReactionMap, messageId: string, emoji: string, user: string)
    requires PrunedAt(all, messageId, emoji)
    requires user !in AuthorsOf(all, messageId, emoji)
    ensures Toggle(Toggle(all, messageId, emoji, user), messageId, emoji, user) == all
  {
    var b := BucketsOf(all, messageId);
    var before := AuthorsOf(all, messageId, emoji);
    assert Toggle(all, messageId, emoji, user) == all[messageId := b[emoji := before + [user]]];
    ToggleRemovesAppended(all, messageId, emoji, user);
  }

  /** Toggling a list that ends with the author's only occurrence undoes the append. */
  lemma ToggleRemovesAppended(all: ReactionMap, messageId: string, emoji: string, user: string)
    requires PrunedAt(all, messageId, emoji)
    requires user !in AuthorsOf(all, messageId, emoji)
    ensures var b := BucketsOf(all, messageId);
      var before := AuthorsOf(all, messageId, emoji);
      Toggle(all[messageId := b[emoji := before + [user]]], messageId, emoji, user) == all
  {
    var b := BucketsOf(all, messageId);
    var before := AuthorsOf(all, messageId, emoji);
    var mid := before + [user];
    var msg1 := b[emoji := mid];
    var once := all[messageId := msg1];
    assert ToggleAuthors(mid, user) == before by {
      assert mid[|before|] == user && mid[..|before|] == before;
      assert IndexOf(mid, user) == |before|;
      assert RemoveAt(mid, |before|) == before;
    }
    assert AuthorsOf(once, messageId, emoji) == mid;
    if before == [] {
      assert msg1 - {emoji} == b;
    } else {
      assert msg1[emoji := before] == b;
    }
  }

  /** A second toggle by an author who was present brings the same authors
      back, but the author moves to the end of the list. */
  lemma ToggleTwicePresent(all: ReactionMap, messageId: string, emoji: string, user: string)
    requires NoDup(AuthorsOf(all, messageId, emoji))
    requires user in AuthorsOf(all, messageId, emoji)
    ensures var before := AuthorsOf(all, messageId, emoji);
      var twice := Toggle(Toggle(all, messageId, emoji, user), messageId, emoji, user);
      && AuthorsOf(twice, messageId, emoji) == RemoveAt(before, IndexOf(before, user)) + [user]
      && multiset(AuthorsOf(twice, messageId, emoji)) == multiset(before)
  {
    var before := AuthorsOf(all, messageId, emoji);
    var i := IndexOf(before, user);
    var removed := RemoveAt(before, i);
    RemoveAtMultiset(before, i);
    assert multiset(before)[user] == 1 by {
      NoDupCount(before, i);
    }
    assert user !in removed;
    var once := Toggle(all, messageId, emoji, user);
    ToggleUpdatesBucket(all, messageId, emoji, user);
    ToggleUpdatesBucket(once, messageId, emoji, user);
    assert multiset(removed + [user]) == multiset(removed) + multiset{user};
  }

  /** In a list without duplicates the element at `i` occurs once. */
  lemma {:induction false} NoDupCount(s: Authors, i: nat)
    requires NoDup(s) && i < |s|
    ensures multiset(s)[s[i]] == 1
  {
    var x := s[i];
    assert s == s[..i] + [x] + s[i + 1..];
    assert x !in s[..i] by {
      forall k | 0 <= k < i ensures s[..i][k] != x { assert s[..i][k] == s[k]; }
    }
    assert x !in s[i + 1..] by {
      var t := s[i + 1..];
      forall k | 0 <= k < |t| ensures t[k] != x { assert t[k] == s[i + 1 + k]; }
    }
    assert multiset(s[..i])[x] == 0 && multiset(s[i + 1..])[x] == 0;
  }

  /** alice then bob on one emoji gives `["alice", "bob"]`; alice again
      leaves `["bob"]`. */
  lemma AliceBobScenario(messageId: string)
    ensures var one := Toggle(map[], messageId, "👍", "alice");
      var two := Toggle(one, messageId, "👍", "bob");
      var three := Toggle(two, messageId, "👍", "alice");
      && AuthorsOf(two, messageId, "👍") == ["alice", "bob"]
      && AuthorsOf(three, messageId, "👍") == ["bob"]
  {
    var one := Toggle(map[], messageId, "👍", "alice");
    ToggleUpdatesBucket(map[], messageId, "👍", "alice");
    assert AuthorsOf(one, messageId, "👍") == ["alice"];
    var two := Toggle(one, messageId, "👍", "bob");
    ToggleUpdatesBucket(one, messageId, "👍", "bob");
    assert AuthorsOf(two, messageId, "👍") == ["alice", "bob"];
    ToggleUpdatesBucket(two, messageId, "👍", "alice");
    assert IndexOf(["alice", "bob"], "alice") == 0;
    assert RemoveAt(["alice", "bob"], 0) == ["bob"];
  }

  /** The list step of `toggleReaction`: `splice(idx, 1)` when `indexOf`
      found the author, `push(user)` otherwise. */
  method ToggleList(arr: Authors, user: string) returns (r: Authors)
    ensures r == ToggleAuthors(arr, user)
    ensures user in arr <==> |r| == |arr| - 1
    ensures user in r <==> user !in arr || multiset(arr)[user] > 1
  {
    var idx := IndexOf(arr, user);
    if idx >= 0 {
      r := RemoveAt(arr, idx);
      RemoveAtMultiset(arr, idx);
      assert user in r <==> multiset(r)[user] > 0;
    } else {
      r := arr + [user];
    }
  }

  lemma UpdateThenRemove(m: Buckets, k: string, v: Authors)
    ensures m[k := v] - {k} == m - {k}
  {
  }

  /** The body of `toggleReaction` between the read and the write: the
      fetched object is updated step by step as the source mutates it. */
  method ApplyToggle(fetched: ReactionMap, messageId: string, emoji: string, user: string)
    returns (all: ReactionMap)
    ensures all == Toggle(fetched, messageId, emoji, user)
  {
    all := fetched;
    var msg := if messageId in all then all[messageId] else map[];   // all[messageId] ||= {}
    assert msg == BucketsOf(fetched, messageId);
    var arr := if emoji in msg then msg[emoji] else [];              // all[messageId][emoji] ||= []
    assert arr == AuthorsOf(fetched, messageId, emoji);
    arr := ToggleList(arr, user);
    if |arr| == 0 {                                                   // cleanup empty
      UpdateThenRemove(msg, emoji, arr);
    }
    msg := msg[emoji := arr];
    if |arr| == 0 {
      msg := msg - {emoji};
    }
    if msg == map[] {                                                 // no keys left
      all := all - {messageId};
    } else {
      all := all[messageId := msg];
    }
  }

  /** `toggleReaction(roomId, messageId, emoji, userName)`: read the scope,
      toggle, write the result back and return it. */
  method ToggleReaction(store: Store, scope: string, messageId: string, emoji: string, user: string)
    returns (all: ReactionMap)
    modifies store
    ensures all == Toggle(Read(old(store.entries), scope), messageId, emoji, user)
    ensures store.entries == Write(old(store.entries), scope, all)
    ensures WellFormed(Read(old(store.entries), scope)) ==> WellFormed(all)
  {
    var fetched := store.GetReactions(scope);
    all := ApplyToggle(fetched, messageId, emoji, user);
    store.SetReactions(scope, all);
    if WellFormed(fetched) {
      ToggleWellFormed(fetched, messageId, emoji, user);
    }
  }
}
