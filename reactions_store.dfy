/** The reaction store (server/stores/reactions.store.js): one JSON value per
    scope under the key `room:<scope>:reactions`, mapping a message id to an
    emoji to the list of authors who reacted with it. The scope is a room id
    or a direct-conversation id. JSON encoding is taken to round-trip, so the
    store holds the decoded maps themselves; key expiry is not modelled. */
module ReactionsStore {
  import opened Common

  /** The authors list of one emoji on one message, in reaction order. */
  type Authors = seq<string>
  /** emoji -> authors, for one message. */
  type Buckets = map<string, Authors>
  /** messageId -> emoji -> authors, for one scope. */
  type ReactionMap = map<string, Buckets>

  /** `key(roomId)`. */
  function Key(scope: string): string {
    Wrap("room:", scope, ":reactions")
  }

  /** `getReactions`: the stored map, or `{}` when nothing is stored. */
  function Read(entries: map<string, ReactionMap>, scope: string): ReactionMap {
    if Key(scope) in entries then entries[Key(scope)] else map[]
  }

  /** `setReactions`: the store with the scope's whole value replaced. */
  function Write(entries: map<string, ReactionMap>, scope: string, m: ReactionMap): map<string, ReactionMap> {
    entries[Key(scope) := m]
  }

  /** Reading a scope that was never written gives the empty map. */
  lemma ReadAbsent(entries: map<string, ReactionMap>, scope: string)
    requires Key(scope) !in entries
    ensures Read(entries, scope) == map[]
  {
  }

  /** Reading back what was just written gives exactly it (no merge with the old value). */
  lemma ReadAfterWrite(entries: map<string, ReactionMap>, scope: string, m: ReactionMap)
    ensures Read(Write(entries, scope, m), scope) == m
  {
  }

  /** A second write replaces the first one entirely. */
  lemma WriteOverwrites(entries: map<string, ReactionMap>, scope: string, m1: ReactionMap, m2: ReactionMap)
    ensures Write(Write(entries, scope, m1), scope, m2) == Write(entries, scope, m2)
  {
  }

  /** Writing one scope leaves every other scope's value as it was. */
  lemma WriteOtherScope(entries: map<string, ReactionMap>, scope: string, other: string, m: ReactionMap)
    requires other != scope
    ensures Read(Write(entries, scope, m), other) == Read(entries, other)
  {
    if Key(other) == Key(scope) {
      WrapInjective("room:", other, scope, ":reactions");
    }
  }

  /** The Redis entries that hold reaction maps. */
  class Store {
    var entries: map<string, ReactionMap>

    constructor ()
      ensures entries == map[]
    {
      entries := map[];
    }

    /** `getReactions(roomId)`. */
    method GetReactions(scope: string) returns (m: ReactionMap)
      ensures m == Read(entries, scope)
      ensures Key(scope) !in entries ==> m == map[]
    {
      var k := Key(scope);
      if k in entries {
        m := entries[k];
      } else {
        m := map[];
      }
    }

    /** `setReactions(roomId, reactionsMap)`. */
    method SetReactions(scope: string, m: ReactionMap)
      modifies this
      ensures entries == Write(old(entries), scope, m)
      ensures Read(entries, scope) == m
    {
      entries := entries[Key(scope) := m];
    }
  }
}
