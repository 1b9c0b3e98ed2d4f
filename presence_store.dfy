/** The presence directory (server/stores/presence.store.js): one Redis
    string per user name under `presence:user:<name>`, holding the socket id
    of that user's latest connection. The one-hour expiry is not modelled. */
module PresenceStore {
  import opened Common

  /** `key(name)`. */
  function Key(name: string): string {
    Wrap("presence:user:", name, "")
  }

  /** `r.get(key(name))`: the socket id, or `null`. */
  function Lookup(entries: map<string, string>, name: string): Option<string> {
    if Key(name) in entries then Some(entries[Key(name)]) else None
  }

  /** The store after `setOnline(name, socketId)`. */
  function Online(entries: map<string, string>, name: string, socketId: string): map<string, string> {
    entries[Key(name) := socketId]
  }

  /** The store after `setOffline(name, socketId)`: the entry is deleted
      only while it still holds `socketId`. */
  function Offline(entries: map<string, string>, name: string, socketId: string): map<string, string> {
    if Lookup(entries, name) == Some(socketId) then entries - {Key(name)} else entries
  }

  lemma KeyInjective(a: string, b: string)
    requires Key(a) == Key(b)
    ensures a == b
  {
    WrapInjective("presence:user:", a, b, "");
  }

  /** `setOnline(n, s)` then `getUserSocket(n)` gives `s`. */
  lemma LookupAfterOnline(entries: map<string, string>, name: string, socketId: string)
    ensures Lookup(Online(entries, name, socketId), name) == Some(socketId)
  {
  }

  /** The later `setOnline` for a name wins outright. */
  lemma OnlineLastWriteWins(entries: map<string, string>, name: string, s1: string, s2: string)
    ensures Online(Online(entries, name, s1), name, s2) == Online(entries, name, s2)
  {
  }

  /** `setOffline(n, s)` removes the entry exactly when it holds `s`, and
      otherwise changes nothing at all. */
  lemma OfflineGuarded(entries: map<string, string>, name: string, socketId: string)
    ensures Lookup(entries, name) == Some(socketId) ==> Lookup(Offline(entries, name, socketId), name) == None
    ensures Lookup(entries, name) != Some(socketId) ==> Offline(entries, name, socketId) == entries
  {
  }

  /** `setOnline` and `setOffline` on one name leave every other name's entry as it was. */
  lemma OtherNamesUnchanged(entries: map<string, string>, name: string, other: string, socketId: string)
    requires other != name
    ensures Lookup(Online(entries, name, socketId), other) == Lookup(entries, other)
    ensures Lookup(Offline(entries, name, socketId), other) == Lookup(entries, other)
  {
    if Key(other) == Key(name) {
      KeyInjective(other, name);
    }
  }

  /** A name never registered has no socket. */
  lemma LookupAbsent(entries: map<string, string>, name: string)
    requires Key(name) !in entries
    ensures Lookup(entries, name) == None
  {
  }

  /** A user reconnects as `s2` before the old connection `s1` finishes
      disconnecting: the late `setOffline(n, s1)` keeps the new entry. */
  lemma ReconnectSurvivesLateOffline(entries: map<string, string>, name: string, s1: string, s2: string)
    requires s1 != s2
    ensures Lookup(Offline(Online(Online(entries, name, s1), name, s2), name, s1), name) == Some(s2)
  {
  }

  /** The Redis entries of the presence directory. */
  class Store {
    var entries: map<string, string>

    constructor ()
      ensures entries == map[]
    {
      entries := map[];
    }

    /** `setOnline(name, socketId)`. */
    method SetOnline(name: string, socketId: string)
      modifies this
      ensures entries == Online(old(entries), name, socketId)
    {
      entries := entries[Key(name) := socketId];
    }

    /** `getUserSocket(name)`. */
    method GetUserSocket(name: string) returns (s: Option<string>)
      ensures s == Lookup(entries, name)
      ensures s.Some? <==> Key(name) in entries
    {
      var k := Key(name);
      if k in entries {
        s := Some(entries[k]);
      } else {
        s := None;
      }
    }

    /** `setOffline(name, socketId)`: read the current value, delete on a match. */
    method SetOffline(name: string, socketId: string)
      modifies this
      ensures entries == Offline(old(entries), name, socketId)
    {
      var current := GetUserSocket(name);
      if current == Some(socketId) {
        entries := entries - {Key(name)};
      }
    }
  }
}
