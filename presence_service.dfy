/** The speaking sets (server/services/presence.service.js): one Redis set
    per room under `room:<roomId>:speaking`, holding the ids of the sockets
    currently speaking. The ten-second expiry is not modelled. */
module PresenceService {
  import opened Common

  /** `speakingKey(roomId)`. */
  function Key(roomId: string): string {
    Wrap("room:", roomId, ":speaking")
  }

  /** `sMembers(speakingKey(roomId))`; a missing key is the empty set. */
  function Members(sets: map<string, set<string>>, roomId: string): set<string> {
    if Key(roomId) in sets then sets[Key(roomId)] else {}
  }

  /** The store after `setSpeaking(roomId, socketId, isSpeaking)`. */
  function AfterSetSpeaking(sets: map<string, set<string>>, roomId: string, socketId: string, isSpeaking: JsValue)
    : (r: map<string, set<string>>)
  {
    if roomId == "" then sets
    else if Truthy(isSpeaking) then sets[Key(roomId) := Members(sets, roomId) + {socketId}]
    else sets[Key(roomId) := Members(sets, roomId) - {socketId}]
  }

  /** Without a room nothing changes. */
  lemma NoRoomNoChange(sets: map<string, set<string>>, socketId: string, isSpeaking: JsValue)
    ensures AfterSetSpeaking(sets, "", socketId, isSpeaking) == sets
  {
  }

  /** Afterwards the socket is speaking in the room exactly when `isSpeaking`
      is truthy; every other socket keeps its state there. */
  lemma SetSpeakingMembership(sets: map<string, set<string>>, roomId: string, socketId: string, isSpeaking: JsValue, other: string)
    requires roomId != ""
    ensures socketId in Members(AfterSetSpeaking(sets, roomId, socketId, isSpeaking), roomId) <==> Truthy(isSpeaking)
    ensures other != socketId ==>
      (other in Members(AfterSetSpeaking(sets, roomId, socketId, isSpeaking), roomId) <==> other in Members(sets, roomId))
  {
  }

  /** Marking the same socket speaking twice is the same as once. */
  lemma SetSpeakingIdempotent(sets: map<string, set<string>>, roomId: string, socketId: string, isSpeaking: JsValue)
    ensures var once := AfterSetSpeaking(sets, roomId, socketId, isSpeaking);
      AfterSetSpeaking(once, roomId, socketId, isSpeaking) == once
  {
    if roomId != "" {
      var once := AfterSetSpeaking(sets, roomId, socketId, isSpeaking);
      var m := Members(sets, roomId);
      var k, now := Key(roomId), Members(once, roomId);
      assert k in once && once[k] == now;
      assert now == if Truthy(isSpeaking) then m + {socketId} else m - {socketId};
      assert (if Truthy(isSpeaking) then now + {socketId} else now - {socketId}) == now;
      assert once[k := now] == once;
    }
  }

  /** Other rooms are untouched. */
  lemma SetSpeakingOtherRoom(sets: map<string, set<string>>, roomId: string, other: string, socketId: string, isSpeaking: JsValue)
    requires other != roomId
    ensures Members(AfterSetSpeaking(sets, roomId, socketId, isSpeaking), other) == Members(sets, other)
  {
    if Key(other) == Key(roomId) {
      WrapInjective("room:", other, roomId, ":speaking");
    }
  }

  /** The Redis sets of speaking sockets. */
  class Speaking {
    var sets: map<string, set<string>>

    constructor ()
      ensures sets == map[]
    {
      sets := map[];
    }

    /** `setSpeaking(roomId, socketId, isSpeaking)`: `sAdd` or `sRem`. */
    method SetSpeaking(roomId: string, socketId: string, isSpeaking: JsValue)
      modifies this
      ensures sets == AfterSetSpeaking(old(sets), roomId, socketId, isSpeaking)
    {
      if roomId == "" {
        return;
      }
      var k := Key(roomId);
      if Truthy(isSpeaking) {
        sets := sets[k := Members(sets, roomId) + {socketId}];
      } else {
        sets := sets[k := Members(sets, roomId) - {socketId}];
      }
    }

    /** `getSpeaking(roomId)`. */
    method GetSpeaking(roomId: string) returns (members: set<string>)
      ensures members == Members(sets, roomId)
      ensures Key(roomId) !in sets ==> members == {}
    {
      var k := Key(roomId);
      members := if k in sets then sets[k] else {};
    }
  }
}
