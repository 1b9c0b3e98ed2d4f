/** The room voice mesh of the client (client/src/hooks/useWebRTC.js): one
    peer connection per other member of the room, keyed by socket id, and
    the list of remote streams received. Which side offers is decided by
    comparing socket ids. */
module WebrtcMesh {
  import opened Common
  import opened Strings
  import opened Seqs

  /** An entry of `remoteStreams`; the stream is an opaque label. */
  datatype RemoteStream = RemoteStream(id: string, stream: string)

  /** A peer connection: whether this side made the offer, and the
      remote descriptions and candidates applied to it so far. */
  datatype Peer = Peer(initiator: bool, applied: seq<JsValue>)

  datatype MeshEmit = OfferTo(to: string) | AnswerTo(to: string) | IceTo(to: string, candidate: JsValue)

  predicate HasStream(s: seq<RemoteStream>, id: string) {
    exists i :: 0 <= i < |s| && s[i].id == id
  }

  ghost predicate UniqueStreamIds(s: seq<RemoteStream>) {
    forall i, j :: 0 <= i < j < |s| ==> s[i].id != s[j].id
  }

  /** The `addRemoteStream(id, stream)` updater: replace in place when the id is
      present, append otherwise. */
  function AddStream(prev: seq<RemoteStream>, id: string, stream: string): (r: seq<RemoteStream>)
    ensures HasStream(prev, id) ==>
      |r| == |prev| && forall i :: 0 <= i < |r| ==> r[i] == if prev[i].id == id then RemoteStream(id, stream) else prev[i]
    ensures !HasStream(prev, id) ==> r == prev + [RemoteStream(id, stream)]
  {
    if HasStream(prev, id) then
      seq(|prev|, i requires 0 <= i < |prev| => if prev[i].id == id then RemoteStream(id, stream) else prev[i])
    else prev + [RemoteStream(id, stream)]
  }

  /** The stream list keeps one entry per id, and afterwards `id` has exactly `stream`. */
  lemma AddStreamUnique(prev: seq<RemoteStream>, id: string, stream: string)
    requires UniqueStreamIds(prev)
    ensures var r := AddStream(prev, id, stream);
      && UniqueStreamIds(r) && HasStream(r, id)
      && forall i :: 0 <= i < |r| && r[i].id == id ==> r[i].stream == stream
  {
    var r := AddStream(prev, id, stream);
    if HasStream(prev, id) {
      assert forall i :: 0 <= i < |r| ==> r[i].id == prev[i].id;
    } else {
      assert r[|prev|].id == id;
    }
  }

  /** The streams whose id is not in `gone` (`prev.filter(x => x.id !== id)`, for `gone == {id}`). */
  function KeepStreams(prev: seq<RemoteStream>, gone: set<string>): (r: seq<RemoteStream>)
    ensures |r| <= |prev|
  {
    if prev == [] then []
    else if prev[0].id in gone then KeepStreams(prev[1..], gone)
    else [prev[0]] + KeepStreams(prev[1..], gone)
  }

  /** The filter keeps exactly the streams of ids outside `gone`. */
  lemma {:induction false} KeepStreamsMember(prev: seq<RemoteStream>, gone: set<string>, x: RemoteStream)
    ensures x in KeepStreams(prev, gone) <==> x in prev && x.id !in gone
  {
    if prev != [] {
      KeepStreamsMember(prev[1..], gone, x);
      assert prev == [prev[0]] + prev[1..];
    }
  }

  /** Removing no id keeps every stream. */
  lemma {:induction false} KeepStreamsNone(prev: seq<RemoteStream>)
    ensures KeepStreams(prev, {}) == prev
  {
    if prev != [] {
      KeepStreamsNone(prev[1..]);
    }
  }

  /** Removing ids one after another is removing them all at once. */
  lemma {:induction false} KeepStreamsTwice(prev: seq<RemoteStream>, a: set<string>, b: set<string>)
    ensures KeepStreams(KeepStreams(prev, a), b) == KeepStreams(prev, a + b)
  {
    if prev != [] {
      KeepStreamsTwice(prev[1..], a, b);
    }
  }

  /** The ids of a sequence, as a set. */
  function IdSet(ids: seq<string>): (r: set<string>)
    ensures forall x :: x in r <==> x in ids
  {
    set x | x in ids
  }

  /** `users.map(u => u.socketId).filter(id => id !== socket.id)`: never the own id. */
  function Others(users: seq<string>, self: string): (r: seq<string>)
    ensures self !in r
  {
    RemoveAll(users, self)
  }

  /** Of two distinct sockets exactly one sees itself as the initiator
      (`socket.id < remoteId`), so exactly one offer is made per pair. */
  lemma InitiatorExactlyOne(a: string, b: string)
    requires a != b
    ensures LexLess(a, b) != LexLess(b, a)
  {
    LexLessTrichotomy(a, b);
  }

  /** `createPeer` for each of `ids` in order, starting from `peers`: the new
      peer map and the offers sent. */
  function CreateAll(peers: map<string, Peer>, ids: seq<string>, self: string): (r: (map<string, Peer>, seq<MeshEmit>))
    decreases |ids|
  {
    if ids == [] then (peers, [])
    else
      var (p1, e1) := CreateAll(peers, ids[..|ids| - 1], self);
      var id := ids[|ids| - 1];
      if id in p1 then (p1, e1)
      else (p1[id := Peer(LexLess(self, id), [])], e1 + if LexLess(self, id) then [OfferTo(id)] else [])
  }

  /** After creating peers for `ids`, every id has one; earlier peers are
      kept as they were; a new peer is the initiator exactly when its id
      is the greater one; and every offer goes to a new peer this side initiates. */
  lemma {:induction false} CreateAllSpec(peers: map<string, Peer>, ids: seq<string>, self: string)
    ensures var (p, e) := CreateAll(peers, ids, self);
      && p.Keys == peers.Keys + IdSet(ids)
      && (forall k :: k in peers ==> p[k] == peers[k])
      && (forall k :: k in p && k !in peers ==> p[k] == Peer(LexLess(self, k), []))
      && (forall i :: 0 <= i < |e| ==> e[i].OfferTo? && e[i].to in ids && e[i].to !in peers && LexLess(self, e[i].to))
    decreases |ids|
  {
    if ids != [] {
      var init := ids[..|ids| - 1];
      CreateAllSpec(peers, init, self);
      assert ids == init + [ids[|ids| - 1]];
      assert IdSet(ids) == IdSet(init) + {ids[|ids| - 1]};
    }
  }

  /** `m` cut down to the keys in `ids`. */
  function Restrict(m: map<string, Peer>, ids: seq<string>): (r: map<string, Peer>)
    ensures forall k :: k in r <==> k in m && k in ids
  {
    map k | k in m && k in ids :: m[k]
  }

  /** After a reconcile the peers are exactly the other members of the room. */
  lemma ReconcileExact(peers: map<string, Peer>, users: seq<string>, self: string)
    ensures var others := Others(users, self);
      var p := Restrict(CreateAll(peers, others, self).0, others);
      && (forall k :: k in p <==> k in others)
      && self !in p
      && (forall k :: k in p && k in peers ==> p[k] == peers[k])
  {
    CreateAllSpec(peers, Others(users, self), self);
  }

  /** The peer connections of one `useWebRTC` instance. */
  class Mesh {
    const selfId: string
    /** Whether the hook was given a local stream. */
    const hasLocalStream: bool
    /** `peersRef.current`. */
    var peers: map<string, Peer>
    /** `remoteStreams`. */
    var streams: seq<RemoteStream>
    var emits: seq<MeshEmit>

    constructor (selfId: string, hasLocalStream: bool)
      ensures this.selfId == selfId && this.hasLocalStream == hasLocalStream
      ensures peers == map[] && streams == [] && emits == []
    {
      this.selfId := selfId;
      this.hasLocalStream := hasLocalStream;
      peers := map[];
      streams := [];
      emits := [];
    }

    /** A peer's `ontrack`: `addRemoteStream(remoteId, stream)`. */
    method OnTrack(remoteId: string, stream: string)
      modifies this`streams
      ensures streams == AddStream(old(streams), remoteId, stream)
    {
      streams := AddStream(streams, remoteId, stream);
    }

    /** `removePeer(id)`: close and forget the peer and its streams. */
    method RemovePeer(id: string)
      modifies this`peers, this`streams
      ensures peers == old(peers) - {id}
      ensures streams == KeepStreams(old(streams), {id})
    {
      peers := peers - {id};
      streams := KeepStreams(streams, {id});
    }

    /** `createPeer(remoteId, isInitiator)`. */
    method CreatePeer(remoteId: string, isInitiator: bool)
      modifies this`peers, this`emits
      ensures !hasLocalStream || remoteId in old(peers) ==> peers == old(peers) && emits == old(emits)
      ensures hasLocalStream && remoteId !in old(peers) ==>
        && peers == old(peers)[remoteId := Peer(isInitiator, [])]
        && emits == old(emits) + if isInitiator then [OfferTo(remoteId)] else []
    {
      if !hasLocalStream {
        return;
      }
      if remoteId in peers {
        return;
      }
      peers := peers[remoteId := Peer(isInitiator, [])];
      if isInitiator {
        emits := emits + [OfferTo(remoteId)];
      }
    }

    /** The reconcile effect on a new member list (socket ids). */
    method Reconcile(users: seq<string>)
      modifies this`peers, this`streams, this`emits
      ensures !hasLocalStream ==> peers == old(peers) && streams == old(streams) && emits == old(emits)
      ensures hasLocalStream ==>
        var others := Others(users, selfId);
        var created := CreateAll(old(peers), others, selfId);
        && peers == Restrict(created.0, others)
        && emits == old(emits) + created.1
        && streams == KeepStreams(old(streams), created.0.Keys - IdSet(others))
    {
      if !hasLocalStream {
        return;
      }
      var others := Others(users, selfId);
      CreatePeers(others);
      RemoveDeparted(others);
    }

    /** `others.forEach(remoteId => createPeer(remoteId, socket.id < remoteId))`. */
    method CreatePeers(others: seq<string>)
      requires hasLocalStream
      modifies this`peers, this`emits
      ensures peers == CreateAll(old(peers), others, selfId).0
      ensures emits == old(emits) + CreateAll(old(peers), others, selfId).1
    {
      var i := 0;
      assert others[..0] == [];
      while i < |others|
        invariant 0 <= i <= |others|
        invariant peers == CreateAll(old(peers), others[..i], selfId).0
        invariant emits == old(emits) + CreateAll(old(peers), others[..i], selfId).1
      {
        var remoteId := others[i];
        assert others[..i + 1][..i] == others[..i] && others[..i + 1][i] == remoteId;
        CreatePeer(remoteId, LexLess(selfId, remoteId));
        i := i + 1;
      }
      assert others[..i] == others;
    }

    /** The loop over `peersRef.current.keys()` removing every peer not in `others`. */
    method RemoveDeparted(others: seq<string>)
      modifies this`peers, this`streams
      ensures peers == Restrict(old(peers), others)
      ensures streams == KeepStreams(old(streams), old(peers).Keys - IdSet(others))
    {
      KeepStreamsNone(streams);
      ghost var mid := peers;
      var remaining := peers.Keys;
      assert (mid.Keys - remaining) - IdSet(others) == {};
      while remaining != {}
        invariant remaining <= mid.Keys
        invariant peers == map k | k in mid && (k in remaining || k in others) :: mid[k]
        invariant streams == KeepStreams(old(streams), (mid.Keys - remaining) - IdSet(others))
        decreases remaining
      {
        var id :| id in remaining;
        ghost var gone := (mid.Keys - remaining) - IdSet(others);
        remaining := remaining - {id};
        if id !in others {
          RemovePeer(id);
          KeepStreamsTwice(old(streams), gone, {id});
          assert gone + {id} == (mid.Keys - remaining) - IdSet(others);
        } else {
          assert gone == (mid.Keys - remaining) - IdSet(others);
        }
      }
      assert (mid.Keys - remaining) - IdSet(others) == mid.Keys - IdSet(others);
    }

    /** `webrtc:offer {from, offer}`: ensure a non-initiating peer, apply the offer, answer. */
    method OnOffer(from: string, offer: JsValue)
      modifies this`peers, this`emits
      ensures !hasLocalStream ==> peers == old(peers) && emits == old(emits)
      ensures hasLocalStream ==>
        var p := if from in old(peers) then old(peers)[from] else Peer(false, []);
        && peers == old(peers)[from := p.(applied := p.applied + [offer])]
        && emits == old(emits) + [AnswerTo(from)]
    {
      if !hasLocalStream {
        return;
      }
      CreatePeer(from, false);
      var p := peers[from];
      peers := peers[from := p.(applied := p.applied + [offer])];
      emits := emits + [AnswerTo(from)];
    }

    /** `webrtc:answer {from, answer}`: only for a known peer. */
    method OnAnswer(from: string, answer: JsValue)
      modifies this`peers
      ensures from !in old(peers) ==> peers == old(peers)
      ensures from in old(peers) ==> peers == old(peers)[from := old(peers)[from].(applied := old(peers)[from].applied + [answer])]
    {
      if from !in peers {
        return;
      }
      var p := peers[from];
      peers := peers[from := p.(applied := p.applied + [answer])];
    }

    /** `webrtc:ice {from, candidate}`: only for a known peer. */
    method OnIce(from: string, candidate: JsValue)
      modifies this`peers
      ensures from !in old(peers) ==> peers == old(peers)
      ensures from in old(peers) ==> peers == old(peers)[from := old(peers)[from].(applied := old(peers)[from].applied + [candidate])]
    {
      if from !in peers {
        return;
      }
      var p := peers[from];
      peers := peers[from := p.(applied := p.applied + [candidate])];
    }

    /** A peer's `onicecandidate`: a real candidate goes to that peer. */
    method OnLocalCandidate(remoteId: string, candidate: JsValue)
      modifies this`emits
      ensures emits == old(emits) + if Truthy(candidate) then [IceTo(remoteId, candidate)] else []
    {
      if Truthy(candidate) {
        emits := emits + [IceTo(remoteId, candidate)];
      }
    }
  }
}
