/** The one-to-one call state machine of the client
    (client/src/hooks/usevoiceCall.js). The refs the handlers read
    (`stateRef`, `peerRef`, `callTimeoutRef`, `callTimerRef`,
    `callDurationRef`, `pcRef`, `localStreamRef`) are fields; media objects
    are flags saying whether they exist; timers are pending entries that
    `FireRing` and `Tick` fire. */
module VoiceCall {
  import opened Common
  import opened Strings

  datatype CallState = Idle | Calling | Ringing | InCall

  datatype Direction = Incoming | Outgoing

  /** What `onCallLog` receives; timestamps are not modelled. */
  datatype LogEntry =
    | Missed(peer: string, direction: Direction)
    | Answered(peer: string, direction: Direction)
    | Rejected(peer: string, direction: Direction)
    | Ended(peer: string, duration: int)

  /** What the client emits on its socket. */
  datatype ClientEmit =
    | UserOnline(name: string)
    | CallRequest(to: string)
    | CallTimeout(to: string)
    | CallAccept(to: string)
    | CallReject(to: string)
    | CallEnd(to: string, duration: int)
    | OfferTo(to: string)
    | AnswerTo(to: string)
    | IceTo(to: string, candidate: JsValue)

  /** A 30-second ring timeout: who it is about and which way the call goes. */
  datatype RingKind = OutgoingRing(to: string) | IncomingRing(from: string)
  datatype Ring = Ring(tid: nat, kind: RingKind)

  /** The ring timeouts still scheduled, the one `callTimeoutRef` holds, and
      the next timer id. */
  datatype Timers = Timers(pending: set<Ring>, ref: Option<Ring>, nextId: nat)

  /** The media side: the microphone stream, the peer connection and the
      user it signals to, the remote `<audio>` element, the audio context
      with its compressor and gain, and the connected remote source node.
      `applied` lists what was passed to the peer connection's
      `setRemoteDescription`/`addIceCandidate`. */
  datatype Media = Media(mic: bool, pc: bool, pcPeer: string, applied: seq<JsValue>,
                         remoteAudio: bool, audioCtx: bool, remoteSource: bool)

  datatype ConnectionState = Connected | Failed | Disconnected | OtherState

  function RefSet(ref: Option<Ring>): set<Ring> {
    if ref.Some? then {ref.value} else {}
  }

  /** `clearTimeout(callTimeoutRef.current); callTimeoutRef.current = null`. */
  function ClearRef(t: Timers): (r: Timers)
    ensures r.ref == None && r.nextId == t.nextId
    ensures forall g :: g in r.pending <==> g in t.pending && Some(g) != t.ref
  {
    Timers(t.pending - RefSet(t.ref), None, t.nextId)
  }

  /** `callTimeoutRef.current = setTimeout(...)`, for a fresh timer. */
  function Arm(t: Timers, kind: RingKind): (r: Timers)
    ensures r.ref == Some(Ring(t.nextId, kind)) && r.nextId == t.nextId + 1
    ensures r.pending == t.pending + {Ring(t.nextId, kind)}
  {
    var g := Ring(t.nextId, kind);
    Timers(t.pending + {g}, Some(g), t.nextId + 1)
  }

  /** The ring timeouts are tidy when the only one scheduled is the one the
      ref holds, and every timer id is below `nextId`. */
  ghost predicate Tidy(t: Timers) {
    t.pending == RefSet(t.ref) && forall g :: g in t.pending ==> g.tid < t.nextId
  }

  /** Clearing the ref of tidy timers leaves none scheduled. */
  lemma ClearRefEmpties(t: Timers)
    requires Tidy(t)
    ensures ClearRef(t).pending == {} && Tidy(ClearRef(t))
  {
  }

  lemma ClearRefIdempotent(t: Timers)
    ensures ClearRef(ClearRef(t)) == ClearRef(t)
  {
  }

  /** `onIncoming` clears the old timeout before arming a new one: from tidy
      timers, exactly one ring timeout is scheduled afterwards. */
  lemma ReplaceRingTidy(t: Timers, kind: RingKind)
    requires Tidy(t)
    ensures var r := Arm(ClearRef(t), kind);
      Tidy(r) && r.pending == {r.ref.value} && r.ref.value.kind == kind
  {
  }

  /** `startCall` arms without clearing: a timeout already held by the ref
      stays scheduled but is no longer referenced, so no `clearTimeout`
      can reach it and two are scheduled. */
  lemma ArmWithoutClearOrphans(t: Timers, kind: RingKind)
    requires Tidy(t) && t.ref.Some?
    ensures var r := Arm(t, kind);
      && t.ref.value in r.pending && r.ref != t.ref && |r.pending| == 2
      && t.ref.value in ClearRef(r).pending
  {
    assert t.ref.value.tid < t.nextId;
    assert t.ref.value != Ring(t.nextId, kind);
  }

  /** `ensureRemoteAudio()`: the `<audio>` element and the audio context are
      created at most once. */
  function EnsureRemoteAudio(m: Media): (r: Media)
    ensures r.remoteAudio && r.audioCtx
    ensures r.mic == m.mic && r.pc == m.pc && r.pcPeer == m.pcPeer && r.applied == m.applied
    ensures r.remoteSource == m.remoteSource
    ensures m.remoteAudio && m.audioCtx ==> r == m
  {
    m.(remoteAudio := true, audioCtx := true)
  }

  /** `createPC(otherUser)`: ensures remote audio, then a new peer
      connection whose ICE candidates go to `otherUser`. */
  function CreatePC(m: Media, otherUser: string): (r: Media)
    ensures r.pc && r.pcPeer == otherUser && r.applied == [] && r.remoteAudio && r.audioCtx
    ensures r.mic == m.mic && r.remoteSource == m.remoteSource
  {
    EnsureRemoteAudio(m).(pc := true, pcPeer := otherUser, applied := [])
  }

  /** The media part of `cleanup()`: mic stopped, peer connection closed,
      remote source disconnected, audio context closed. The `<audio>`
      element stays. */
  function ReleaseMedia(m: Media): (r: Media)
    ensures !r.mic && !r.pc && !r.audioCtx && !r.remoteSource && r.applied == []
    ensures r.remoteAudio == m.remoteAudio
  {
    Media(false, false, m.pcPeer, [], m.remoteAudio, false, false)
  }

  /** `seconds.toString().padStart(2, "0")` for a number below 100. */
  function Pad2(n: nat): (s: string)
    requires n < 100
    ensures |s| == 2 && IsDigits(s)
  {
    var t := NatToString(n);
    if |t| < 2 then "0" + t else t
  }

  /** `formatDuration(seconds)`: minutes, a colon, two-digit seconds. */
  function FormatDuration(seconds: nat): (r: string)
    ensures var k := |NatToString(seconds / 60)|;
      && |r| == k + 3 && r[k] == ':' && r[..k] == NatToString(seconds / 60) && r[k + 1..] == Pad2(seconds % 60)
  {
    NatToString(seconds / 60) + ":" + Pad2(seconds % 60)
  }

  lemma ParsePad2(n: nat)
    requires n < 100
    ensures ParseNat(Pad2(n)) == n
  {
    ParseNatToString(n);
    var t := NatToString(n);
    if |t| < 2 {
      var p := "0" + t;
      assert p[..1] == "0";
      assert ParseNat(p) == ParseNat("0") * 10 + DigitValue(p[1]);
      assert ParseNat(t) == ParseNat(t[..0]) * 10 + DigitValue(t[0]);
    }
  }

  /** Reading the minutes and the seconds back out of `formatDuration(s)`
      gives `s = 60 * minutes + seconds` with seconds below 60. */
  lemma FormatDurationRoundTrip(seconds: nat)
    ensures var r := FormatDuration(seconds);
      var k := |NatToString(seconds / 60)|;
      && ParseNat(r[k + 1..]) < 60
      && 60 * ParseNat(r[..k]) + ParseNat(r[k + 1..]) == seconds
  {
    ParseNatToString(seconds / 60);
    ParsePad2(seconds % 60);
  }

  /** The state of one `useVoiceCall` instance. */
  class CallClient {
    /** Whether the hook was given a socket. */
    const hasSocket: bool
    const myName: string
    var state: CallState
    var peer: string
    var timers: Timers
    /** `callTimerRef.current` is set. */
    var durationTimer: bool
    /** `callDurationRef.current`. */
    var duration: nat
    var media: Media
    var muted: bool
    var emits: seq<ClientEmit>
    var callLog: seq<LogEntry>

    constructor (hasSocket: bool, myName: string)
      ensures this.hasSocket == hasSocket && this.myName == myName
      ensures state == Idle && peer == "" && timers == Timers({}, None, 0) && Tidy(timers)
      ensures !durationTimer && duration == 0 && !muted && emits == [] && callLog == []
      ensures media == Media(false, false, "", [], false, false, false)
    {
      this.hasSocket := hasSocket;
      this.myName := myName;
      state := Idle;
      peer := "";
      timers := Timers({}, None, 0);
      durationTimer := false;
      duration := 0;
      media := Media(false, false, "", [], false, false, false);
      muted := false;
      emits := [];
      callLog := [];
    }

    /** The state `cleanup()` leaves, starting from timers `t` and media `m`. */
    ghost predicate CleanedFrom(t: Timers, m: Media)
      reads this
    {
      && state == Idle && peer == "" && timers == ClearRef(t)
      && !durationTimer && duration == 0 && media == ReleaseMedia(m) && !muted
    }

    /** `stopCallTimer()`. */
    method StopCallTimer()
      modifies this`durationTimer
      ensures !durationTimer
    {
      if durationTimer {
        durationTimer := false;
      }
    }

    /** `startCallTimer()`: any running timer is stopped; counting restarts at 0. */
    method StartCallTimer()
      modifies this`durationTimer, this`duration
      ensures durationTimer && duration == 0
    {
      StopCallTimer();
      duration := 0;
      durationTimer := true;
    }

    /** One tick of the one-second interval. */
    method Tick()
      requires durationTimer
      modifies this`duration
      ensures duration == old(duration) + 1
    {
      duration := duration + 1;
    }

    /** `cleanup()`. */
    method Cleanup()
      modifies this
      ensures CleanedFrom(old(timers), old(media))
      ensures emits == old(emits) && callLog == old(callLog)
      ensures Tidy(old(timers)) ==> timers.pending == {} && Tidy(timers)
    {
      timers := ClearRef(timers);
      StopCallTimer();
      duration := 0;
      media := ReleaseMedia(media);
      muted := false;
      peer := "";
      state := Idle;
    }

    /** `startCall(toUser)`. */
    method StartCall(toUser: string)
      modifies this
      ensures !hasSocket || toUser == "" ==>
        state == old(state) && peer == old(peer) && timers == old(timers) && emits == old(emits)
      ensures hasSocket && toUser != "" ==>
        && state == Calling && peer == toUser && emits == old(emits) + [CallRequest(toUser)]
        && timers == Arm(old(timers), OutgoingRing(toUser))
      ensures durationTimer == old(durationTimer) && duration == old(duration) && media == old(media)
      ensures muted == old(muted) && callLog == old(callLog)
    {
      if !hasSocket {
        return;
      }
      if toUser == "" {
        return;
      }
      peer := toUser;
      state := Calling;
      emits := emits + [CallRequest(toUser)];
      timers := Arm(timers, OutgoingRing(toUser));
    }

    /** A scheduled ring timeout fires. An outgoing one logs a missed
        outgoing call and emits `call:timeout`; an incoming one logs a
        missed incoming call and rejects the caller. Both clean up. */
    method FireRing(g: Ring)
      requires g in timers.pending
      modifies this
      ensures var t := old(timers).(pending := old(timers).pending - {g});
        CleanedFrom(t, old(media))
      ensures g.kind.OutgoingRing? ==>
        emits == old(emits) + [CallTimeout(g.kind.to)] && callLog == old(callLog) + [Missed(g.kind.to, Outgoing)]
      ensures g.kind.IncomingRing? ==>
        emits == old(emits) + [CallReject(g.kind.from)] && callLog == old(callLog) + [Missed(g.kind.from, Incoming)]
    {
      timers := timers.(pending := timers.pending - {g});
      match g.kind {
        case OutgoingRing(to) =>
          callLog := callLog + [Missed(to, Outgoing)];
          emits := emits + [CallTimeout(to)];
        case IncomingRing(from) =>
          callLog := callLog + [Missed(from, Incoming)];
          emits := emits + [CallReject(from)];
      }
      Cleanup();
    }

    /** `acceptCall()`; `micGranted` is the outcome of `getUserMedia`. */
    method AcceptCall(micGranted: bool)
      modifies this
      ensures !hasSocket || old(peer) == "" ==> unchanged(this)
      ensures hasSocket && old(peer) != "" ==> emits == old(emits) + [CallAccept(old(peer))]
      ensures hasSocket && old(peer) != "" && micGranted ==>
        && state == InCall && peer == old(peer) && timers == ClearRef(old(timers))
        && media == CreatePC(old(media).(mic := true), old(peer))
        && callLog == old(callLog) + [Answered(old(peer), Incoming)]
        && durationTimer == old(durationTimer) && duration == old(duration) && muted == old(muted)
      ensures hasSocket && old(peer) != "" && !micGranted ==>
        CleanedFrom(old(timers), EnsureRemoteAudio(old(media))) && callLog == old(callLog)
    {
      var p := peer;
      if !hasSocket || p == "" {
        return;
      }
      timers := ClearRef(timers);
      state := InCall;
      media := EnsureRemoteAudio(media);
      emits := emits + [CallAccept(p)];
      if !micGranted {
        ClearRefIdempotent(old(timers));
        Cleanup();
        return;
      }
      media := media.(mic := true);
      media := CreatePC(media, p);
      callLog := callLog + [Answered(p, Incoming)];
    }

    /** `rejectCall()`. */
    method RejectCall()
      modifies this
      ensures !hasSocket || old(peer) == "" ==> unchanged(this)
      ensures hasSocket && old(peer) != "" ==>
        && CleanedFrom(old(timers), old(media))
        && emits == old(emits) + [CallReject(old(peer))]
        && callLog == old(callLog) + [Rejected(old(peer), Incoming)]
    {
      var p := peer;
      if !hasSocket || p == "" {
        return;
      }
      timers := ClearRef(timers);
      emits := emits + [CallReject(p)];
      callLog := callLog + [Rejected(p, Incoming)];
      ClearRefIdempotent(old(timers));
      Cleanup();
    }

    /** `createOffer(toUser)`, run by the caller once the callee accepted. */
    method CreateOffer(toUser: string, micGranted: bool)
      modifies this
      ensures !hasSocket || toUser == "" ==> unchanged(this)
      ensures hasSocket && toUser != "" && micGranted ==>
        && state == InCall && peer == old(peer) && timers == ClearRef(old(timers))
        && media == CreatePC(old(media).(mic := true), toUser)
        && emits == old(emits) + [OfferTo(toUser)]
        && callLog == old(callLog) + [Answered(toUser, Outgoing)]
        && durationTimer == old(durationTimer) && duration == old(duration) && muted == old(muted)
      ensures hasSocket && toUser != "" && !micGranted ==>
        CleanedFrom(old(timers), old(media)) && emits == old(emits) && callLog == old(callLog)
    {
      if !hasSocket || toUser == "" {
        return;
      }
      timers := ClearRef(timers);
      if !micGranted {
        ClearRefIdempotent(old(timers));
        Cleanup();
        return;
      }
      media := media.(mic := true);
      media := CreatePC(media, toUser);
      emits := emits + [OfferTo(toUser)];
      state := InCall;
      callLog := callLog + [Answered(toUser, Outgoing)];
    }

    /** `endCall()`: tell the peer with the local duration, log a call that
        actually ran, clean up. */
    method EndCall()
      modifies this
      ensures CleanedFrom(old(timers), old(media))
      ensures emits == old(emits) + (if hasSocket && old(peer) != "" then [CallEnd(old(peer), old(duration))] else [])
      ensures callLog == old(callLog) + (if old(state) == InCall && old(duration) > 0 then [Ended(old(peer), old(duration))] else [])
    {
      var p := peer;
      var d := duration;
      if hasSocket && p != "" {
        emits := emits + [CallEnd(p, d)];
      }
      if state == InCall && d > 0 {
        callLog := callLog + [Ended(p, d)];
      }
      Cleanup();
    }

    /** `toggleMute()`: only with a microphone stream. */
    method ToggleMute()
      modifies this`muted
      ensures muted == (if media.mic then !old(muted) else old(muted))
    {
      if !media.mic {
        return;
      }
      muted := !muted;
    }

    /** The listener effect announces the user once it has a socket and a name. */
    method Register()
      modifies this`emits
      ensures emits == old(emits) + (if hasSocket && myName != "" then [UserOnline(myName)] else [])
    {
      if !hasSocket || myName == "" {
        return;
      }
      emits := emits + [UserOnline(myName)];
    }

    /** `call:incoming {from}`: ring, replacing any earlier ring timeout. */
    method OnIncoming(from: string)
      modifies this
      ensures state == Ringing && peer == from
      ensures timers == Arm(ClearRef(old(timers)), IncomingRing(from))
      ensures Tidy(old(timers)) ==> Tidy(timers) && timers.pending == {timers.ref.value}
      ensures media == old(media) && emits == old(emits) && callLog == old(callLog)
      ensures durationTimer == old(durationTimer) && duration == old(duration) && muted == old(muted)
    {
      peer := from;
      state := Ringing;
      timers := ClearRef(timers);
      timers := Arm(timers, IncomingRing(from));
      if Tidy(old(timers)) {
        ReplaceRingTidy(old(timers), IncomingRing(from));
      }
    }

    /** `call:accepted {from}`. */
    method OnAccepted(from: string, micGranted: bool)
      modifies this
      ensures !hasSocket || from == "" ==> unchanged(this)
      ensures hasSocket && from != "" && micGranted ==>
        && state == InCall && timers == ClearRef(old(timers)) && media == CreatePC(old(media).(mic := true), from)
        && emits == old(emits) + [OfferTo(from)] && callLog == old(callLog) + [Answered(from, Outgoing)]
        && durationTimer == old(durationTimer) && duration == old(duration) && peer == old(peer) && muted == old(muted)
      ensures hasSocket && from != "" && !micGranted ==>
        CleanedFrom(old(timers), old(media)) && emits == old(emits) && callLog == old(callLog)
    {
      CreateOffer(from, micGranted);
    }

    /** `call:rejected {from}`. */
    method OnRejected(from: string)
      modifies this
      ensures CleanedFrom(old(timers), old(media))
      ensures emits == old(emits) && callLog == old(callLog) + [Rejected(from, Outgoing)]
    {
      callLog := callLog + [Rejected(from, Outgoing)];
      Cleanup();
    }

    /** `call:ended {from, duration}`: the payload's duration when present
        (`??`), else the local count; logged only above zero. */
    method OnEnded(from: string, payloadDuration: Option<int>)
      modifies this
      ensures CleanedFrom(old(timers), old(media)) && emits == old(emits)
      ensures var d := payloadDuration.GetOr(old(duration));
        callLog == old(callLog) + (if d > 0 then [Ended(from, d)] else [])
    {
      var finalDuration := payloadDuration.GetOr(duration);
      if finalDuration > 0 {
        callLog := callLog + [Ended(from, finalDuration)];
      }
      Cleanup();
    }

    /** `call:timeout {from}`. */
    method OnTimeout(from: string)
      modifies this
      ensures CleanedFrom(old(timers), old(media))
      ensures emits == old(emits) && callLog == old(callLog) + [Missed(from, Incoming)]
    {
      callLog := callLog + [Missed(from, Incoming)];
      Cleanup();
    }

    /** `call:unavailable {to}`. */
    method OnUnavailable(to: string)
      modifies this
      ensures CleanedFrom(old(timers), old(media))
      ensures emits == old(emits) && callLog == old(callLog)
    {
      Cleanup();
    }

    /** `webrtc:offer {from, offer}`: join the call if not in one, reuse or
        create the peer connection, get the microphone if missing, answer. */
    method OnOffer(from: string, offer: JsValue, micGranted: bool)
      modifies this
      ensures var m1 := if old(media).pc then old(media) else CreatePC(old(media), from);
        && (old(media).mic || micGranted ==>
             && state == InCall && peer == (if old(state) == InCall then old(peer) else from)
             && media == m1.(mic := true, applied := m1.applied + [offer])
             && emits == old(emits) + [AnswerTo(from)]
             && timers == old(timers) && callLog == old(callLog)
             && durationTimer == old(durationTimer) && duration == old(duration) && muted == old(muted))
        && (!old(media).mic && !micGranted ==>
             CleanedFrom(old(timers), m1) && emits == old(emits) && callLog == old(callLog))
    {
      if state != InCall {
        peer := from;
        state := InCall;
      }
      if !media.pc {
        media := CreatePC(media, from);
      }
      if !media.mic {
        if !micGranted {
          Cleanup();
          return;
        }
        media := media.(mic := true);
      }
      media := media.(applied := media.applied + [offer]);
      emits := emits + [AnswerTo(from)];
    }

    /** `webrtc:answer {from, answer}`: ignored without a peer connection. */
    method OnAnswer(answer: JsValue)
      modifies this`media
      ensures media == (if old(media).pc then old(media).(applied := old(media).applied + [answer]) else old(media))
    {
      if !media.pc {
        return;
      }
      media := media.(applied := media.applied + [answer]);
    }

    /** `webrtc:ice {candidate}`: ignored without a peer connection. */
    method OnIce(candidate: JsValue)
      modifies this`media
      ensures media == (if old(media).pc then old(media).(applied := old(media).applied + [candidate]) else old(media))
    {
      if !media.pc {
        return;
      }
      media := media.(applied := media.applied + [candidate]);
    }

    /** The peer connection finds a local ICE candidate and sends it to the
        user it was created for. */
    method OnLocalCandidate(candidate: JsValue)
      requires media.pc
      modifies this`emits
      ensures emits == old(emits) + (if Truthy(candidate) && hasSocket then [IceTo(media.pcPeer, candidate)] else [])
    {
      if Truthy(candidate) && hasSocket {
        emits := emits + [IceTo(media.pcPeer, candidate)];
      }
    }

    /** The peer connection delivers the remote track: with an audio
        context, a source node is connected into the amplification chain. */
    method OnRemoteTrack()
      requires media.pc
      modifies this`media
      ensures media == (if old(media).audioCtx then old(media).(remoteSource := true) else old(media))
    {
      if media.audioCtx {
        media := media.(remoteSource := true);
      }
    }

    /** `onconnectionstatechange`: "connected" starts the duration timer from
        0 unless one runs; "failed" and "disconnected" clean up. */
    method OnConnectionState(s: ConnectionState)
      requires media.pc
      modifies this
      ensures s == Connected && !old(durationTimer) ==>
        && durationTimer && duration == 0
        && state == old(state) && peer == old(peer) && timers == old(timers) && media == old(media) && muted == old(muted)
      ensures s == Connected && old(durationTimer) ==> unchanged(this)
      ensures s == Failed || s == Disconnected ==> CleanedFrom(old(timers), old(media))
      ensures s == OtherState ==> unchanged(this)
      ensures emits == old(emits) && callLog == old(callLog)
    {
      if s == Connected && !durationTimer {
        StartCallTimer();
      }
      if s == Failed || s == Disconnected {
        Cleanup();
      }
    }
  }

  /** A full outgoing call: ring, accepted, connected for three ticks, hung
      up. The callee gets `call:end` with duration 3 and the log has the
      answered call and its end. */
  method OutgoingCallScenario() returns (c: CallClient)
    ensures c.emits == [CallRequest("bob"), OfferTo("bob"), CallEnd("bob", 3)]
    ensures c.callLog == [Answered("bob", Outgoing), Ended("bob", 3)]
    ensures c.state == Idle && c.timers.pending == {} && !c.durationTimer && c.duration == 0
  {
    c := new CallClient(true, "alice");
    c.StartCall("bob");
    c.OnAccepted("bob", true);
    c.OnConnectionState(Connected);
    c.Tick();
    c.Tick();
    c.Tick();
    c.EndCall();
  }
}
