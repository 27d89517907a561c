/** What the negotiation endpoint's handlers guarantee. */
module PeerEndpointProperties {
  import opened Wrappers
  import opened Protocol
  import opened PeerEndpoint

  lemma AcquireAudioConsistent(v: Vars, b: Browser)
    requires Consistent(v) && !v.peerConnection
    ensures Consistent(AcquireAudio(v, b).vars)
    ensures !AcquireAudio(v, b).vars.peerConnection
  {
  }

  lemma OpenConnectionConsistent(v: Vars, b: Browser)
    requires Consistent(v)
    ensures Consistent(OpenConnection(v, b).vars)
  {
  }

  lemma SendLocalOfferConsistent(v: Vars, b: Browser)
    requires Consistent(v)
    ensures Consistent(SendLocalOffer(v, b).vars)
  {
  }

  lemma EnableVideoConsistent(v: Vars, b: Browser)
    requires Consistent(v)
    ensures Consistent(EnableVideo(v, b))
  {
    if v.videoTrack.None? && b.camera {
      var t := v.nextTrack;
      var w := v.(videoTrack := Some(t), live := v.live + {t}, nextTrack := t + 1,
                  localStream := Some(StreamTracks(v.localStream) + [t]));
      assert Elems(StreamTracks(w.localStream)) == Elems(StreamTracks(v.localStream)) + {t};
      if w.peerConnection {
        var w1 := w.(videoSender := true, calls := w.calls + [AddTrack(t)]);
        assert Consistent(w1);
        SendLocalOfferConsistent(w1, b);
      }
    }
  }

  lemma DisableVideoConsistent(v: Vars, b: Browser)
    requires Consistent(v)
    ensures Consistent(DisableVideo(v, b).vars)
  {
  }

  lemma CleanUpConsistent(v: Vars)
    requires Consistent(v)
    ensures Consistent(CleanUp(v))
  {
  }

  /** Changing only the recorded calls and messages keeps the invariant. */
  lemma RecordsIrrelevant(v: Vars, calls: seq<PcCall>, outbox: seq<ClientMessage>)
    requires Consistent(v)
    ensures Consistent(v.(calls := calls, outbox := outbox))
  {
  }

  lemma AnswerOfferConsistent(v: Vars, p: Payload, b: Browser)
    requires Consistent(v)
    ensures Consistent(AnswerOffer(v, p, b).vars)
  {
    var r := AnswerOffer(v, p, b).vars;
    assert r == v.(calls := r.calls, outbox := r.outbox);
    RecordsIrrelevant(v, r.calls, r.outbox);
  }

  lemma OfferConsistent(v: Vars, p: Payload, b: Browser)
    requires Consistent(v)
    ensures Consistent(HandleOffer(v, p, b).vars)
  {
    OpenConnectionConsistent(v, b);
    var o := OpenConnection(v, b);
    if o.ok {
      AnswerOfferConsistent(o.vars, p, b);
    }
  }

  lemma SignalConsistent(v: Vars, p: Payload, b: Browser)
    requires Consistent(v)
    ensures Consistent(OnSignal(v, p, b))
  {
    if Truthy(p) && p.Offer? {
      OfferConsistent(v, p, b);
    }
  }

  lemma ReadyConsistent(v: Vars, b: Browser)
    requires Consistent(v)
    ensures Consistent(OnReady(v, b))
  {
    var w := v.(status := PeerConnecting);
    if w.isInitiator {
      OpenConnectionConsistent(w, b);
      var o := if w.peerConnection then Step(w, true) else OpenConnection(w, b);
      SendLocalOfferConsistent(o.vars, b);
    }
  }

  lemma JoinedConsistent(v: Vars, initiator: bool, b: Browser)
    requires Consistent(v)
    ensures Consistent(OnJoined(v, initiator, b))
  {
    OpenConnectionConsistent(v.(isInitiator := initiator), b);
  }

  lemma PeerLeftConsistent(v: Vars)
    requires Consistent(v)
    ensures Consistent(OnPeerLeft(v))
  {
    CleanUpConsistent(v.(status := PeerGone));
  }

  lemma HangUpConsistent(v: Vars)
    requires Consistent(v)
    ensures Consistent(HangUp(v))
  {
    CleanUpConsistent(v.(outbox := v.outbox + [LeaveRoom(v.roomId)]));
  }

  lemma JoinedHandledConsistent(v: Vars, initiator: bool, b: Browser)
    requires Consistent(v)
    ensures Consistent(Handle(v, JoinedEvent(initiator), b))
  {
    JoinedConsistent(v, initiator, b);
  }

  lemma ReadyHandledConsistent(v: Vars, b: Browser)
    requires Consistent(v)
    ensures Consistent(Handle(v, ReadyEvent, b))
  {
    ReadyConsistent(v, b);
  }

  lemma SignalHandledConsistent(v: Vars, p: Payload, b: Browser)
    requires Consistent(v)
    ensures Consistent(Handle(v, SignalEvent(p), b))
  {
    SignalConsistent(v, p, b);
  }

  lemma ToggleHandledConsistent(v: Vars, b: Browser)
    requires Consistent(v)
    ensures Consistent(Handle(v, ToggleVideoClick, b))
  {
    EnableVideoConsistent(v, b);
    DisableVideoConsistent(v, b);
  }

  lemma TeardownHandledConsistent(v: Vars, b: Browser)
    requires Consistent(v)
    ensures Consistent(Handle(v, PeerLeftEvent, b))
    ensures Consistent(Handle(v, HangUpClick, b))
  {
    PeerLeftConsistent(v);
    HangUpConsistent(v);
  }

  lemma SimpleHandledConsistent(v: Vars, i: Input, b: Browser)
    requires Consistent(v)
    requires i.ConnectEvent? || i.WaitingEvent? || i.RoomFullEvent? || i.RoomErrorEvent? ||
             i.LocalCandidate? || i.StateChange? || i.BeforeUnload?
    ensures Consistent(Handle(v, i, b))
  {
  }

  /** Every handler keeps the invariant. */
  lemma HandleConsistent(v: Vars, i: Input, b: Browser)
    requires Consistent(v)
    ensures Consistent(Handle(v, i, b))
  {
    match i
    case JoinedEvent(initiator) => JoinedHandledConsistent(v, initiator, b);
    case ReadyEvent => ReadyHandledConsistent(v, b);
    case SignalEvent(p) => SignalHandledConsistent(v, p, b);
    case PeerLeftEvent => TeardownHandledConsistent(v, b);
    case ToggleVideoClick => ToggleHandledConsistent(v, b);
    case HangUpClick => TeardownHandledConsistent(v, b);
    case _ => SimpleHandledConsistent(v, i, b);
  }

  /** Every run of handlers from the page's start keeps the invariant. */
  lemma {:induction false} RunConsistent(v: Vars, trace: seq<Event>)
    requires Consistent(v)
    ensures Consistent(Run(v, trace))
    decreases |trace|
  {
    if trace != [] {
      HandleConsistent(v, trace[0].input, trace[0].browser);
      RunConsistent(Handle(v, trace[0].input, trace[0].browser), trace[1..]);
    }
  }
}

/** Behaviour of the endpoint's handlers, one property per guard of the script. */
module PeerEndpointBehaviour {
  import opened Wrappers
  import opened Protocol
  import opened PeerEndpoint
  import opened PeerEndpointProperties

  /** `ensureAudioStream` does nothing once stream and microphone track exist; a denied microphone only sets the status and rejects. */
  lemma AcquireAudioGuard(v: Vars, b: Browser, b': Browser)
    ensures v.localStream.Some? && v.audioTrack.Some? ==> AcquireAudio(v, b) == Step(v, true)
    ensures !(v.localStream.Some? && v.audioTrack.Some?) && !b.microphone ==>
      AcquireAudio(v, b) == Step(v.(status := MicrophoneRequired), false)
    ensures AcquireAudio(v, b).ok ==>
      var w := AcquireAudio(v, b).vars;
      w.localStream.Some? && w.audioTrack.Some? && AcquireAudio(w, b') == Step(w, true)
  {
  }

  /**
   * `ensurePeerConnection` does nothing when a connection exists. Otherwise,
   * once the microphone is secured, it creates the connection and attaches the
   * audio track and a present video track, each exactly once; a second call
   * changes nothing.
   */
  lemma OpenConnectionGuard(v: Vars, b: Browser, b': Browser)
    requires Consistent(v)
    ensures v.peerConnection ==> OpenConnection(v, b) == Step(v, true)
    ensures !OpenConnection(v, b).ok ==> OpenConnection(v, b).vars == v.(status := MicrophoneRequired)
    ensures OpenConnection(v, b).ok ==>
      var w := OpenConnection(v, b).vars;
      && w.peerConnection && w.audioSender && w.audioTrack.Some?
      && (w.videoTrack.Some? <==> w.videoSender)
      && OpenConnection(w, b') == Step(w, true)
    ensures OpenConnection(v, b).ok && !v.peerConnection ==>
      var w := OpenConnection(v, b).vars;
      w.calls == v.calls + [NewConnection, AddTrack(w.audioTrack.value)] +
                 (if v.videoTrack.Some? then [AddTrack(v.videoTrack.value)] else [])
  {
    OpenConnectionConsistent(v, b);
    if !v.peerConnection && OpenConnection(v, b).ok {
      var a := AcquireAudio(v, b).vars;
      assert a.calls == v.calls && !a.audioSender && !a.videoSender && a.videoTrack == v.videoTrack;
    }
  }

  /** The latest `joined` decides the role; nothing else assigns it. */
  function LastRole(role: bool, trace: seq<Event>): bool
    decreases |trace|
  {
    if trace == [] then role
    else LastRole(if trace[0].input.JoinedEvent? then trace[0].input.initiator else role, trace[1..])
  }

  lemma OpenConnectionKeepsRole(v: Vars, b: Browser)
    ensures OpenConnection(v, b).vars.isInitiator == v.isInitiator
  {
    assert AcquireAudio(v, b).vars.isInitiator == v.isInitiator;
  }

  lemma OfferKeepsRole(v: Vars, b: Browser)
    ensures CreateAndSendOffer(v, b).vars.isInitiator == v.isInitiator
  {
    OpenConnectionKeepsRole(v, b);
  }

  lemma AnswerKeepsRole(v: Vars, p: Payload, b: Browser)
    ensures HandleOffer(v, p, b).vars.isInitiator == v.isInitiator
  {
    OpenConnectionKeepsRole(v, b);
  }

  /** Making and sending an offer changes only the recorded calls and messages. */
  lemma SendLocalOfferKeepsState(v: Vars, b: Browser)
    ensures var r := SendLocalOffer(v, b).vars; r == v.(calls := r.calls, outbox := r.outbox)
  {
  }

  lemma EnableVideoKeepsRole(v: Vars, b: Browser)
    ensures EnableVideo(v, b).isInitiator == v.isInitiator
  {
    if v.videoTrack.None? && b.camera && v.peerConnection {
      SendLocalOfferKeepsState(AddVideoSender(WithCamera(v), v.nextTrack), b);
    }
  }

  lemma DisableVideoKeepsRole(v: Vars, b: Browser)
    ensures DisableVideo(v, b).vars.isInitiator == v.isInitiator
  {
    if v.videoTrack.Some? && v.videoSender && v.peerConnection {
      var t := v.videoTrack.value;
      SendLocalOfferKeepsState(RemoveVideoSender(WithoutCamera(v, t), t), b);
    }
  }

  lemma HandleRole(v: Vars, i: Input, b: Browser)
    ensures Handle(v, i, b).isInitiator == if i.JoinedEvent? then i.initiator else v.isInitiator
  {
    match i
    case JoinedEvent(initiator) => JoinedRole(v, initiator, b);
    case ReadyEvent => ReadyRole(v, b);
    case SignalEvent(p) => SignalRole(v, p, b);
    case ToggleVideoClick => ToggleRole(v, b);
    case PeerLeftEvent => TeardownRole(v, b);
    case HangUpClick => TeardownRole(v, b);
    case _ => SimpleRole(v, i, b);
  }

  lemma JoinedRole(v: Vars, initiator: bool, b: Browser)
    ensures Handle(v, JoinedEvent(initiator), b).isInitiator == initiator
  {
    OpenConnectionKeepsRole(v.(isInitiator := initiator), b);
  }

  lemma ReadyRole(v: Vars, b: Browser)
    ensures Handle(v, ReadyEvent, b).isInitiator == v.isInitiator
  {
    OfferKeepsRole(v.(status := PeerConnecting), b);
  }

  lemma SignalRole(v: Vars, p: Payload, b: Browser)
    ensures Handle(v, SignalEvent(p), b).isInitiator == v.isInitiator
  {
    AnswerKeepsRole(v, p, b);
  }

  lemma ToggleRole(v: Vars, b: Browser)
    ensures Handle(v, ToggleVideoClick, b).isInitiator == v.isInitiator
  {
    EnableVideoKeepsRole(v, b);
    DisableVideoKeepsRole(v, b);
  }

  lemma TeardownRole(v: Vars, b: Browser)
    ensures Handle(v, PeerLeftEvent, b).isInitiator == v.isInitiator
    ensures Handle(v, HangUpClick, b).isInitiator == v.isInitiator
  {
  }

  lemma SimpleRole(v: Vars, i: Input, b: Browser)
    requires !i.JoinedEvent? && !i.ReadyEvent? && !i.SignalEvent? && !i.ToggleVideoClick?
    requires !i.PeerLeftEvent? && !i.HangUpClick?
    ensures Handle(v, i, b).isInitiator == v.isInitiator
  {
  }

  /** `isInitiator` after any run is the role of the last `joined`, or the initial one; `cleanUp` never resets it. */
  lemma {:induction false} RoleIsLastJoined(v: Vars, trace: seq<Event>)
    ensures Run(v, trace).isInitiator == LastRole(v.isInitiator, trace)
    decreases |trace|
  {
    if trace != [] {
      HandleRole(v, trace[0].input, trace[0].browser);
      RoleIsLastJoined(Handle(v, trace[0].input, trace[0].browser), trace[1..]);
    }
  }

  /** `joined` records the role and secures the connection; without a microphone it stops at the status. */
  lemma JoinedOpensConnection(v: Vars, initiator: bool, b: Browser)
    requires Consistent(v)
    ensures OnJoined(v, initiator, b).isInitiator == initiator
    ensures OnJoined(v, initiator, b).outbox == v.outbox
    ensures (v.peerConnection || (v.localStream.Some? && v.audioTrack.Some?) || b.microphone) ==>
      OnJoined(v, initiator, b).peerConnection && OnJoined(v, initiator, b).status == InRoom
    ensures !(v.peerConnection || (v.localStream.Some? && v.audioTrack.Some?) || b.microphone) ==>
      OnJoined(v, initiator, b) == v.(isInitiator := initiator, status := MicrophoneRequired)
  {
    OpenConnectionGuard(v.(isInitiator := initiator), b, b);
  }

  /**
   * `ready` makes an offer only on the initiator's side; there it sends one
   * offer when every browser call succeeds, and none otherwise.
   */
  lemma ReadyOffersOnlyAsInitiator(v: Vars, b: Browser)
    requires Consistent(v)
    ensures !v.isInitiator ==> OnReady(v, b) == v.(status := PeerConnecting)
    ensures OnReady(v, b).outbox == v.outbox ||
            OnReady(v, b).outbox == v.outbox + [SignalMsg(v.roomId, Offer(b.sdp))]
    ensures OnReady(v, b).outbox != v.outbox ==> v.isInitiator && OnReady(v, b).peerConnection
    ensures v.isInitiator && (v.peerConnection || b.microphone) && b.describe && b.setLocal ==>
      OnReady(v, b).outbox == v.outbox + [SignalMsg(v.roomId, Offer(b.sdp))]
  {
    var w := v.(status := PeerConnecting);
    OpenConnectionGuard(w, b, b);
  }

  /** A falsy payload, or one of no known type, is ignored. */
  lemma SignalIgnored(v: Vars, p: Payload, b: Browser)
    requires !Truthy(p) || p.OtherValue?
    ensures OnSignal(v, p, b) == v
  {
  }

  /** An answer is applied only to an existing connection, and whatever its outcome nothing else changes. */
  lemma AnswerApplied(v: Vars, sdp: string, b: Browser)
    ensures OnSignal(v, Answer(sdp), b) ==
      if v.peerConnection then v.(calls := v.calls + [SetRemote(Answer(sdp))]) else v
  {
  }

  /** A candidate is applied only with both a connection and a candidate; its failure is swallowed. */
  lemma CandidateApplied(v: Vars, c: Option<string>, b: Browser, b': Browser)
    ensures OnSignal(v, Candidate(c), b) ==
      if v.peerConnection && c.Some? then v.(calls := v.calls + [AddIceCandidate(c.value)]) else v
    ensures OnSignal(v, Candidate(c), b) == OnSignal(v, Candidate(c), b')
  {
  }

  /**
   * An offer is applied as the remote description and answered: when the
   * connection exists or can be made and every call succeeds, exactly one
   * answer is sent; a failure sends nothing. An offer never makes an offer.
   */
  lemma OfferAnswered(v: Vars, sdp: string, b: Browser)
    requires Consistent(v)
    ensures var r := OnSignal(v, Offer(sdp), b);
      r.outbox == v.outbox || r.outbox == v.outbox + [SignalMsg(v.roomId, Answer(b.sdp))]
    ensures (v.peerConnection || (v.localStream.Some? && v.audioTrack.Some?) || b.microphone) ==>
      var r := OnSignal(v, Offer(sdp), b);
      && r.peerConnection
      && SetRemote(Offer(sdp)) in r.calls
      && (b.setRemote && b.describe && b.setLocal <==> r.outbox == v.outbox + [SignalMsg(v.roomId, Answer(b.sdp))])
  {
    OpenConnectionGuard(v, b, b);
    var o := OpenConnection(v, b);
    if o.ok {
      assert o.vars.outbox == v.outbox;
    }
  }

  /** A local ICE event signals the candidate exactly when it is not null. */
  lemma LocalCandidateSignalled(v: Vars, c: Option<string>)
    ensures OnIceCandidate(v, c).outbox ==
      if c.Some? then v.outbox + [SignalMsg(v.roomId, Candidate(c))] else v.outbox
    ensures OnIceCandidate(v, c).(outbox := v.outbox) == v
  {
  }

  /**
   * `enableVideo` does nothing when video is on. Otherwise the camera track
   * becomes current and live; a sender is added and an offer made only when a
   * connection exists; any failure only sets the status.
   */
  lemma EnableVideoBehaviour(v: Vars, b: Browser)
    requires Consistent(v)
    ensures v.videoTrack.Some? ==> EnableVideo(v, b) == v
    ensures v.videoTrack.None? && !b.camera ==> EnableVideo(v, b) == v.(status := VideoFailed)
    ensures v.videoTrack.None? && b.camera ==>
      var r := EnableVideo(v, b);
      && r.videoTrack == Some(v.nextTrack) && v.nextTrack in r.live && v.nextTrack !in v.live
      && r.videoSender == v.peerConnection
      && r.isInitiator == v.isInitiator && r.peerConnection == v.peerConnection
      && (!v.peerConnection ==> r.calls == v.calls && r.outbox == v.outbox && r.status == v.status)
      && (v.peerConnection ==> r.calls[..|v.calls| + 2] == v.calls + [AddTrack(v.nextTrack), CreateOffer])
      && (v.peerConnection && b.describe && b.setLocal ==>
            r.outbox == v.outbox + [SignalMsg(v.roomId, Offer(b.sdp))] && r.status == v.status)
      && (v.peerConnection && !(b.describe && b.setLocal) ==> r.outbox == v.outbox && r.status == VideoFailed)
  {
    if v.videoTrack.None? && b.camera && v.peerConnection {
      var r := EnableVideo(v, b);
      assert v.nextTrack !in v.live;
      assert r.calls[..|v.calls| + 2] == v.calls + [AddTrack(v.nextTrack), CreateOffer];
    }
  }

  /**
   * `disableVideo` does nothing when video is off. Otherwise the camera track
   * is stopped and forgotten; the sender is removed and an offer made only when
   * both the sender and the connection exist.
   */
  lemma DisableVideoBehaviour(v: Vars, b: Browser)
    requires Consistent(v)
    ensures v.videoTrack.None? ==> DisableVideo(v, b) == Step(v, true)
    ensures v.videoTrack.Some? ==>
      var t := v.videoTrack.value; var r := DisableVideo(v, b).vars;
      && r.videoTrack.None? && !r.videoSender && t !in r.live
      && r.localStream.Some? && t !in r.localStream.value
      && r.audioTrack == v.audioTrack && r.peerConnection == v.peerConnection
      && (!(v.videoSender && v.peerConnection) ==> r.calls == v.calls && r.outbox == v.outbox)
      && (v.videoSender && v.peerConnection ==>
            r.calls[..|v.calls| + 2] == v.calls + [RemoveTrack(t), CreateOffer]
            && (b.describe && b.setLocal <==> r.outbox == v.outbox + [SignalMsg(v.roomId, Offer(b.sdp))]))
  {
    if v.videoTrack.Some? && v.videoSender && v.peerConnection {
      var r := DisableVideo(v, b).vars;
      assert r.calls[..|v.calls| + 2] == v.calls + [RemoveTrack(v.videoTrack.value), CreateOffer];
    }
  }

  /** The video button turns video off when it is on, and on when the camera allows it. */
  lemma ToggleVideoFlips(v: Vars, b: Browser)
    requires Consistent(v)
    ensures v.videoTrack.Some? ==> ToggleVideo(v, b).videoTrack.None?
    ensures v.videoTrack.None? ==> (ToggleVideo(v, b).videoTrack.Some? <==> b.camera)
  {
  }

  /**
   * `cleanUp` closes the connection, forgets the stream, both tracks and both
   * senders, and stops every acquired track; the role and what was sent stay.
   */
  lemma CleanUpReleasesEverything(v: Vars)
    requires Consistent(v)
    ensures var r := CleanUp(v);
      && !r.peerConnection && r.localStream.None? && r.audioTrack.None? && r.videoTrack.None?
      && !r.audioSender && !r.videoSender && r.live == {}
      && r.isInitiator == v.isInitiator && r.outbox == v.outbox && r.status == v.status
      && r.calls == (if v.peerConnection then v.calls + [Close] else v.calls)
  {
  }

  /** Hanging up tells the gateway, tears down, and disables both buttons. */
  lemma HangUpTearsDown(v: Vars)
    requires Consistent(v)
    ensures var r := HangUp(v);
      && r.outbox == v.outbox + [LeaveRoom(v.roomId)]
      && r == CleanUp(v).(outbox := r.outbox, status := CallEnded, controlsDisabled := true)
  {
  }

  /** A departed peer tears the call down but leaves both buttons enabled. */
  lemma PeerLeftTearsDown(v: Vars)
    requires Consistent(v)
    ensures OnPeerLeft(v) == CleanUp(v).(status := PeerGone, controlsDisabled := false)
    ensures OnPeerLeft(v).live == {}
  {
    CleanUpReleasesEverything(v.(status := PeerGone));
  }

  /** A full or missing room disables both buttons and tears nothing down. */
  lemma RejectionKeepsMedia(v: Vars, message: string)
    ensures OnRoomFull(v) == v.(status := RoomOccupied, controlsDisabled := true)
    ensures OnRoomError(v, message).(status := v.status, controlsDisabled := v.controlsDisabled) == v
    ensures OnRoomError(v, message).controlsDisabled
    ensures OnRoomError(v, message).status.message == if message == "" then DefaultRoomErrorText else message
  {
  }

  /** After any run of handlers from the page's start, hanging up or losing the peer leaves no track live. */
  lemma TeardownStopsAllMedia(roomId: RoomId, trace: seq<Event>)
    ensures HangUp(Run(Initial(roomId), trace)).live == {}
    ensures OnPeerLeft(Run(Initial(roomId), trace)).live == {}
  {
    var v := Run(Initial(roomId), trace);
    RunConsistent(Initial(roomId), trace);
    HangUpTearsDown(v);
    CleanUpReleasesEverything(v.(outbox := v.outbox + [LeaveRoom(v.roomId)]));
    PeerLeftTearsDown(v);
  }

  /**
   * The source's `ensureAudioStream` replaces a stream that already holds the
   * camera track: enabling video before the connection exists, then securing
   * the microphone, then tearing down leaves the camera track live.
   */
  lemma AsWrittenLeavesCameraLive(roomId: RoomId, sdp: string)
    ensures var b := Browser(true, true, true, true, true, true, sdp);
      var v1 := Run(Initial(roomId), [Event(ToggleVideoClick, b)]);
      && v1.videoTrack == Some(0) && !v1.peerConnection
      && Consistent(v1)
      && AcquireAudioAsWritten(v1, b).ok
      && !Consistent(AcquireAudioAsWritten(v1, b).vars)
      && CleanUp(AcquireAudioAsWritten(v1, b).vars).live == {0}
      && CleanUp(AcquireAudio(v1, b).vars).live == {}
  {
    var b := Browser(true, true, true, true, true, true, sdp);
    var v1 := Run(Initial(roomId), [Event(ToggleVideoClick, b)]);
    var e := [Event(ToggleVideoClick, b)];
    assert e[1..] == [];
    assert v1 == Run(Handle(Initial(roomId), ToggleVideoClick, b), []);
    assert v1 == EnableVideo(Initial(roomId), b);
    assert StreamTracks(None) + [0] == [0];
    assert v1.localStream == Some([0]) && v1.live == {0};
    var a := AcquireAudioAsWritten(v1, b).vars;
    assert a.localStream == Some([1]) && a.live == {0, 1};
    assert Elems([1]) == {1};
    assert 0 !in Elems(StreamTracks(a.localStream));
    var c := AcquireAudio(v1, b).vars;
    assert [0] + [1] == [0, 1];
    assert c.localStream == Some([0, 1]) && c.live == {0, 1};
    assert Elems([0, 1]) == {0, 1};
  }
}
