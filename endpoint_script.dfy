/**
 * The room page's script as the browser runs it: the script's top-level
 * variables are the fields of one object, and each handler updates them in
 * place. Every method is proved to have the effect the corresponding
 * function of `PeerEndpoint` gives, and every handler keeps `Valid`.
 */
module EndpointScript {
  import opened Wrappers
  import opened Protocol
  import opened PeerEndpoint
  import PeerEndpointProperties

  class Endpoint {
    const roomId: RoomId
    var isInitiator: bool
    var peerConnection: bool
    var localStream: Option<seq<TrackId>>
    var audioTrack: Option<TrackId>
    var audioSender: bool
    var videoTrack: Option<TrackId>
    var videoSender: bool
    var live: set<TrackId>
    var nextTrack: TrackId
    var status: Status
    var controlsDisabled: bool
    var outbox: seq<ClientMessage>
    var calls: seq<PcCall>

    function Snapshot(): Vars
      reads this
    {
      Vars(roomId, isInitiator, peerConnection, localStream, audioTrack, audioSender,
           videoTrack, videoSender, live, nextTrack, status, controlsDisabled, outbox, calls)
    }

    ghost predicate Valid()
      reads this
    {
      Consistent(Snapshot())
    }

    /** The page loads: role unknown, nothing acquired, nothing sent. */
    constructor(roomId: RoomId)
      ensures Snapshot() == Initial(roomId)
      ensures Valid()
    {
      this.roomId := roomId;
      isInitiator := false;
      peerConnection := false;
      localStream := None;
      audioTrack := None;
      audioSender := false;
      videoTrack := None;
      videoSender := false;
      live := {};
      nextTrack := 0;
      status := Idle;
      controlsDisabled := false;
      outbox := [];
      calls := [];
    }

    method EnsureAudioStream(b: Browser) returns (ok: bool)
      modifies this`status, this`localStream, this`audioTrack, this`live, this`nextTrack
      ensures Step(Snapshot(), ok) == AcquireAudio(old(Snapshot()), b)
    {
      if localStream.Some? && audioTrack.Some? {
        return true;
      }
      if !b.microphone {
        status := MicrophoneRequired;
        return false;
      }
      AddMicrophoneTrack();
      ok := true;
    }

    /** `getUserMedia({ audio: true })` succeeded: the microphone track joins the stream. */
    method AddMicrophoneTrack()
      modifies this`localStream, this`audioTrack, this`live, this`nextTrack
      ensures Snapshot() == WithMicrophone(old(Snapshot()))
    {
      var t := nextTrack;
      localStream := Some(StreamTracks(localStream) + [t]);
      audioTrack := Some(t);
      live := live + {t};
      nextTrack := t + 1;
    }

    method EnsurePeerConnection(b: Browser) returns (ok: bool)
      modifies this`status, this`localStream, this`audioTrack, this`live, this`nextTrack, this`peerConnection, this`calls, this`audioSender, this`videoSender
      ensures Step(Snapshot(), ok) == OpenConnection(old(Snapshot()), b)
    {
      if peerConnection {
        return true;
      }
      ok := EnsureAudioStream(b);
      if !ok {
        return;
      }
      CreateConnection();
      if audioTrack.Some? && !audioSender {
        AddAudioSender(audioTrack.value);
      }
      if videoTrack.Some? && !videoSender {
        AddVideoSender(videoTrack.value);
      }
    }

    method CreateConnection()
      modifies this`peerConnection, this`calls
      ensures Snapshot() == NewConnectionOf(old(Snapshot()))
    {
      peerConnection := true;
      calls := calls + [NewConnection];
    }

    method AddAudioSender(t: TrackId)
      modifies this`audioSender, this`calls
      ensures Snapshot() == PeerEndpoint.AddAudioSender(old(Snapshot()), t)
    {
      audioSender := true;
      calls := calls + [AddTrack(t)];
    }

    method AddVideoSender(t: TrackId)
      modifies this`videoSender, this`calls
      ensures Snapshot() == PeerEndpoint.AddVideoSender(old(Snapshot()), t)
    {
      videoSender := true;
      calls := calls + [AddTrack(t)];
    }

    method RemoveVideoSender(t: TrackId)
      modifies this`videoSender, this`calls
      ensures Snapshot() == PeerEndpoint.RemoveVideoSender(old(Snapshot()), t)
    {
      calls := calls + [RemoveTrack(t)];
      videoSender := false;
    }

    method SendLocalOffer(b: Browser) returns (ok: bool)
      modifies this`calls, this`outbox
      ensures Step(Snapshot(), ok) == PeerEndpoint.SendLocalOffer(old(Snapshot()), b)
    {
      calls := calls + [CreateOffer];
      if !b.describe {
        return false;
      }
      calls := calls + [SetLocal(Offer(b.sdp))];
      if !b.setLocal {
        return false;
      }
      outbox := outbox + [SignalMsg(roomId, Offer(b.sdp))];
      ok := true;
    }

    method CreateAndSendOffer(b: Browser) returns (ok: bool)
      modifies this`status, this`localStream, this`audioTrack, this`live, this`nextTrack, this`peerConnection, this`calls, this`audioSender, this`videoSender, this`outbox
      ensures Step(Snapshot(), ok) == PeerEndpoint.CreateAndSendOffer(old(Snapshot()), b)
    {
      if !peerConnection {
        ok := EnsurePeerConnection(b);
        if !ok {
          return;
        }
      }
      ok := SendLocalOffer(b);
    }

    method HandleOffer(offer: Payload, b: Browser) returns (ok: bool)
      modifies this`status, this`localStream, this`audioTrack, this`live, this`nextTrack, this`peerConnection, this`calls, this`audioSender, this`videoSender, this`outbox
      ensures Step(Snapshot(), ok) == PeerEndpoint.HandleOffer(old(Snapshot()), offer, b)
    {
      ok := EnsurePeerConnection(b);
      if !ok {
        return;
      }
      ok := AnswerOffer(offer, b);
    }

    method AnswerOffer(offer: Payload, b: Browser) returns (ok: bool)
      modifies this`calls, this`outbox
      ensures Step(Snapshot(), ok) == PeerEndpoint.AnswerOffer(old(Snapshot()), offer, b)
    {
      calls := calls + [SetRemote(offer)];
      if !b.setRemote {
        return false;
      }
      calls := calls + [CreateAnswer];
      if !b.describe {
        return false;
      }
      calls := calls + [SetLocal(Answer(b.sdp))];
      if !b.setLocal {
        return false;
      }
      outbox := outbox + [SignalMsg(roomId, Answer(b.sdp))];
      ok := true;
    }

    method HandleAnswer(answer: Payload, b: Browser) returns (ok: bool)
      modifies this`calls
      ensures Step(Snapshot(), ok) == PeerEndpoint.HandleAnswer(old(Snapshot()), answer, b)
    {
      if !peerConnection {
        return true;
      }
      calls := calls + [SetRemote(answer)];
      ok := b.setRemote;
    }

    method HandleCandidate(candidate: Option<string>)
      modifies this`calls
      ensures Snapshot() == PeerEndpoint.HandleCandidate(old(Snapshot()), candidate)
    {
      if !peerConnection || candidate.None? {
        return;
      }
      calls := calls + [AddIceCandidate(candidate.value)];
    }

    method Renegotiate(b: Browser) returns (ok: bool)
      modifies this`calls, this`outbox
      ensures Step(Snapshot(), ok) == PeerEndpoint.Renegotiate(old(Snapshot()), b)
    {
      if !peerConnection {
        return true;
      }
      ok := SendLocalOffer(b);
    }

    /** `getUserMedia({ video: true })` succeeded: the camera track joins the stream. */
    method AddCameraTrack() returns (t: TrackId)
      modifies this`videoTrack, this`live, this`nextTrack, this`localStream
      ensures t == old(nextTrack)
      ensures Snapshot() == WithCamera(old(Snapshot()))
    {
      t := nextTrack;
      videoTrack := Some(t);
      live := live + {t};
      nextTrack := t + 1;
      localStream := Some(StreamTracks(localStream) + [t]);
    }

    method EnableVideo(b: Browser)
      modifies this`videoTrack, this`live, this`nextTrack, this`localStream, this`status, this`videoSender, this`calls, this`outbox
      ensures Snapshot() == PeerEndpoint.EnableVideo(old(Snapshot()), b)
    {
      if videoTrack.Some? {
        return;
      }
      if !b.camera {
        status := VideoFailed;
        return;
      }
      var t := AddCameraTrack();
      if !peerConnection {
        return;
      }
      AddVideoSender(t);
      var ok := Renegotiate(b);
      if !ok {
        status := VideoFailed;
      }
    }

    method DisableVideo(b: Browser) returns (ok: bool)
      modifies this`live, this`videoTrack, this`localStream, this`calls, this`videoSender, this`outbox
      ensures Step(Snapshot(), ok) == PeerEndpoint.DisableVideo(old(Snapshot()), b)
    {
      if videoTrack.None? {
        return true;
      }
      var t := videoTrack.value;
      StopCamera(t);
      if videoSender && peerConnection {
        RemoveVideoSender(t);
        ok := Renegotiate(b);
      } else {
        ok := true;
      }
    }

    /** `videoTrack.stop()`, then the track leaves the stream and is forgotten. */
    method StopCamera(t: TrackId)
      modifies this`live, this`videoTrack, this`localStream
      ensures Snapshot() == WithoutCamera(old(Snapshot()), t)
    {
      live := live - {t};
      videoTrack := None;
      if localStream.Some? {
        localStream := Some(Without(localStream.value, t));
      }
    }

    method CleanUp()
      modifies this`calls, this`peerConnection, this`live, this`localStream, this`videoTrack, this`audioTrack, this`audioSender, this`videoSender
      ensures Snapshot() == PeerEndpoint.CleanUp(old(Snapshot()))
    {
      ClosePeerConnection();
      StopLocalStream();
      ForgetMedia();
    }

    method ClosePeerConnection()
      modifies this`calls, this`peerConnection
      ensures Snapshot() == CloseConnection(old(Snapshot()))
    {
      if peerConnection {
        calls := calls + [Close];
        peerConnection := false;
      }
    }

    /** Stops each track of the stream in turn, then forgets the stream. */
    method StopLocalStream()
      modifies this`live, this`localStream
      ensures Snapshot() == StopStream(old(Snapshot()))
    {
      if localStream.Some? {
        var tracks := localStream.value;
        var remaining := live;
        var i := 0;
        while i < |tracks|
          invariant 0 <= i <= |tracks|
          invariant remaining == live - Elems(tracks[..i])
        {
          assert tracks[..i + 1] == tracks[..i] + [tracks[i]];
          remaining := remaining - {tracks[i]};
          i := i + 1;
        }
        assert tracks[..i] == tracks;
        live := remaining;
        localStream := None;
      }
    }

    method ForgetMedia()
      modifies this`videoTrack, this`audioTrack, this`audioSender, this`videoSender
      ensures Snapshot() == PeerEndpoint.ForgetMedia(old(Snapshot()))
    {
      videoTrack := None;
      audioTrack := None;
      audioSender := false;
      videoSender := false;
    }

    // Handlers. Each runs to completion before the next event is taken.

    method OnConnect()
      requires Valid()
      modifies this`outbox
      ensures Valid()
      ensures Snapshot() == PeerEndpoint.OnConnect(old(Snapshot()))
    {
      outbox := outbox + [JoinRoom(roomId)];
    }

    method OnJoined(initiator: bool, b: Browser)
      requires Valid()
      modifies this`isInitiator, this`status, this`localStream, this`audioTrack, this`live, this`nextTrack, this`peerConnection, this`calls, this`audioSender, this`videoSender
      ensures Valid()
      ensures Snapshot() == PeerEndpoint.OnJoined(old(Snapshot()), initiator, b)
    {
      ghost var v := Snapshot();
      isInitiator := initiator;
      assert Snapshot() == v.(isInitiator := initiator);
      var ok := EnsurePeerConnection(b);
      ShowJoined(ok);
      PeerEndpointProperties.JoinedConsistent(v, initiator, b);
    }

    /** The in-room status, shown once the connection exists. */
    method ShowJoined(ok: bool)
      modifies this`status
      ensures Snapshot() == EnterRoom(Step(old(Snapshot()), ok))
    {
      if ok {
        status := InRoom;
      }
    }

    method OnWaiting()
      requires Valid()
      modifies this`status
      ensures Valid()
      ensures Snapshot() == PeerEndpoint.OnWaiting(old(Snapshot()))
    {
      status := WaitingForPeer;
    }

    method OnReady(b: Browser)
      requires Valid()
      modifies this`status, this`localStream, this`audioTrack, this`live, this`nextTrack, this`peerConnection, this`calls, this`audioSender, this`videoSender, this`outbox
      ensures Valid()
      ensures Snapshot() == PeerEndpoint.OnReady(old(Snapshot()), b)
    {
      ghost var v := Snapshot();
      status := PeerConnecting;
      if isInitiator {
        var _ := CreateAndSendOffer(b);
      }
      PeerEndpointProperties.ReadyConsistent(v, b);
    }

    method OnSignal(payload: Payload, b: Browser)
      requires Valid()
      modifies this`status, this`localStream, this`audioTrack, this`live, this`nextTrack, this`peerConnection, this`calls, this`audioSender, this`videoSender, this`outbox
      ensures Valid()
      ensures Snapshot() == PeerEndpoint.OnSignal(old(Snapshot()), payload, b)
    {
      ghost var v := Snapshot();
      if Truthy(payload) {
        match payload
        case Offer(_) =>
          var _ := HandleOffer(payload, b);
          assert Snapshot() == PeerEndpoint.HandleOffer(v, payload, b).vars;
        case Answer(_) =>
          var _ := HandleAnswer(payload, b);
        case Candidate(c) =>
          HandleCandidate(c);
        case _ =>
      }
      PeerEndpointProperties.SignalConsistent(v, payload, b);
    }

    method OnPeerLeft()
      requires Valid()
      modifies this`status, this`controlsDisabled, this`calls, this`peerConnection, this`live, this`localStream, this`videoTrack, this`audioTrack, this`audioSender, this`videoSender
      ensures Valid()
      ensures Snapshot() == PeerEndpoint.OnPeerLeft(old(Snapshot()))
    {
      ghost var v := Snapshot();
      status := PeerGone;
      assert Snapshot() == v.(status := PeerGone);
      CleanUp();
      controlsDisabled := false;
      PeerEndpointProperties.PeerLeftConsistent(v);
    }

    method OnRoomFull()
      requires Valid()
      modifies this`status, this`controlsDisabled
      ensures Valid()
      ensures Snapshot() == PeerEndpoint.OnRoomFull(old(Snapshot()))
    {
      status := RoomOccupied;
      controlsDisabled := true;
    }

    method OnRoomError(message: string)
      requires Valid()
      modifies this`status, this`controlsDisabled
      ensures Valid()
      ensures Snapshot() == PeerEndpoint.OnRoomError(old(Snapshot()), message)
    {
      status := RoomUnavailable(if message == "" then DefaultRoomErrorText else message);
      controlsDisabled := true;
    }

    method OnIceCandidate(candidate: Option<string>)
      requires Valid()
      modifies this`outbox
      ensures Valid()
      ensures Snapshot() == PeerEndpoint.OnIceCandidate(old(Snapshot()), candidate)
    {
      if candidate.Some? {
        outbox := outbox + [SignalMsg(roomId, Candidate(candidate))];
      }
    }

    method OnConnectionStateChange(state: ConnectionState)
      requires Valid()
      modifies this`status
      ensures Valid()
      ensures Snapshot() == PeerEndpoint.OnConnectionStateChange(old(Snapshot()), state)
    {
      if peerConnection && (state == Disconnected || state == Failed) {
        status := ConnectionLost;
      }
    }

    /** The video button; a rejection of `disableVideo` is caught by the listener. */
    method OnToggleVideo(b: Browser)
      requires Valid()
      modifies this`videoTrack, this`live, this`nextTrack, this`localStream, this`status, this`videoSender, this`calls, this`outbox
      ensures Valid()
      ensures Snapshot() == ToggleVideo(old(Snapshot()), b)
    {
      ghost var v := Snapshot();
      if videoTrack.Some? {
        var _ := DisableVideo(b);
      } else {
        EnableVideo(b);
      }
      PeerEndpointProperties.EnableVideoConsistent(v, b);
      PeerEndpointProperties.DisableVideoConsistent(v, b);
    }

    /** The hang-up button: `leaveRoom`. */
    method LeaveRoom()
      requires Valid()
      modifies this`outbox, this`status, this`controlsDisabled, this`calls, this`peerConnection, this`live, this`localStream, this`videoTrack, this`audioTrack, this`audioSender, this`videoSender
      ensures Valid()
      ensures Snapshot() == HangUp(old(Snapshot()))
    {
      ghost var v := Snapshot();
      outbox := outbox + [Protocol.LeaveRoom(roomId)];
      assert Snapshot() == v.(outbox := v.outbox + [Protocol.LeaveRoom(v.roomId)]);
      CleanUp();
      status := CallEnded;
      controlsDisabled := true;
      PeerEndpointProperties.HangUpConsistent(v);
    }

    method OnBeforeUnload()
      requires Valid()
      modifies this`outbox
      ensures Valid()
      ensures Snapshot() == PeerEndpoint.OnBeforeUnload(old(Snapshot()))
    {
      outbox := outbox + [Protocol.LeaveRoom(roomId)];
    }
  }
}
