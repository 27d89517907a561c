/**
 * The negotiation endpoint: the script that the room page runs in each
 * participant's browser. Browser objects (peer connection, stream, tracks,
 * senders) are abstracted to their presence; each browser call is an oracle
 * that succeeds or fails; each event handler runs as one atomic step.
 *
 * The pure functions below give each handler's effect on a snapshot of the
 * script's variables; the class `EndpointScript.Endpoint` holds those
 * variables and its methods are proved to have exactly these effects.
 */
module PeerEndpoint {
  import opened Wrappers
  import opened Protocol

  /** Identity of a media track; every acquisition yields a fresh one. */
  type TrackId = nat

  /** The status line, as a tag for each text the script shows. */
  datatype Status =
    | Idle
    | MicrophoneRequired
    | ConnectionLost
    | InRoom
    | WaitingForPeer
    | PeerConnecting
    | VideoFailed
    | CallEnded
    | PeerGone
    | RoomOccupied
    | RoomUnavailable(message: string)

  /** The fallback text of the `room-error` handler, as a tag. */
  const DefaultRoomErrorText: string := "room unavailable"

  /** Calls made on the peer connection, recorded whether or not they succeed. */
  datatype PcCall =
    | NewConnection
    | AddTrack(track: TrackId)
    | RemoveTrack(track: TrackId)
    | CreateOffer
    | CreateAnswer
    | SetLocal(description: Payload)
    | SetRemote(description: Payload)
    | AddIceCandidate(candidate: string)
    | Close

  datatype ConnectionState = New | Connecting | Connected | Disconnected | Failed | Closed

  /**
   * Outcomes of the browser calls one handler makes: media permissions, and
   * whether the description calls resolve. `sdp` is the description text
   * `createOffer`/`createAnswer` would produce.
   */
  datatype Browser = Browser(microphone: bool, camera: bool, describe: bool, setLocal: bool,
                             setRemote: bool, addCandidate: bool, sdp: string)

  /** A snapshot of the script's variables and of what it has sent so far. */
  datatype Vars = Vars(
    roomId: RoomId,
    isInitiator: bool,
    peerConnection: bool,
    localStream: Option<seq<TrackId>>,
    audioTrack: Option<TrackId>,
    audioSender: bool,
    videoTrack: Option<TrackId>,
    videoSender: bool,
    live: set<TrackId>,          // acquired and not yet stopped
    nextTrack: TrackId,          // the next fresh track id
    status: Status,
    controlsDisabled: bool,      // both buttons
    outbox: seq<ClientMessage>,  // socket.emit, in order
    calls: seq<PcCall>)

  /** The state after a possibly rejecting async step: `ok` is false when it threw. */
  datatype Step = Step(vars: Vars, ok: bool)

  function Elems(s: seq<TrackId>): set<TrackId> {
    set t | t in s
  }

  function StreamTracks(s: Option<seq<TrackId>>): seq<TrackId> {
    if s.Some? then s.value else []
  }

  /** `MediaStream.removeTrack`: the stream without track `t`. */
  function Without(s: seq<TrackId>, t: TrackId): (r: seq<TrackId>)
    ensures forall x :: x in r <==> x in s && x != t
    ensures |r| <= |s|
  {
    if s == [] then []
    else (if s[0] == t then [] else [s[0]]) + Without(s[1..], t)
  }

  function Initial(roomId: RoomId): Vars {
    Vars(roomId, false, false, None, None, false, None, false, {}, 0, Idle, false, [], [])
  }

  /**
   * `ensureAudioStream`, with the microphone track added to the existing
   * stream (the source replaces the stream; see AcquireAudioAsWritten).
   */
  function AcquireAudio(v: Vars, b: Browser): Step {
    if v.localStream.Some? && v.audioTrack.Some? then Step(v, true)
    else if !b.microphone then Step(v.(status := MicrophoneRequired), false)
    else Step(WithMicrophone(v), true)
  }

  /** A granted microphone: its fresh track becomes current and live and joins the stream, made if absent. */
  function WithMicrophone(v: Vars): Vars {
    var t := v.nextTrack;
    v.(audioTrack := Some(t), localStream := Some(StreamTracks(v.localStream) + [t]),
       live := v.live + {t}, nextTrack := t + 1)
  }

  /** `ensureAudioStream` as the source writes it: the stream becomes the new track alone. */
  function AcquireAudioAsWritten(v: Vars, b: Browser): Step {
    if v.localStream.Some? && v.audioTrack.Some? then Step(v, true)
    else if !b.microphone then Step(v.(status := MicrophoneRequired), false)
    else
      var t := v.nextTrack;
      Step(v.(audioTrack := Some(t), localStream := Some([t]), live := v.live + {t}, nextTrack := t + 1), true)
  }

  /** `ensurePeerConnection`. */
  function OpenConnection(v: Vars, b: Browser): Step {
    if v.peerConnection then Step(v, true)
    else
      var a := AcquireAudio(v, b);
      if !a.ok then a
      else Step(AttachVideo(AttachAudio(NewConnectionOf(a.vars))), true)
  }

  /** `new RTCPeerConnection(...)`. */
  function NewConnectionOf(v: Vars): Vars {
    v.(peerConnection := true, calls := v.calls + [NewConnection])
  }

  /** `addTrack` of the microphone track, unless it is absent or already sent. */
  function AttachAudio(v: Vars): Vars {
    if v.audioTrack.Some? && !v.audioSender then AddAudioSender(v, v.audioTrack.value) else v
  }

  /** `addTrack` of the camera track, unless it is absent or already sent. */
  function AttachVideo(v: Vars): Vars {
    if v.videoTrack.Some? && !v.videoSender then AddVideoSender(v, v.videoTrack.value) else v
  }

  /** `peerConnection.addTrack(t, localStream)`, keeping the returned audio sender. */
  function AddAudioSender(v: Vars, t: TrackId): Vars {
    v.(audioSender := true, calls := v.calls + [AddTrack(t)])
  }

  /** `peerConnection.addTrack(t, localStream)`, keeping the returned video sender. */
  function AddVideoSender(v: Vars, t: TrackId): Vars {
    v.(videoSender := true, calls := v.calls + [AddTrack(t)])
  }

  /** `peerConnection.removeTrack(videoSender)`. */
  function RemoveVideoSender(v: Vars, t: TrackId): Vars {
    v.(calls := v.calls + [RemoveTrack(t)], videoSender := false)
  }

  /** `createOffer`, `setLocalDescription`, then the offer goes out as a signal. */
  function SendLocalOffer(v: Vars, b: Browser): Step {
    var w := v.(calls := v.calls + [CreateOffer]);
    if !b.describe then Step(w, false)
    else
      var w1 := w.(calls := w.calls + [SetLocal(Offer(b.sdp))]);
      if !b.setLocal then Step(w1, false)
      else Step(w1.(outbox := w1.outbox + [SignalMsg(v.roomId, Offer(b.sdp))]), true)
  }

  /** `createAndSendOffer`. */
  function CreateAndSendOffer(v: Vars, b: Browser): Step {
    var o := if v.peerConnection then Step(v, true) else OpenConnection(v, b);
    if !o.ok then o else SendLocalOffer(o.vars, b)
  }

  /** `handleOffer`. */
  function HandleOffer(v: Vars, offer: Payload, b: Browser): Step {
    var o := OpenConnection(v, b);
    if !o.ok then o else AnswerOffer(o.vars, offer, b)
  }

  /** The part of `handleOffer` after the connection exists: answer the remote offer. */
  function AnswerOffer(v: Vars, offer: Payload, b: Browser): Step {
    var w := v.(calls := v.calls + [SetRemote(offer)]);
    if !b.setRemote then Step(w, false)
    else
      var w1 := w.(calls := w.calls + [CreateAnswer]);
      if !b.describe then Step(w1, false)
      else
        var w2 := w1.(calls := w1.calls + [SetLocal(Answer(b.sdp))]);
        if !b.setLocal then Step(w2, false)
        else Step(w2.(outbox := w2.outbox + [SignalMsg(v.roomId, Answer(b.sdp))]), true)
  }

  /** `handleAnswer`. */
  function HandleAnswer(v: Vars, answer: Payload, b: Browser): Step {
    if !v.peerConnection then Step(v, true)
    else Step(v.(calls := v.calls + [SetRemote(answer)]), b.setRemote)
  }

  /** `handleCandidate`: a failing `addIceCandidate` is caught and only logged. */
  function HandleCandidate(v: Vars, candidate: Option<string>): Vars {
    if !v.peerConnection || candidate.None? then v
    else v.(calls := v.calls + [AddIceCandidate(candidate.value)])
  }

  /** `renegotiate`. */
  function Renegotiate(v: Vars, b: Browser): Step {
    if !v.peerConnection then Step(v, true) else SendLocalOffer(v, b)
  }

  /** `enableVideo`: every failure inside is caught and shown as a status. */
  function EnableVideo(v: Vars, b: Browser): Vars {
    if v.videoTrack.Some? then v
    else if !b.camera then v.(status := VideoFailed)
    else
      var w := WithCamera(v);
      if !w.peerConnection then w
      else
        var rn := Renegotiate(AddVideoSender(w, v.nextTrack), b);
        if rn.ok then rn.vars else rn.vars.(status := VideoFailed)
  }

  /** A granted camera: its fresh track becomes current and live and joins the stream, made if absent. */
  function WithCamera(v: Vars): Vars {
    var t := v.nextTrack;
    v.(videoTrack := Some(t), live := v.live + {t}, nextTrack := t + 1,
       localStream := Some(StreamTracks(v.localStream) + [t]))
  }

  /** `disableVideo`. */
  function DisableVideo(v: Vars, b: Browser): Step {
    if v.videoTrack.None? then Step(v, true)
    else
      var t := v.videoTrack.value;
      var w := WithoutCamera(v, t);
      if w.videoSender && w.peerConnection then Renegotiate(RemoveVideoSender(w, t), b)
      else Step(w, true)
  }

  /** The camera track `t` is stopped and dropped from the stream; no current camera remains. */
  function WithoutCamera(v: Vars, t: TrackId): Vars {
    v.(live := v.live - {t}, videoTrack := None,
       localStream := if v.localStream.Some? then Some(Without(v.localStream.value, t)) else None)
  }

  /** `toggleVideo`: a rejection is caught by the click listener. */
  function ToggleVideo(v: Vars, b: Browser): Vars {
    if v.videoTrack.Some? then DisableVideo(v, b).vars else EnableVideo(v, b)
  }

  /** `cleanUp`: closes the connection, stops the stream's tracks, forgets every object. */
  function CleanUp(v: Vars): Vars {
    ForgetMedia(StopStream(CloseConnection(v)))
  }

  /** `peerConnection.close()`, then the connection is forgotten. */
  function CloseConnection(v: Vars): Vars {
    if v.peerConnection then v.(calls := v.calls + [Close], peerConnection := false) else v
  }

  /** Every track of the stream is stopped, then the stream is forgotten. */
  function StopStream(v: Vars): Vars {
    if v.localStream.Some? then v.(live := v.live - Elems(v.localStream.value), localStream := None) else v
  }

  /** The tracks and senders are forgotten. */
  function ForgetMedia(v: Vars): Vars {
    v.(videoTrack := None, audioTrack := None, audioSender := false, videoSender := false)
  }

  /** `leaveRoom`, run by the hang-up button. */
  function HangUp(v: Vars): Vars {
    CleanUp(v.(outbox := v.outbox + [LeaveRoom(v.roomId)])).(status := CallEnded, controlsDisabled := true)
  }

  function OnConnect(v: Vars): Vars {
    v.(outbox := v.outbox + [JoinRoom(v.roomId)])
  }

  function OnJoined(v: Vars, initiator: bool, b: Browser): Vars {
    EnterRoom(OpenConnection(v.(isInitiator := initiator), b))
  }

  /** The status shown once the connection attempt made on joining has ended. */
  function EnterRoom(o: Step): Vars {
    if o.ok then o.vars.(status := InRoom) else o.vars
  }

  function OnWaiting(v: Vars): Vars {
    v.(status := WaitingForPeer)
  }

  function OnReady(v: Vars, b: Browser): Vars {
    var w := v.(status := PeerConnecting);
    if w.isInitiator then CreateAndSendOffer(w, b).vars else w
  }

  function OnSignal(v: Vars, payload: Payload, b: Browser): Vars {
    if !Truthy(payload) then v
    else
      match payload
      case Offer(_) => HandleOffer(v, payload, b).vars
      case Answer(_) => HandleAnswer(v, payload, b).vars
      case Candidate(c) => HandleCandidate(v, c)
      case _ => v
  }

  function OnPeerLeft(v: Vars): Vars {
    CleanUp(v.(status := PeerGone)).(controlsDisabled := false)
  }

  function OnRoomFull(v: Vars): Vars {
    v.(status := RoomOccupied, controlsDisabled := true)
  }

  function OnRoomError(v: Vars, message: string): Vars {
    v.(status := RoomUnavailable(if message == "" then DefaultRoomErrorText else message), controlsDisabled := true)
  }

  /** `peerConnection.onicecandidate`. */
  function OnIceCandidate(v: Vars, candidate: Option<string>): Vars {
    if candidate.Some? then v.(outbox := v.outbox + [SignalMsg(v.roomId, Candidate(candidate))]) else v
  }

  /** `peerConnection.onconnectionstatechange`. */
  function OnConnectionStateChange(v: Vars, state: ConnectionState): Vars {
    if v.peerConnection && (state == Disconnected || state == Failed) then v.(status := ConnectionLost) else v
  }

  function OnBeforeUnload(v: Vars): Vars {
    v.(outbox := v.outbox + [LeaveRoom(v.roomId)])
  }

  /** Everything that can drive the script: socket events, peer-connection events, clicks, unload. */
  datatype Input =
    | ConnectEvent
    | JoinedEvent(initiator: bool)
    | WaitingEvent
    | ReadyEvent
    | SignalEvent(payload: Payload)
    | PeerLeftEvent
    | RoomFullEvent
    | RoomErrorEvent(message: string)
    | LocalCandidate(candidate: Option<string>)
    | StateChange(state: ConnectionState)
    | ToggleVideoClick
    | HangUpClick
    | BeforeUnload

  function Handle(v: Vars, i: Input, b: Browser): Vars {
    match i
    case ConnectEvent => OnConnect(v)
    case JoinedEvent(initiator) => OnJoined(v, initiator, b)
    case WaitingEvent => OnWaiting(v)
    case ReadyEvent => OnReady(v, b)
    case SignalEvent(p) => OnSignal(v, p, b)
    case PeerLeftEvent => OnPeerLeft(v)
    case RoomFullEvent => OnRoomFull(v)
    case RoomErrorEvent(m) => OnRoomError(v, m)
    case LocalCandidate(c) => OnIceCandidate(v, c)
    case StateChange(s) => OnConnectionStateChange(v, s)
    case ToggleVideoClick => ToggleVideo(v, b)
    case HangUpClick => HangUp(v)
    case BeforeUnload => OnBeforeUnload(v)
  }

  datatype Event = Event(input: Input, browser: Browser)

  /** The script's state after a sequence of handler runs, oldest first. */
  function Run(v: Vars, trace: seq<Event>): Vars
    decreases |trace|
  {
    if trace == [] then v else Run(Handle(v, trace[0].input, trace[0].browser), trace[1..])
  }

  /**
   * The invariant the handlers keep: senders exist exactly for the present
   * tracks while a connection exists, the current tracks belong to the local
   * stream, and every track still live belongs to it too.
   */
  ghost predicate Consistent(v: Vars) {
    && (v.peerConnection <==> v.audioSender)
    && (v.audioSender ==> v.audioTrack.Some?)
    && (v.videoSender ==> v.peerConnection && v.videoTrack.Some?)
    && (v.peerConnection && v.videoTrack.Some? ==> v.videoSender)
    && (v.audioTrack.Some? ==> v.localStream.Some? && v.audioTrack.value in v.localStream.value && v.audioTrack.value < v.nextTrack)
    && (v.videoTrack.Some? ==> v.localStream.Some? && v.videoTrack.value in v.localStream.value && v.videoTrack.value < v.nextTrack)
    && (v.audioTrack.Some? && v.videoTrack.Some? ==> v.audioTrack.value != v.videoTrack.value)
    && v.live <= Elems(StreamTracks(v.localStream))
    && (forall t | t in v.live :: t < v.nextTrack)
  }
}
