/**
 * The wire protocol between the browser page and the signaling gateway:
 * the events each side emits and the shapes of a signal payload.
 */
module Protocol {
  import opened Wrappers

  type RoomId = string
  type ConnId = string

  /**
   * The inner `payload` of a `signal` message. The gateway relays it without
   * looking inside; the page dispatches on its `type` field.
   */
  datatype Payload =
    | Undefined                           // the field is missing
    | Null
    | FalsyScalar                         // false, 0, the empty string or NaN
    | Offer(sdp: string)                  // {type: 'offer', ...}
    | Answer(sdp: string)                 // {type: 'answer', ...}
    | Candidate(candidate: Option<string>) // {type: 'candidate', candidate}; None when the field is falsy
    | OtherValue                          // any other truthy value, including objects of another type

  /** JavaScript truthiness of a payload (`!payload` is its negation). */
  predicate Truthy(p: Payload) {
    !(p.Undefined? || p.Null? || p.FalsyScalar?)
  }

  /** Events the gateway sends to a browser. */
  datatype ServerEvent =
    | RoomError(message: string)
    | RoomFull
    | Joined(roomId: RoomId, initiator: bool)
    | Waiting
    | Ready
    | Signal(payload: Payload)
    | PeerLeft

  /** Messages a browser sends to the gateway. */
  datatype ClientMessage =
    | JoinRoom(roomId: RoomId)
    | SignalMsg(roomId: RoomId, payload: Payload)
    | LeaveRoom(roomId: RoomId)

  /** The two `room-error` texts of the gateway, as tags. */
  const BadLinkMessage: string := "invalid room link"
  const UnknownRoomMessage: string := "room not found or expired"
}
