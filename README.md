# link — a Dafny model of a two-party WebRTC call broker

The system lets two people start an audio/video call in their browsers.
A Telegram bot's `/link` command creates a room and replies with
`{base}/room/{id}`. `GET /room/:id` serves the room page. The page's script
joins the room over a socket.io connection to the signaling gateway. The
gateway admits at most two connections per room, tells each newcomer whether
it is the initiator, announces `ready` once both are in, relays WebRTC
signals (offer, answer, ICE candidates) to the other member, and announces
`peer-left` when a member leaves or, given the memberships are still visible
when the disconnect handler runs (see Left out), disconnects.

The model has one module per component:

- `Hex`: the lowercase hex encoding `Buffer.toString('hex')` uses for room ids, with its decoder and round trips.
- `Rooms`: `RoomService`, a class over a `map` of rooms. Its random bytes and clock are parameters.
- `Protocol`: the events and messages exchanged between the pages and the gateway.
- `Gateway`: `LinkGateway`, a class over an explicit membership map and an append-only log of emits. The pure step functions `Join`, `Relay` and `Leave` are its specification, and `Inbox` extracts what one connection receives. `GatewayProperties` holds the lemmas.
- `PeerEndpoint`: the room page's script as pure step functions over a snapshot `Vars` of its variables. Browser calls are oracles (`Browser`). Tracks carry fresh ids so that a track that has been acquired and not yet stopped (`live`) can be followed. `EndpointScript.Endpoint` is the same script as a class whose methods update the variables in place and are proved to have exactly the effects of the pure functions. `PeerEndpointProperties` proves that every handler keeps the invariant `Consistent`, and `PeerEndpointBehaviour` proves each handler's guards and effects. The endpoint model uses one correction throughout: the microphone track is appended to the existing stream. The source replaces the stream at src/link/link.controller.ts:188; that behaviour is `AcquireAudioAsWritten`, and "## Findings" shows that it breaks `Consistent`.
- `Controller`: `GET /room/:id`.
- `TelegramBot`: the bot's lifecycle and the `/link` command.

Where the code's behaviour may surprise a reader, the model follows the code:

- A join by a connection that is already in a different room is not refused.
- A colliding room id overwrites the earlier room.
- A signal with a `null` payload is relayed (only `undefined` is dropped).
- `leaveRoom` for a room the sender is not in still sends `peer-left` to that room.
- After `peer-left` both buttons are enabled again, so the page is not in a terminal state.
- There is no guard against starting a second renegotiation while one is in progress.

## Model

| member | source | states |
|---|---|---|
| Hex.Encode | src/link/room.service.ts:15 | The encoding of n bytes is 2n characters, all lowercase hex digits. |
| Hex.Decode | src/link/room.service.ts:15 | A successful decode of a string yields half as many bytes as the string has characters. |
| Hex.DecodeEncode | src/link/room.service.ts:15 | Decoding the encoding of any byte sequence gives that sequence back. |
| Hex.EncodeDecode | src/link/room.service.ts:15 | A string that decodes to some bytes is exactly their encoding, so room ids have one spelling. |
| Hex.EncodeInjective | src/link/room.service.ts:15 | Different random bytes give different ids. |
| Hex.HexHasNoSlash | src/link/room.service.ts:15 | A hex string contains no '/', so a room id is one URL path segment. |
| Rooms.RoomService.constructor | src/link/room.service.ts:12 | The registry starts empty and well keyed. |
| Rooms.RoomService.CreateRoom | src/link/room.service.ts:14-25 | The new room's id is the hex of the 8 drawn bytes (16 hex characters), it is stamped with the clock reading, and the registry becomes the old one with that id mapped to it, overwriting a colliding entry; every key stays the id of its room. |
| Rooms.RoomService.GetRoom | src/link/room.service.ts:27-29 | A room is returned exactly when the id is registered, and it is the registered room; nothing changes. |
| Rooms.CreateAllKeepsIds | src/link/room.service.ts:14-25 | A run of creations never loses a registered id, and the registry grows by at most one entry per creation. |
| Rooms.CreateAllIds | src/link/room.service.ts:14-25 | The ids registered after a run of creations are exactly the earlier ids plus the drawn ones. |
| Rooms.CreateAllLatestWins | src/link/room.service.ts:21 | After a run of creations, the id of the last creation maps to that room, whatever earlier creations stored under it. |
| Rooms.CreateAllFreshDraws | src/link/room.service.ts:14-25 | Pairwise distinct draws of unseen ids grow the registry by exactly the number of draws. |
| Rooms.NeverCreatedIsAbsent | src/link/room.service.ts:27-29 | An id that was neither registered nor drawn is not found. |
| Rooms.CreateAllWellKeyed | src/link/room.service.ts:14-25 | Every run of creations keeps each room under its own id, and each key a 16-character hex id. |
| Gateway.Inbox | src/link/link.gateway.ts:31-91 | What connection c receives, in log order: the event of every `ToClient(c, _)` emit and of every `ToRoom` emit whose recipient snapshot includes c, and nothing else; never more entries than the log has. |
| Gateway.InboxConcat | src/link/link.gateway.ts:31-91 | What a connection receives from two consecutive stretches of the log is what it receives from each, in order. |
| Gateway.LinkGateway.constructor | src/link/link.gateway.ts:22-29 | The gateway starts with no memberships and nothing emitted. |
| Gateway.LinkGateway.HandleJoinRoom | src/link/link.gateway.ts:31-63 | The join handler has exactly the effect of `Join`: a blank id gets the bad-link error, an unregistered id the unknown-room error, a room with two members `room-full`; otherwise the joiner is added, gets `joined` with `initiator` true exactly when it is then alone, and then `waiting`, or else `ready` goes to the whole room. No room exceeds two members. |
| Gateway.LinkGateway.HandleSignal | src/link/link.gateway.ts:65-72 | The signal handler has exactly the effect of `Relay`: nothing for a blank room id or an `undefined` payload, otherwise one `signal` to the room without the sender. Membership is untouched. |
| Gateway.LinkGateway.HandleLeaveRoom | src/link/link.gateway.ts:74-82 | The leave handler has exactly the effect of `Leave`: nothing for a blank id, otherwise the sender leaves that room and `peer-left` goes to the members that remain. |
| Gateway.LinkGateway.HandleDisconnect | src/link/link.gateway.ts:84-91 | Connections stay as they are; one `peer-left` broadcast per room of the leaver other than its own-id room is appended, in whatever order the rooms are visited, each to the other members; the earlier log is kept. |
| Gateway.LinkGateway.ReleaseConnection | src/link/link.gateway.ts:84-91 | The closed connection leaves every room, emptied rooms disappear, and the capacity invariant holds. |
| GatewayProperties.SingletonMembers | src/link/link.gateway.ts:52-54 | Helper on sets: for a set holding the joiner, a count of one means the joiner is alone; the join lemmas use it to read `initiator`. |
| GatewayProperties.JoinRejected | src/link/link.gateway.ts:33-49 | A rejected join leaves membership unchanged and answers only the requester, with exactly one event: the bad-link error, the unknown-room error or `room-full`, according to which guard failed. |
| GatewayProperties.JoinAdmitted | src/link/link.gateway.ts:51-61 | An admitted join adds the requester. Alone, it receives `joined{initiator: true}` then `waiting`; if it is second, it receives `joined{initiator: false}` then `ready`, and the other member receives `ready`. No one else receives anything. |
| GatewayProperties.AdmittedJoinEmits | src/link/link.gateway.ts:51-61 | An admitted join adds the requester, then logs exactly two emits: its role to it, then `waiting` to it when it is alone, or `ready` to the room's members when it is second. |
| GatewayProperties.JoinerInbox | src/link/link.gateway.ts:51-61 | The requester of an admitted join receives `joined{initiator: true}` then `waiting` when alone, and otherwise `joined{initiator: false}` then `ready`. |
| GatewayProperties.BystanderInbox | src/link/link.gateway.ts:56-61 | Anyone other than the requester receives `ready` exactly when it is already in the room, and nothing otherwise. |
| GatewayProperties.JoinKeepsCapacity | src/link/link.gateway.ts:45-51 | Joins never let a room exceed two members or leave an empty room stored. |
| GatewayProperties.RelayDelivery | src/link/link.gateway.ts:65-72 | A relayed signal reaches each member of the room other than the sender exactly once, with the payload unchanged. Nobody else receives it, and a blank room id or an `undefined` payload sends nothing. |
| GatewayProperties.RelayNeverEchoes | src/link/link.gateway.ts:71 | The sender never receives its own signal. |
| GatewayProperties.LeaveNotifies | src/link/link.gateway.ts:74-82 | Leaving removes the sender from that room only. Each remaining member receives exactly one `peer-left`, whether or not the sender was a member. A blank id changes nothing. |
| GatewayProperties.LeaveTwiceNotifiesTwice | src/link/link.gateway.ts:74-82 | A repeated leave notifies the remaining member again. |
| GatewayProperties.NoticeCount | src/link/link.gateway.ts:84-91 | From any batch of disconnect notices, a connection receives only `peer-left`, one per room of the batch it shares with the leaver. |
| GatewayProperties.DisconnectNotifiesPartnerOnce | src/link/link.gateway.ts:84-91 | A partner who shares exactly one room with a disconnecting connection receives exactly one `peer-left`. |
| GatewayProperties.EvictedRemovesOnlyConnection | src/link/link.gateway.ts:84-91 | Releasing a connection removes it from every room, keeps the other members, and keeps the capacity invariant. |
| GatewayProperties.PairForms | src/link/link.gateway.ts:31-63 | Two joins of a registered room from an empty gateway: the first joiner becomes initiator and waits, the second becomes responder, both receive `ready`, and the room holds both. |
| GatewayProperties.FirstJoin | src/link/link.gateway.ts:51-58 | The first joiner of a registered room from an empty gateway is alone in it and receives `joined{initiator: true}` then `waiting`; nobody else receives anything. |
| GatewayProperties.SignalsCross | src/link/link.gateway.ts:65-72 | Once the pair has formed, A's offer reaches B and B's answer reaches A, and the room still holds exactly the pair. |
| GatewayProperties.PairTurnsAwayThird | src/link/link.gateway.ts:45-91 | With exactly the pair in the room, a third joiner receives `room-full` and the membership is unchanged. When A disconnects, B receives exactly one `peer-left`, given the memberships are still visible (see Left out). |
| GatewayProperties.TwoPartyExchange | src/link/link.gateway.ts:31-91 | In the two-party scenario each side receives the other's offer or answer and never its own. A third joiner gets `room-full` and leaves the membership unchanged. When one side disconnects, the other receives exactly one `peer-left`, given the memberships are still visible (see Left out). |
| GatewayProperties.LeaveThenDisconnect | src/link/link.gateway.ts:74-91 | The page's exit path, `leaveRoom` followed by the disconnect: the partner receives exactly one `peer-left` for the two together, because the leaver is in no room when it disconnects. |
| PeerEndpoint.Without | src/link/link.controller.ts:302-304 | Removing a track from a stream keeps exactly the other tracks. |
| PeerEndpointProperties.AcquireAudioConsistent | src/link/link.controller.ts:181-193 | Securing the microphone keeps the script's invariant. |
| PeerEndpointProperties.OpenConnectionConsistent | src/link/link.controller.ts:195-227 | Creating the connection keeps the invariant: a connection exists exactly when the audio sender does. |
| PeerEndpointProperties.EnableVideoConsistent | src/link/link.controller.ts:273-295 | Enabling video keeps the invariant: with a connection, the camera track has a sender. |
| PeerEndpointProperties.DisableVideoConsistent | src/link/link.controller.ts:297-315 | Disabling video keeps the invariant. |
| PeerEndpointProperties.CleanUpConsistent | src/link/link.controller.ts:333-349 | Teardown keeps the invariant. |
| PeerEndpointProperties.AnswerOfferConsistent | src/link/link.controller.ts:239-243 | Answering an offer on an existing connection keeps the invariant. |
| PeerEndpointProperties.JoinedConsistent | src/link/link.controller.ts:360-364 | The `joined` handler keeps the invariant. |
| PeerEndpointProperties.PeerLeftConsistent | src/link/link.controller.ts:388-394 | The `peer-left` handler keeps the invariant. |
| PeerEndpointProperties.HangUpConsistent | src/link/link.controller.ts:325-331 | Hanging up keeps the invariant. |
| PeerEndpointProperties.HandleConsistent | src/link/link.controller.ts:351-410 | Every handler of the script keeps the invariant. |
| PeerEndpointProperties.RunConsistent | src/link/link.controller.ts:157-411 | Any sequence of handler runs from the page's start keeps the invariant. |
| PeerEndpointBehaviour.AcquireAudioGuard | src/link/link.controller.ts:181-193 | Nothing happens when the stream and the microphone track exist. A denied microphone only sets the microphone status and rejects. A successful acquisition makes a second call a no-op. |
| PeerEndpointBehaviour.OpenConnectionGuard | src/link/link.controller.ts:195-227 | Nothing happens when a connection exists. Failure is exactly the microphone failure. Success leaves a connection that sends audio, sends video exactly when there is a camera track, attaches each track exactly once, and makes a second call a no-op. |
| PeerEndpointBehaviour.SendLocalOfferKeepsState | src/link/link.controller.ts:264-271 | Making and sending an offer changes only the recorded connection calls and the messages sent. |
| PeerEndpointBehaviour.OfferKeepsRole | src/link/link.controller.ts:229-236 | `createAndSendOffer` never changes the role. |
| PeerEndpointBehaviour.AnswerKeepsRole | src/link/link.controller.ts:238-244 | `handleOffer` never changes the role. |
| PeerEndpointBehaviour.EnableVideoKeepsRole | src/link/link.controller.ts:273-295 | `enableVideo` never changes the role. |
| PeerEndpointBehaviour.DisableVideoKeepsRole | src/link/link.controller.ts:297-315 | `disableVideo` never changes the role. |
| PeerEndpointBehaviour.RoleIsLastJoined | src/link/link.controller.ts:360-361 | After any run, `isInitiator` is the role from the last `joined`, or the initial false; teardown never changes it. |
| PeerEndpointBehaviour.JoinedOpensConnection | src/link/link.controller.ts:360-364 | `joined` records the role and sends nothing. When the microphone can be secured, a connection exists and the status is "in the room"; otherwise only the role and the microphone status change. |
| PeerEndpointBehaviour.ReadyOffersOnlyAsInitiator | src/link/link.controller.ts:368-373 | On `ready` a responder only updates the status. At most one offer is sent, and only by the initiator with a connection. The initiator whose browser calls succeed sends exactly one offer. |
| PeerEndpointBehaviour.SignalIgnored | src/link/link.controller.ts:375-386 | A falsy payload, or a payload of no known type, changes nothing. |
| PeerEndpointBehaviour.AnswerApplied | src/link/link.controller.ts:246-251 | An answer is set as the remote description only when a connection exists; nothing else changes. |
| PeerEndpointBehaviour.CandidateApplied | src/link/link.controller.ts:253-262 | A remote candidate is added only when a connection exists and the candidate is present. The outcome of the call does not matter. |
| PeerEndpointBehaviour.OfferAnswered | src/link/link.controller.ts:238-244 | At most one answer is sent for an offer. When the connection exists or can be made, the offer becomes the remote description, and an answer goes out exactly when every call succeeds. |
| PeerEndpointBehaviour.LocalCandidateSignalled | src/link/link.controller.ts:202-206 | A local ICE event sends the candidate to the room exactly when the candidate is not null, and changes nothing else. |
| PeerEndpointBehaviour.EnableVideoBehaviour | src/link/link.controller.ts:273-295 | Nothing happens when video is on, and a refused camera only sets the video-failure status. Otherwise a fresh camera track becomes current and live. With a connection, a sender is added, an offer is made, and exactly one offer is sent when the calls succeed; without a connection nothing is sent. A failed renegotiation keeps the video on and shows the failure. |
| PeerEndpointBehaviour.DisableVideoBehaviour | src/link/link.controller.ts:297-315 | Nothing happens when video is off. Otherwise the camera track is stopped and removed from the stream and the microphone is kept. The sender is removed and an offer is made only when there is both a sender and a connection. |
| PeerEndpointBehaviour.ToggleVideoFlips | src/link/link.controller.ts:317-323 | The video button turns video off when it is on, and on exactly when the camera is granted. |
| PeerEndpointBehaviour.CleanUpReleasesEverything | src/link/link.controller.ts:333-349 | Teardown closes an existing connection, forgets the stream, both tracks and both senders, and, from a `Consistent` state (corrected acquisition, see Findings), leaves no track live. It keeps the role, the status and what was sent. |
| PeerEndpointBehaviour.HangUpTearsDown | src/link/link.controller.ts:325-331 | Hanging up sends `leaveRoom`, tears down, shows the call-ended status, and disables both buttons. |
| PeerEndpointBehaviour.PeerLeftTearsDown | src/link/link.controller.ts:388-394 | `peer-left` tears down, shows the peer-gone status, enables both buttons, and, from a `Consistent` state (corrected acquisition, see Findings), leaves no track live. |
| PeerEndpointBehaviour.RejectionKeepsMedia | src/link/link.controller.ts:396-406 | `room-full` and `room-error` only set the status and disable both buttons. The error status shows the server's message, or the default text when the message is empty. |
| PeerEndpointBehaviour.TeardownStopsAllMedia | src/link/link.controller.ts:325-349 | With the corrected acquisition (see Findings), after any run from the page's start, hanging up or losing the peer leaves no acquired track live. |
| PeerEndpointBehaviour.AsWrittenLeavesCameraLive | src/link/link.controller.ts:181-193 | Enabling video before joining and then securing the microphone as the source does drops the camera track from the stream, after which teardown leaves the camera live. With the corrected acquisition, nothing stays live. |
| EndpointScript.Endpoint.constructor | src/link/link.controller.ts:157-175 | The page starts with no role, no connection, no media and nothing sent. |
| EndpointScript.Endpoint.EnsureAudioStream | src/link/link.controller.ts:181-193 | In-place `ensureAudioStream` has exactly the effect of `AcquireAudio`. |
| EndpointScript.Endpoint.AddMicrophoneTrack | src/link/link.controller.ts:186-188 | The granted microphone track gets a fresh id, becomes current and live, and is appended to the stream, which is created if absent (the corrected acquisition). |
| EndpointScript.Endpoint.EnsurePeerConnection | src/link/link.controller.ts:195-227 | In-place `ensurePeerConnection` has exactly the effect of `OpenConnection`. |
| EndpointScript.Endpoint.CreateConnection | src/link/link.controller.ts:200 | A new connection exists and its creation is recorded. |
| EndpointScript.Endpoint.AddAudioSender | src/link/link.controller.ts:221-223 | The given track is added to the connection and the audio sender is kept. |
| EndpointScript.Endpoint.AddVideoSender | src/link/link.controller.ts:224-226 | The given track is added to the connection and the video sender is kept. |
| EndpointScript.Endpoint.SendLocalOffer | src/link/link.controller.ts:264-271 | Creating, applying and sending an offer has exactly the effect of `SendLocalOffer`. |
| EndpointScript.Endpoint.CreateAndSendOffer | src/link/link.controller.ts:229-236 | In-place `createAndSendOffer` has exactly the effect of `CreateAndSendOffer`. |
| EndpointScript.Endpoint.HandleOffer | src/link/link.controller.ts:238-244 | In-place `handleOffer` has exactly the effect of `HandleOffer`. |
| EndpointScript.Endpoint.AnswerOffer | src/link/link.controller.ts:240-243 | Setting the remote offer, creating and applying the answer, and sending it, stopping at the first failure, has exactly the effect of `AnswerOffer`. |
| EndpointScript.Endpoint.HandleAnswer | src/link/link.controller.ts:246-251 | In-place `handleAnswer` has exactly the effect of `HandleAnswer`. |
| EndpointScript.Endpoint.HandleCandidate | src/link/link.controller.ts:253-262 | In-place `handleCandidate` has exactly the effect of `HandleCandidate`. |
| EndpointScript.Endpoint.Renegotiate | src/link/link.controller.ts:264-271 | In-place `renegotiate` has exactly the effect of `Renegotiate`. |
| EndpointScript.Endpoint.AddCameraTrack | src/link/link.controller.ts:278-283 | The granted camera track gets a fresh id, becomes current and live, and is appended to the stream, which is created if absent. |
| EndpointScript.Endpoint.EnableVideo | src/link/link.controller.ts:273-295 | In-place `enableVideo` has exactly the effect of `EnableVideo`. |
| EndpointScript.Endpoint.DisableVideo | src/link/link.controller.ts:297-315 | In-place `disableVideo` has exactly the effect of `DisableVideo`. |
| EndpointScript.Endpoint.StopCamera | src/link/link.controller.ts:301-305 | The camera track is no longer live, leaves the stream, and is forgotten. |
| EndpointScript.Endpoint.RemoveVideoSender | src/link/link.controller.ts:306-308 | The track's removal is recorded and the video sender is forgotten. |
| EndpointScript.Endpoint.CleanUp | src/link/link.controller.ts:333-349 | Closing the connection, stopping the stream and forgetting the media, in that order, has exactly the effect of `CleanUp`. |
| EndpointScript.Endpoint.ClosePeerConnection | src/link/link.controller.ts:334-338 | An existing connection is closed and forgotten; without one nothing changes. |
| EndpointScript.Endpoint.StopLocalStream | src/link/link.controller.ts:339-342 | The loop that stops the stream's tracks one by one leaves exactly the other tracks live, and the stream is forgotten. |
| EndpointScript.Endpoint.ForgetMedia | src/link/link.controller.ts:343-346 | Both tracks and both senders are forgotten. |
| EndpointScript.Endpoint.OnConnect | src/link/link.controller.ts:356-358 | On connect the page sends `joinRoom` for its room and keeps the invariant. |
| EndpointScript.Endpoint.OnJoined | src/link/link.controller.ts:360-364 | In-place `joined` handler: exactly `OnJoined`, keeping the invariant. |
| EndpointScript.Endpoint.ShowJoined | src/link/link.controller.ts:363 | The in-room status is shown once the connection exists; a failed attempt leaves the status alone. |
| EndpointScript.Endpoint.OnWaiting | src/link/link.controller.ts:366 | `waiting` only sets the status. |
| EndpointScript.Endpoint.OnReady | src/link/link.controller.ts:368-373 | In-place `ready` handler: exactly `OnReady`, keeping the invariant. |
| EndpointScript.Endpoint.OnSignal | src/link/link.controller.ts:375-386 | In-place `signal` dispatch: exactly `OnSignal`, keeping the invariant. |
| EndpointScript.Endpoint.OnPeerLeft | src/link/link.controller.ts:388-394 | In-place `peer-left` handler: exactly `OnPeerLeft`, keeping the invariant. |
| EndpointScript.Endpoint.OnRoomFull | src/link/link.controller.ts:396-400 | `room-full` sets the status and disables both buttons. |
| EndpointScript.Endpoint.OnRoomError | src/link/link.controller.ts:402-406 | `room-error` shows the message or the default text and disables both buttons. |
| EndpointScript.Endpoint.OnIceCandidate | src/link/link.controller.ts:202-206 | A local candidate is sent exactly when it is not null. |
| EndpointScript.Endpoint.OnConnectionStateChange | src/link/link.controller.ts:212-219 | The connection-lost status is shown only while a connection exists and its state is `disconnected` or `failed`. |
| EndpointScript.Endpoint.OnToggleVideo | src/link/link.controller.ts:317-323 | The video button: exactly `ToggleVideo`, keeping the invariant. |
| EndpointScript.Endpoint.LeaveRoom | src/link/link.controller.ts:325-331 | The hang-up button: exactly `HangUp`, keeping the invariant. |
| EndpointScript.Endpoint.OnBeforeUnload | src/link/link.controller.ts:408-410 | Unloading the page sends `leaveRoom` for its room. |
| Controller.PageFor | src/link/link.controller.ts:19-27 | The answer is 404 with the not-found page exactly when the id is unregistered, and otherwise 200 with the page of the registered room. |
| Controller.LinkController.constructor | src/link/link.controller.ts:7 | The controller reads the shared registry. |
| Controller.LinkController.GetRoomPage | src/link/link.controller.ts:19-27 | The answer to `GET /room/:id` is `PageFor` on the current registry; nothing changes. |
| Controller.ServedPageIsRequested | src/link/link.controller.ts:19-27 | In a well-keyed registry the page served embeds the requested id, which is a 16-character hex id. |
| Controller.CreatedRoomStaysServed | src/link/room.service.ts:12-25 | Rooms are never removed: a registered id is served 200 after any later creations. |
| TelegramBot.LastSegment | src/telegram-bot/telegram-bot.service.ts:51 | The last path segment of a URL contains no '/' and is no longer than the URL. |
| TelegramBot.LinkJoinsWithOneSlash | src/telegram-bot/telegram-bot.service.ts:49-51 | A base ending with '/' keeps that one slash and gets `room/{id}`; any other base gets `/room/{id}`. |
| TelegramBot.LinkNamesRoom | src/telegram-bot/telegram-bot.service.ts:49-51 | For an id without '/', the link's last segment is the id. |
| TelegramBot.LinkOpensRoomPage | src/telegram-bot/telegram-bot.service.ts:46-53 | Once the room `/link` created is registered, the reply's link leads `GET /room/:id` to a 200 with that very room's page, for a base URL that is the server's bare origin; routing is abstracted as taking the link's last path segment (`LastSegment`). |
| TelegramBot.DestroyIdempotent | src/telegram-bot/telegram-bot.service.ts:31-39 | After shutdown there is no bot. A second shutdown changes nothing, and shutdown without a bot makes no call. |
| TelegramBot.NoTokenNoBot | src/telegram-bot/telegram-bot.service.ts:12-17 | An unset or empty token creates and launches nothing. |
| TelegramBot.ApplyKeepsStopsBacked | src/telegram-bot/telegram-bot.service.ts:12-39 | Each lifecycle step keeps the number of stops, plus one for a live bot, at most the number of launches. |
| TelegramBot.StopsFollowLaunches | src/telegram-bot/telegram-bot.service.ts:12-39 | Over any sequence of init, launch failure and shutdown, the service never stops more bots than it launched. |
| TelegramBot.TelegramBotService.constructor | src/telegram-bot/telegram-bot.service.ts:8-10 | The service starts without a bot and has made no call. |
| TelegramBot.TelegramBotService.OnModuleInit | src/telegram-bot/telegram-bot.service.ts:12-29 | Init has exactly the effect of `Init`: with a token, the bot is set and launched once. |
| TelegramBot.TelegramBotService.OnLaunchFailed | src/telegram-bot/telegram-bot.service.ts:25-28 | A rejected launch clears the bot and makes no call. |
| TelegramBot.TelegramBotService.OnModuleDestroy | src/telegram-bot/telegram-bot.service.ts:31-39 | Shutdown has exactly the effect of `Destroy`: a no-op without a bot, otherwise one stop with the shutdown reason, and the bot is cleared. |
| TelegramBot.TelegramBotService.OnLinkCommand | src/telegram-bot/telegram-bot.service.ts:46-58 | When the random bytes are drawn, the room with their hex id and the current time is registered, and the reply is the link built from the base URL (the default when the variable is unset or empty), with one trailing '/' removed. An undelivered reply is followed by the failure text. When the draw throws, only the failure text is sent and nothing is registered. |

## Left out

- socket.io itself is not modelled: transports, reconnection, and the per-connection room named after the connection's id. The model has explicit membership, and the own-id room is excluded from the disconnect notices by `RoomsOf`.
- Gateway.LinkGateway.HandleDisconnect: reads the memberships as they were when the connection closed, and socket.io's own removal of the connection is the separate `ReleaseConnection`. Socket.io may already have emptied `client.rooms` when the `disconnect` handler runs, in which case no `peer-left` is sent; the model assumes the memberships are still visible.
- The connection ids, the clock and `randomBytes` are parameters, and so are the environment variables. A failing `randomBytes` is the `None` case of the `/link` command.
- WebRTC, media capture and SDP are oracles in `Browser`. A successful call returns the description text `sdp`, and a failing call rejects. ICE, STUN, the media flow and `ontrack`/`remoteVideo` are not modelled.
- PeerEndpoint: each handler runs as one atomic step. `await` points where another event could run in between are not modelled, so neither are interleavings such as two renegotiations in flight.
- PeerEndpoint: the DOM is not modelled: statuses are tags, and video element sources, hidden classes and button captions are left out. Only the `disabled` state of both buttons (`controlsDisabled`) is kept, and it is recorded but not enforced: `Handle` accepts a click on a disabled button, so the lemmas over every run cover more traces than the page allows.
- Protocol: the server's Russian room-error texts and the page's status texts are English tags.
- The HTML and CSS of the room page are left out: the page is identified by the room id it embeds. The 404 page is the tag `NotFoundPage`.
- `getStatus` (`GET /`) is a constant health reply and not part of this model.
- Telegram I/O is left out: the Telegraf client, the `/start` greeting, the wording of replies, and logging. A reply is `LinkReply(url)` or `FailureReply`.
- The NestJS modules, dependency injection and `Logger` calls are not part of this model. One `RoomService` instance is shared by the other classes.
- The role is never re-derived: if the responder stays alone after `peer-left` and someone joins, both are responders and nobody makes an offer. `RoleIsLastJoined` states this behaviour; no lemma claims the call recovers.
- PeerEndpoint.AcquireAudio: models the corrected acquisition, which appends the microphone track to the existing stream. Line 188 of src/link/link.controller.ts replaces the stream instead; that is `AcquireAudioAsWritten` (see Findings).
- EndpointScript.Endpoint.EnsureAudioStream: has the effect of the corrected `AcquireAudio`, not of line 188 as written, which is `AcquireAudioAsWritten`.
- EndpointScript.Endpoint.AddMicrophoneTrack: appends the microphone track to the stream (the corrected acquisition). Line 188 as written replaces the stream; that is `AcquireAudioAsWritten`.
- PeerEndpointProperties.AcquireAudioConsistent: holds of the corrected acquisition only. With line 188 as written (`AcquireAudioAsWritten`), a camera track already in the stream drops out of it, and `Consistent` fails (`AsWrittenLeavesCameraLive`).
- PeerEndpointProperties.OpenConnectionConsistent: holds of the corrected acquisition only. `ensurePeerConnection` with line 188 as written (`AcquireAudioAsWritten`) can break `Consistent`.
- PeerEndpointProperties.JoinedConsistent: holds of the corrected acquisition only. The `joined` handler with line 188 as written (`AcquireAudioAsWritten`) can break `Consistent`.
- PeerEndpointProperties.HandleConsistent: holds of the script with the corrected acquisition only. The `joined`, `ready` and offer paths with line 188 as written (`AcquireAudioAsWritten`) can break `Consistent`.
- PeerEndpointProperties.RunConsistent: holds of the script with the corrected acquisition only. With line 188 as written (`AcquireAudioAsWritten`), a run that turns video on and then receives `joined` breaks `Consistent` (`AsWrittenLeavesCameraLive`).
- TelegramBot.LinkOpensRoomPage: routing of `GET /room/:id` is abstracted as taking the link's last path segment. That matches Express routing only when `LINK_BASE_URL` is the server's bare origin. A base with a path (`https://h/app`), one ending in `//`, or one with a query or fragment does not reach the room page, and the lemma does not cover those.
- PeerEndpointBehaviour.CleanUpReleasesEverything: "no track live" holds from a `Consistent` state, so of the corrected acquisition only. After line 188 as written (`AcquireAudioAsWritten`), `cleanUp` leaves the camera track live (`AsWrittenLeavesCameraLive`).
- PeerEndpointBehaviour.PeerLeftTearsDown: "no track live" holds from a `Consistent` state, so of the corrected acquisition only. Under line 188 as written, `peer-left` after video on and then `joined` leaves the camera track live.
- PeerEndpointBehaviour.TeardownStopsAllMedia: holds over runs of the script with the corrected acquisition only. With line 188 as written, turning video on, then `joined`, then hanging up or `peer-left` leaves the camera track live (`AsWrittenLeavesCameraLive`).

## Findings

| source | as written | input that shows it | evidently intended | confidence | as-written member | corrected member |
|---|---|---|---|---|---|---|
| src/link/link.controller.ts:181-193 | `ensureAudioStream` replaces `localStream` with a new stream holding only the microphone track, even when the old stream holds a camera track. | Turn video on before the first `joined` arrives, let `joined` secure the microphone, then hang up. After `peer-left` the same happens when video is turned on again and then `ready` (as initiator) or an incoming offer secures the microphone. `cleanUp` stops only the new stream's tracks, so the camera stays on. | The microphone track joins the existing stream, so teardown stops every acquired track. | medium, not executed | PeerEndpointBehaviour.AsWrittenLeavesCameraLive | PeerEndpointBehaviour.TeardownStopsAllMedia |
