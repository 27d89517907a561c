/**
 * The signaling gateway (`LinkGateway`): room membership, the two-party
 * capacity, and the relay of signal payloads. The membership that socket.io
 * keeps in its adapter is explicit here, and every outbound emit is recorded
 * in an append-only log.
 */
module Gateway {
  import opened Wrappers
  import opened Protocol
  import Rooms

  /** Room id to the connections in it; socket.io drops a room once it is empty. */
  type Membership = map<RoomId, set<ConnId>>

  /**
   * One outbound emit: `client.emit` to one connection, or a broadcast through
   * `server.to(room)` / `client.to(room)` with the recipients it reached.
   */
  datatype Emit =
    | ToClient(client: ConnId, event: ServerEvent)
    | ToRoom(room: RoomId, recipients: set<ConnId>, event: ServerEvent)

  function Recipients(e: Emit): set<ConnId> {
    match e
    case ToClient(c, _) => {c}
    case ToRoom(_, rs, _) => rs
  }

  /** The events connection `c` receives from a log, in order. */
  function Inbox(log: seq<Emit>, c: ConnId): (es: seq<ServerEvent>)
    ensures |es| <= |log|
    decreases |log|
  {
    if log == [] then []
    else
      var last := log[|log| - 1];
      Inbox(log[..|log| - 1], c) + (if c in Recipients(last) then [last.event] else [])
  }

  /** What one emit delivers to `c`. */
  function Got(e: Emit, c: ConnId): seq<ServerEvent> {
    if c in Recipients(e) then [e.event] else []
  }

  lemma InboxAppend(log: seq<Emit>, e: Emit, c: ConnId)
    ensures Inbox(log + [e], c) == Inbox(log, c) + Got(e, c)
  {
    assert (log + [e])[..|log|] == log;
  }

  lemma InboxAppendTwo(log: seq<Emit>, e1: Emit, e2: Emit, c: ConnId)
    ensures Inbox(log + [e1, e2], c) == Inbox(log, c) + Got(e1, c) + Got(e2, c)
  {
    assert log + [e1, e2] == (log + [e1]) + [e2];
    InboxAppend(log, e1, c);
    InboxAppend(log + [e1], e2, c);
  }

  lemma {:induction false} InboxConcat(a: seq<Emit>, b: seq<Emit>, c: ConnId)
    ensures Inbox(a + b, c) == Inbox(a, c) + Inbox(b, c)
    decreases |b|
  {
    if b != [] {
      var b', e := b[..|b| - 1], b[|b| - 1];
      assert b == b' + [e];
      assert a + b == (a + b') + [e];
      InboxConcat(a, b', c);
      InboxAppend(a + b', e, c);
      InboxAppend(b', e, c);
    } else {
      assert a + b == a;
    }
  }

  function Members(m: Membership, r: RoomId): set<ConnId> {
    if r in m then m[r] else {}
  }

  /** No stored room is empty and none holds more than two connections. */
  ghost predicate WithinCapacity(m: Membership) {
    forall r :: r in m ==> 0 < |m[r]| <= 2
  }

  /** `client.join(r)`: set semantics, so a re-join changes nothing. */
  function Add(m: Membership, r: RoomId, c: ConnId): Membership {
    m[r := Members(m, r) + {c}]
  }

  /** `client.leave(r)`: a no-op for a non-member; an emptied room disappears. */
  function Remove(m: Membership, r: RoomId, c: ConnId): Membership {
    var rest := Members(m, r) - {c};
    if rest == {} then m - {r} else m[r := rest]
  }

  /** `client.rooms`, without the connection's own-id room. */
  function RoomsOf(m: Membership, c: ConnId): set<RoomId> {
    set r | r in m && c in m[r]
  }

  /** socket.io's cleanup of a closed socket: it leaves every room. */
  function Evicted(m: Membership, c: ConnId): Membership {
    map r | r in m && m[r] - {c} != {} :: m[r] - {c}
  }

  /** The gateway's observable state. */
  datatype Hub = Hub(members: Membership, log: seq<Emit>)

  /** `!roomId` for a room id that may be missing. */
  predicate Blank(roomId: Option<RoomId>) {
    roomId.None? || roomId.value == ""
  }

  /** The guards of `handleJoinRoom` all pass. */
  predicate Admitted(h: Hub, registry: map<string, Rooms.Room>, roomId: Option<RoomId>) {
    !Blank(roomId) && roomId.value in registry && |Members(h.members, roomId.value)| < 2
  }

  /** `handleJoinRoom(c, {roomId})`. */
  function Join(h: Hub, registry: map<string, Rooms.Room>, c: ConnId, roomId: Option<RoomId>): Hub {
    if Blank(roomId) then
      h.(log := h.log + [ToClient(c, RoomError(BadLinkMessage))])
    else if roomId.value !in registry then
      h.(log := h.log + [ToClient(c, RoomError(UnknownRoomMessage))])
    else if |Members(h.members, roomId.value)| >= 2 then
      h.(log := h.log + [ToClient(c, RoomFull)])
    else
      var r := roomId.value;
      var m := Add(h.members, r, c);
      var initiator := |Members(m, r)| == 1;
      var log := h.log + [ToClient(c, Joined(r, initiator))];
      Hub(m, if initiator then log + [ToClient(c, Waiting)] else log + [ToRoom(r, Members(m, r), Ready)])
  }

  /** `handleSignal(c, {roomId, payload})`: only an `undefined` payload is dropped. */
  function Relay(h: Hub, c: ConnId, roomId: Option<RoomId>, payload: Payload): Hub {
    if Blank(roomId) || payload.Undefined? then h
    else h.(log := h.log + [ToRoom(roomId.value, Members(h.members, roomId.value) - {c}, Signal(payload))])
  }

  /** `handleLeaveRoom(c, {roomId})`. */
  function Leave(h: Hub, c: ConnId, roomId: Option<RoomId>): Hub {
    if Blank(roomId) then h
    else
      var r := roomId.value;
      var m := Remove(h.members, r, c);
      Hub(m, h.log + [ToRoom(r, Members(m, r) - {c}, PeerLeft)])
  }

  /** The `peer-left` broadcast of `handleDisconnect` for room `r`. */
  function PeerLeftFor(m: Membership, c: ConnId, r: RoomId): Emit {
    ToRoom(r, Members(m, r) - {c}, PeerLeft)
  }

  /** `added` holds one `peer-left` broadcast for each room of `rs`, in some order. */
  ghost predicate NoticeBatch(m: Membership, c: ConnId, rs: set<RoomId>, added: seq<Emit>)
    decreases |added|
  {
    if added == [] then rs == {}
    else
      var e := added[|added| - 1];
      && e.ToRoom? && e.room in rs && e == PeerLeftFor(m, c, e.room)
      && NoticeBatch(m, c, rs - {e.room}, added[..|added| - 1])
  }

  /** What `handleDisconnect` emits over the membership it observes. */
  ghost predicate DisconnectBatch(m: Membership, c: ConnId, added: seq<Emit>) {
    NoticeBatch(m, c, RoomsOf(m, c) - {c}, added)
  }

  class LinkGateway {
    const roomService: Rooms.RoomService
    var members: Membership
    var log: seq<Emit>

    ghost predicate Valid()
      reads this
    {
      WithinCapacity(members)
    }

    function State(): Hub
      reads this
    {
      Hub(members, log)
    }

    constructor (roomService: Rooms.RoomService)
      ensures Valid()
      ensures this.roomService == roomService && members == map[] && log == []
    {
      this.roomService := roomService;
      members := map[];
      log := [];
    }

    method HandleJoinRoom(c: ConnId, roomId: Option<RoomId>)
      requires Valid()
      modifies this
      ensures Valid()
      ensures State() == Join(old(State()), roomService.rooms, c, roomId)
    {
      if roomId.None? || roomId.value == "" {
        log := log + [ToClient(c, RoomError(BadLinkMessage))];
        return;
      }
      var r := roomId.value;
      var room := roomService.GetRoom(r);
      if room.None? {
        log := log + [ToClient(c, RoomError(UnknownRoomMessage))];
        return;
      }
      if r in members && |members[r]| >= 2 {
        log := log + [ToClient(c, RoomFull)];
        return;
      }
      members := members[r := Members(members, r) + {c}];
      var participantCount := |Members(members, r)|;
      var initiator := participantCount == 1;
      log := log + [ToClient(c, Joined(r, initiator))];
      if initiator {
        log := log + [ToClient(c, Waiting)];
      } else {
        log := log + [ToRoom(r, Members(members, r), Ready)];
      }
    }

    method HandleSignal(c: ConnId, roomId: Option<RoomId>, payload: Payload)
      modifies this`log
      ensures State() == Relay(old(State()), c, roomId, payload)
    {
      if roomId.None? || roomId.value == "" || payload.Undefined? {
        return;
      }
      var r := roomId.value;
      log := log + [ToRoom(r, Members(members, r) - {c}, Signal(payload))];
    }

    method HandleLeaveRoom(c: ConnId, roomId: Option<RoomId>)
      requires Valid()
      modifies this
      ensures Valid()
      ensures State() == Leave(old(State()), c, roomId)
    {
      if roomId.None? || roomId.value == "" {
        return;
      }
      var r := roomId.value;
      var rest := Members(members, r) - {c};
      if rest == {} {
        members := members - {r};
      } else {
        members := members[r := rest];
      }
      log := log + [ToRoom(r, Members(members, r) - {c}, PeerLeft)];
    }

    /**
     * `handleDisconnect`: one `peer-left` per room the connection is still in,
     * skipping a room named like the connection itself. It changes no membership.
     */
    method HandleDisconnect(c: ConnId)
      modifies this`log
      ensures |log| >= |old(log)| && log[..|old(log)|] == old(log)
      ensures DisconnectBatch(members, c, log[|old(log)|..])
    {
      var m := members;
      var pending := RoomsOf(m, c);
      ghost var rooms := pending;
      ghost var done: set<RoomId> := {};
      ghost var added: seq<Emit> := [];
      while pending != {}
        invariant pending + done == rooms && pending !! done
        invariant log == old(log) + added
        invariant NoticeBatch(m, c, done - {c}, added)
        decreases pending
      {
        var r :| r in pending;
        NoticeStep(m, c, done, added, r);
        if r != c {
          log := log + [PeerLeftFor(m, c, r)];
          added := added + [PeerLeftFor(m, c, r)];
        }
        pending := pending - {r};
        done := done + {r};
      }
      assert done - {c} == rooms - {c};
      assert log[|old(log)|..] == added;
    }

    /** The transport's removal of a closed socket from every room it was in. */
    method ReleaseConnection(c: ConnId)
      requires Valid()
      modifies this`members
      ensures Valid()
      ensures members == Evicted(old(members), c)
    {
      members := map r | r in members && members[r] - {c} != {} :: members[r] - {c};
      forall r | r in members ensures |members[r]| <= 2 {
        SubsetCard(members[r], old(members)[r]);
      }
    }
  }

  lemma NoticeStep(m: Membership, c: ConnId, done: set<RoomId>, added: seq<Emit>, r: RoomId)
    requires NoticeBatch(m, c, done - {c}, added) && r !in done
    ensures NoticeBatch(m, c, (done + {r}) - {c}, if r != c then added + [PeerLeftFor(m, c, r)] else added)
  {
    if r != c {
      NoticeBatchExtend(m, c, done - {c}, added, r);
      assert (done + {r}) - {c} == (done - {c}) + {r};
    } else {
      assert (done + {r}) - {c} == done - {c};
    }
  }

  lemma NoticeBatchExtend(m: Membership, c: ConnId, rs: set<RoomId>, added: seq<Emit>, r: RoomId)
    requires NoticeBatch(m, c, rs, added) && r !in rs
    ensures NoticeBatch(m, c, rs + {r}, added + [PeerLeftFor(m, c, r)])
  {
    var added' := added + [PeerLeftFor(m, c, r)];
    assert added'[..|added'| - 1] == added;
    assert (rs + {r}) - {r} == rs;
  }

  lemma SubsetCard<T>(a: set<T>, b: set<T>)
    requires a <= b
    ensures |a| <= |b|
  {
    assert b == a + (b - a);
  }
}

/** Properties of the gateway's handlers, stated over what each connection receives. */
module GatewayProperties {
  import opened Wrappers
  import opened Protocol
  import opened Gateway
  import Rooms

  /** Helper on sets: a set holding `c` has one element exactly when it is `{c}`. */
  lemma SingletonMembers(s: set<ConnId>, c: ConnId)
    requires c in s
    ensures |s| == 1 <==> s == {c}
  {
    if |s| == 1 {
      assert s == {c} + (s - {c});
      assert |s - {c}| == 0;
    }
  }

  /** A rejected join changes no membership and answers only the requester, with one event. */
  lemma JoinRejected(h: Hub, registry: map<string, Rooms.Room>, c: ConnId, roomId: Option<RoomId>, d: ConnId)
    requires !Admitted(h, registry, roomId)
    ensures Join(h, registry, c, roomId).members == h.members
    ensures d != c ==> Inbox(Join(h, registry, c, roomId).log, d) == Inbox(h.log, d)
    ensures d == c && Blank(roomId) ==>
      Inbox(Join(h, registry, c, roomId).log, d) == Inbox(h.log, d) + [RoomError(BadLinkMessage)]
    ensures d == c && !Blank(roomId) && roomId.value !in registry ==>
      Inbox(Join(h, registry, c, roomId).log, d) == Inbox(h.log, d) + [RoomError(UnknownRoomMessage)]
    ensures d == c && !Blank(roomId) && roomId.value in registry ==>
      Inbox(Join(h, registry, c, roomId).log, d) == Inbox(h.log, d) + [RoomFull]
  {
    var h' := Join(h, registry, c, roomId);
    assert h'.log == h.log + [h'.log[|h.log|]];
    InboxAppend(h.log, h'.log[|h.log|], d);
  }

  /** An admitted join adds the requester and emits the role, then `waiting` or `ready`. */
  lemma AdmittedJoinEmits(h: Hub, registry: map<string, Rooms.Room>, c: ConnId, roomId: Option<RoomId>)
    requires Admitted(h, registry, roomId)
    ensures var r := roomId.value; var m := Add(h.members, r, c); var alone := |Members(m, r)| == 1;
      Join(h, registry, c, roomId) ==
        Hub(m, h.log + [ToClient(c, Joined(r, alone))] +
               [if alone then ToClient(c, Waiting) else ToRoom(r, Members(m, r), Ready)])
  {
  }

  /** What the requester of an admitted join receives: its role, then `waiting` alone or `ready` second. */
  lemma JoinerInbox(h: Hub, registry: map<string, Rooms.Room>, c: ConnId, roomId: Option<RoomId>)
    requires Admitted(h, registry, roomId)
    ensures var r := roomId.value; var h' := Join(h, registry, c, roomId);
      Inbox(h'.log, c) == Inbox(h.log, c) +
        (if Members(h'.members, r) == {c} then [Joined(r, true), Waiting] else [Joined(r, false), Ready])
  {
    var r := roomId.value;
    var m := Add(h.members, r, c);
    SingletonMembers(Members(m, r), c);
    AdmittedJoinEmits(h, registry, c, roomId);
    var alone := |Members(m, r)| == 1;
    var e1 := ToClient(c, Joined(r, alone));
    var e2 := if alone then ToClient(c, Waiting) else ToRoom(r, Members(m, r), Ready);
    InboxAppend(h.log, e1, c);
    InboxAppend(h.log + [e1], e2, c);
  }

  /** What anyone else receives from an admitted join: `ready` for the member already there, nothing otherwise. */
  lemma BystanderInbox(h: Hub, registry: map<string, Rooms.Room>, c: ConnId, roomId: Option<RoomId>, d: ConnId)
    requires Admitted(h, registry, roomId) && d != c
    ensures var r := roomId.value; var h' := Join(h, registry, c, roomId);
      Inbox(h'.log, d) == Inbox(h.log, d) + (if d in Members(h'.members, r) then [Ready] else [])
  {
    var r := roomId.value;
    var m := Add(h.members, r, c);
    SingletonMembers(Members(m, r), c);
    AdmittedJoinEmits(h, registry, c, roomId);
    var alone := |Members(m, r)| == 1;
    var e1 := ToClient(c, Joined(r, alone));
    var e2 := if alone then ToClient(c, Waiting) else ToRoom(r, Members(m, r), Ready);
    InboxAppend(h.log, e1, d);
    InboxAppend(h.log + [e1], e2, d);
    if d in Members(m, r) {
      assert Members(m, r) != {c};
    }
  }

  /**
   * An admitted join adds the requester; it is the initiator exactly when it is
   * the only member afterwards. Alone, it gets `joined{initiator: true}` and
   * `waiting`; otherwise `joined{initiator: false}`, and `ready` reaches every
   * member, the joiner included.
   */
  lemma JoinAdmitted(h: Hub, registry: map<string, Rooms.Room>, c: ConnId, roomId: Option<RoomId>, d: ConnId)
    requires Admitted(h, registry, roomId)
    ensures var r := roomId.value; var h' := Join(h, registry, c, roomId);
      && h'.members == Add(h.members, r, c)
      && Members(h'.members, r) == Members(h.members, r) + {c}
      && (d == c && Members(h'.members, r) == {c} ==>
            Inbox(h'.log, d) == Inbox(h.log, d) + [Joined(r, true), Waiting])
      && (d == c && Members(h'.members, r) != {c} ==>
            Inbox(h'.log, d) == Inbox(h.log, d) + [Joined(r, false), Ready])
      && (d != c && d in Members(h'.members, r) ==> Inbox(h'.log, d) == Inbox(h.log, d) + [Ready])
      && (d != c && d !in Members(h'.members, r) ==> Inbox(h'.log, d) == Inbox(h.log, d))
  {
    AdmittedJoinEmits(h, registry, c, roomId);
    if d == c {
      JoinerInbox(h, registry, c, roomId);
    } else {
      BystanderInbox(h, registry, c, roomId, d);
    }
  }

  /** No handler step lets a room exceed two members. */
  lemma JoinKeepsCapacity(h: Hub, registry: map<string, Rooms.Room>, c: ConnId, roomId: Option<RoomId>)
    requires WithinCapacity(h.members)
    ensures WithinCapacity(Join(h, registry, c, roomId).members)
  {
    if Admitted(h, registry, roomId) {
      var r := roomId.value;
      var m := Join(h, registry, c, roomId).members;
      assert |Members(h.members, r) + {c}| <= |Members(h.members, r)| + 1;
      forall r' | r' in m ensures 0 < |m[r']| <= 2 {
        if r' != r { assert m[r'] == h.members[r']; }
      }
    }
  }

  /**
   * A relayed signal reaches every member of the room except the sender, once,
   * carrying the payload without the room id; only a blank room id or an
   * `undefined` payload drops it. The sender need not be a member.
   */
  lemma RelayDelivery(h: Hub, c: ConnId, roomId: Option<RoomId>, payload: Payload, d: ConnId)
    ensures Relay(h, c, roomId, payload).members == h.members
    ensures Inbox(Relay(h, c, roomId, payload).log, d) == Inbox(h.log, d) +
      (if !Blank(roomId) && !payload.Undefined? && d != c && d in Members(h.members, roomId.value)
       then [Signal(payload)] else [])
  {
    if !Blank(roomId) && !payload.Undefined? {
      InboxAppend(h.log, ToRoom(roomId.value, Members(h.members, roomId.value) - {c}, Signal(payload)), d);
    }
  }

  /** The sender never receives its own signal. */
  lemma RelayNeverEchoes(h: Hub, c: ConnId, roomId: Option<RoomId>, payload: Payload)
    ensures Inbox(Relay(h, c, roomId, payload).log, c) == Inbox(h.log, c)
  {
    RelayDelivery(h, c, roomId, payload, c);
  }

  /**
   * Leaving removes the sender from that room only and sends `peer-left` to
   * the members that remain, whether or not the sender was a member.
   */
  lemma LeaveNotifies(h: Hub, c: ConnId, roomId: Option<RoomId>, d: ConnId)
    ensures Blank(roomId) ==> Leave(h, c, roomId) == h
    ensures !Blank(roomId) ==> var r := roomId.value; var h' := Leave(h, c, roomId);
      && Members(h'.members, r) == Members(h.members, r) - {c}
      && (forall r' :: r' != r ==> Members(h'.members, r') == Members(h.members, r'))
      && Inbox(h'.log, d) == Inbox(h.log, d) + (if d != c && d in Members(h.members, r) then [PeerLeft] else [])
  {
    if !Blank(roomId) {
      var r := roomId.value;
      var m := Remove(h.members, r, c);
      InboxAppend(h.log, ToRoom(r, Members(m, r) - {c}, PeerLeft), d);
    }
  }

  /** A repeated leave repeats the notice to the member that stayed. */
  lemma LeaveTwiceNotifiesTwice(h: Hub, c: ConnId, r: RoomId, d: ConnId)
    requires r != "" && d != c && d in Members(h.members, r)
    ensures Inbox(Leave(Leave(h, c, Some(r)), c, Some(r)).log, d) == Inbox(h.log, d) + [PeerLeft, PeerLeft]
  {
    var h1 := Leave(h, c, Some(r));
    LeaveNotifies(h, c, Some(r), d);
    LeaveNotifies(h1, c, Some(r), d);
  }

  /**
   * A batch of `peer-left` broadcasts, one per room, gives each connection
   * one notice per room of the batch it shares with the leaver, and nothing else.
   */
  lemma {:induction false} NoticeCount(m: Membership, c: ConnId, rs: set<RoomId>, added: seq<Emit>, p: ConnId)
    requires NoticeBatch(m, c, rs, added)
    ensures |Inbox(added, p)| == |set r | r in rs && p in Members(m, r) && p != c|
    ensures forall k :: 0 <= k < |Inbox(added, p)| ==> Inbox(added, p)[k] == PeerLeft
    decreases |added|
  {
    var shared := set r | r in rs && p in Members(m, r) && p != c;
    if added == [] {
      assert shared == {};
    } else {
      var rest, e := added[..|added| - 1], added[|added| - 1];
      var r0 := e.room;
      assert added == rest + [e];
      var rs' := rs - {r0};
      NoticeCount(m, c, rs', rest, p);
      InboxAppend(rest, e, p);
      var shared' := set r | r in rs' && p in Members(m, r) && p != c;
      if p in Recipients(e) {
        assert shared == shared' + {r0};
      } else {
        assert shared == shared';
      }
    }
  }

  /**
   * When the leaver and `p` share exactly one room (other than the leaver's
   * own-id room), `p` receives exactly one `peer-left` on disconnect.
   */
  lemma DisconnectNotifiesPartnerOnce(m: Membership, c: ConnId, p: ConnId, r: RoomId, added: seq<Emit>)
    requires DisconnectBatch(m, c, added)
    requires p != c && r != c
    requires RoomsOf(m, c) * RoomsOf(m, p) == {r}
    ensures Inbox(added, p) == [PeerLeft]
  {
    NoticeCount(m, c, RoomsOf(m, c) - {c}, added, p);
    var shared := set x | x in RoomsOf(m, c) - {c} && p in Members(m, x) && p != c;
    assert r in RoomsOf(m, c) * RoomsOf(m, p);
    assert shared == {r} by {
      forall x | x in shared ensures x == r {
        assert x in RoomsOf(m, c) * RoomsOf(m, p);
      }
    }
  }

  /** socket.io's cleanup removes the closed connection from every room and keeps the bound. */
  lemma EvictedRemovesOnlyConnection(m: Membership, c: ConnId, r: RoomId)
    requires WithinCapacity(m)
    ensures Members(Evicted(m, c), r) == Members(m, r) - {c}
    ensures RoomsOf(Evicted(m, c), c) == {}
    ensures WithinCapacity(Evicted(m, c))
  {
    var e := Evicted(m, c);
    forall x | x in e ensures 0 < |e[x]| <= 2 {
      SubsetCard(e[x], m[x]);
    }
  }

  /** The first joiner of a registered room in an empty gateway is alone there and waits as initiator. */
  lemma FirstJoin(registry: map<string, Rooms.Room>, a: ConnId, b: ConnId, r: RoomId)
    requires r in registry && r != "" && a != b
    ensures var h1 := Join(Hub(map[], []), registry, a, Some(r));
      && h1.members == map[r := {a}]
      && Inbox(h1.log, a) == [Joined(r, true), Waiting]
      && Inbox(h1.log, b) == []
  {
    var h0 := Hub(map[], []);
    JoinAdmitted(h0, registry, a, Some(r), a);
    JoinAdmitted(h0, registry, a, Some(r), b);
  }

  /** A joins an empty room first and becomes the initiator; B joins second. */
  lemma PairForms(registry: map<string, Rooms.Room>, a: ConnId, b: ConnId, r: RoomId)
    requires r in registry && r != "" && a != b
    ensures var h2 := Join(Join(Hub(map[], []), registry, a, Some(r)), registry, b, Some(r));
      && h2.members == map[r := {a, b}]
      && Inbox(h2.log, a) == [Joined(r, true), Waiting, Ready]
      && Inbox(h2.log, b) == [Joined(r, false), Ready]
  {
    var h1 := Join(Hub(map[], []), registry, a, Some(r));
    FirstJoin(registry, a, b, r);
    assert Members(h1.members, r) == {a};
    JoinAdmitted(h1, registry, b, Some(r), a);
    JoinAdmitted(h1, registry, b, Some(r), b);
    assert {a} + {b} == {a, b};
    assert map[r := {a}][r := {a, b}] == map[r := {a, b}];
  }

  /** After the pair forms, A's offer reaches B and B's answer reaches A, and the room still holds both. */
  lemma SignalsCross(registry: map<string, Rooms.Room>, a: ConnId, b: ConnId, r: RoomId, sdpA: string, sdpB: string)
    requires r in registry && r != "" && a != b
    ensures var h2 := Join(Join(Hub(map[], []), registry, a, Some(r)), registry, b, Some(r));
      var h4 := Relay(Relay(h2, a, Some(r), Offer(sdpA)), b, Some(r), Answer(sdpB));
      && Inbox(h4.log, a) == [Joined(r, true), Waiting, Ready, Signal(Answer(sdpB))]
      && Inbox(h4.log, b) == [Joined(r, false), Ready, Signal(Offer(sdpA))]
      && h4.members == map[r := {a, b}]
  {
    var h2 := Join(Join(Hub(map[], []), registry, a, Some(r)), registry, b, Some(r));
    PairForms(registry, a, b, r);
    var h3 := Relay(h2, a, Some(r), Offer(sdpA));
    RelayDelivery(h2, a, Some(r), Offer(sdpA), a);
    RelayDelivery(h2, a, Some(r), Offer(sdpA), b);
    RelayDelivery(h3, b, Some(r), Answer(sdpB), a);
    RelayDelivery(h3, b, Some(r), Answer(sdpB), b);
  }

  /**
   * The two-party exchange: after the pair forms, A's offer reaches B and B's
   * answer reaches A, a third connection is turned away without any change,
   * and A's disconnect gives B exactly one `peer-left`.
   */
  lemma TwoPartyExchange(registry: map<string, Rooms.Room>, a: ConnId, b: ConnId, x: ConnId, r: RoomId, sdpA: string, sdpB: string)
    requires r in registry && r != "" && a != b && x != a && x != b && r != a
    ensures var h2 := Join(Join(Hub(map[], []), registry, a, Some(r)), registry, b, Some(r));
      var h4 := Relay(Relay(h2, a, Some(r), Offer(sdpA)), b, Some(r), Answer(sdpB));
      && Inbox(h4.log, a) == [Joined(r, true), Waiting, Ready, Signal(Answer(sdpB))]
      && Inbox(h4.log, b) == [Joined(r, false), Ready, Signal(Offer(sdpA))]
      && Join(h4, registry, x, Some(r)).members == h4.members == map[r := {a, b}]
      && Inbox(Join(h4, registry, x, Some(r)).log, x) == Inbox(h4.log, x) + [RoomFull]
      && (forall added :: DisconnectBatch(h4.members, a, added) ==> Inbox(added, b) == [PeerLeft])
  {
    var h2 := Join(Join(Hub(map[], []), registry, a, Some(r)), registry, b, Some(r));
    var h4 := Relay(Relay(h2, a, Some(r), Offer(sdpA)), b, Some(r), Answer(sdpB));
    SignalsCross(registry, a, b, r, sdpA, sdpB);
    PairTurnsAwayThird(h4, registry, a, b, x, r);
  }

  /** With the pair in the room, a third joiner gets `room-full`, and A's disconnect gives B one `peer-left`. */
  lemma PairTurnsAwayThird(h: Hub, registry: map<string, Rooms.Room>, a: ConnId, b: ConnId, x: ConnId, r: RoomId)
    requires h.members == map[r := {a, b}] && r in registry && r != "" && a != b && x != a && x != b && r != a
    ensures Join(h, registry, x, Some(r)).members == h.members
    ensures Inbox(Join(h, registry, x, Some(r)).log, x) == Inbox(h.log, x) + [RoomFull]
    ensures forall added :: DisconnectBatch(h.members, a, added) ==> Inbox(added, b) == [PeerLeft]
  {
    assert |Members(h.members, r)| == 2;
    JoinRejected(h, registry, x, Some(r), x);
    assert RoomsOf(h.members, a) == {r};
    assert RoomsOf(h.members, b) == {r};
    forall added | DisconnectBatch(h.members, a, added) ensures Inbox(added, b) == [PeerLeft] {
      DisconnectNotifiesPartnerOnce(h.members, a, b, r, added);
    }
  }

  /**
   * The page's exit path: `leaveRoom` and then the socket's disconnect. The
   * partner receives exactly one `peer-left` for the two together, because
   * the leaver is in no room any more when it disconnects.
   */
  lemma LeaveThenDisconnect(h: Hub, a: ConnId, b: ConnId, r: RoomId, added: seq<Emit>)
    requires h.members == map[r := {a, b}] && a != b && r != "" && r != a
    requires DisconnectBatch(Leave(h, a, Some(r)).members, a, added)
    ensures Inbox(Leave(h, a, Some(r)).log + added, b) == Inbox(h.log, b) + [PeerLeft]
  {
    var h' := Leave(h, a, Some(r));
    LeaveNotifies(h, a, Some(r), b);
    assert {a, b} - {a} == {b};
    assert h'.members == map[r := {b}];
    assert RoomsOf(h'.members, a) == {};
    NoticeCount(h'.members, a, RoomsOf(h'.members, a) - {a}, added, b);
    assert (set x | x in RoomsOf(h'.members, a) - {a} && b in Members(h'.members, x) && b != a) == {};
    InboxConcat(h'.log, added, b);
  }
}
