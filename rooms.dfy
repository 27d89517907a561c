/**
 * The in-memory room registry (`RoomService`): a map from room id to room,
 * filled by `createRoom` and read by `getRoom`. Rooms are never removed.
 */
module Rooms {
  import opened Wrappers
  import Hex

  /** A room; `createdAt` is the creation time in milliseconds since the epoch. */
  datatype Room = Room(id: string, createdAt: int)

  /** A room id: the hex encoding of 8 random bytes. */
  predicate IsRoomId(id: string) {
    |id| == 16 && Hex.IsHexString(id)
  }

  /** Every stored room sits under its own id, and every key is a room id. */
  ghost predicate WellKeyed(rooms: map<string, Room>) {
    forall id :: id in rooms ==> rooms[id].id == id && IsRoomId(id)
  }

  class RoomService {
    var rooms: map<string, Room>

    ghost predicate Valid()
      reads this
    {
      WellKeyed(rooms)
    }

    constructor ()
      ensures Valid() && rooms == map[]
    {
      rooms := map[];
    }

    /**
     * `randomBytes(8)` and `new Date()` are the parameters `bytes` and `now`.
     * A colliding id overwrites the earlier room; nothing regenerates it.
     */
    method CreateRoom(bytes: seq<Hex.Byte>, now: int) returns (room: Room)
      requires |bytes| == 8
      requires Valid()
      modifies this
      ensures Valid()
      ensures room.id == Hex.Encode(bytes) && room.createdAt == now
      ensures IsRoomId(room.id)
      ensures rooms == old(rooms)[room.id := room]
    {
      var id := Hex.Encode(bytes);
      room := Room(id, now);
      rooms := rooms[id := room];
    }

    /** A plain lookup; `None` stands for `undefined`. */
    method GetRoom(id: string) returns (room: Option<Room>)
      ensures room.Some? <==> id in rooms
      ensures room.Some? ==> room.value == rooms[id]
    {
      if id in rooms {
        room := Some(rooms[id]);
      } else {
        room := None;
      }
    }
  }

  /** The random bytes and the clock reading of one `createRoom` call. */
  datatype Draw = Draw(bytes: seq<Hex.Byte>, at: int)

  function RoomOf(d: Draw): Room {
    Room(Hex.Encode(d.bytes), d.at)
  }

  /** The registry after a run of `createRoom` calls, oldest first. */
  function CreateAll(rooms: map<string, Room>, draws: seq<Draw>): map<string, Room>
    decreases |draws|
  {
    if draws == [] then rooms
    else
      var r := RoomOf(draws[0]);
      CreateAll(rooms[r.id := r], draws[1..])
  }

  /** Once created, an id stays resolvable: the registry only grows. */
  lemma {:induction false} CreateAllKeepsIds(rooms: map<string, Room>, draws: seq<Draw>)
    ensures rooms.Keys <= CreateAll(rooms, draws).Keys
    ensures |rooms| <= |CreateAll(rooms, draws)| <= |rooms| + |draws|
    decreases |draws|
  {
    if draws != [] {
      var r := RoomOf(draws[0]);
      CreateAllKeepsIds(rooms[r.id := r], draws[1..]);
    }
  }

  /** The ids a run of `createRoom` calls produces. */
  function DrawnIds(draws: seq<Draw>): set<string>
    decreases |draws|
  {
    if draws == [] then {} else {Hex.Encode(draws[0].bytes)} + DrawnIds(draws[1..])
  }

  /** Exactly the previous ids and the ids of the draws are resolvable afterwards. */
  lemma {:induction false} CreateAllIds(rooms: map<string, Room>, draws: seq<Draw>)
    ensures CreateAll(rooms, draws).Keys == rooms.Keys + DrawnIds(draws)
    decreases |draws|
  {
    if draws != [] {
      var r := RoomOf(draws[0]);
      CreateAllIds(rooms[r.id := r], draws[1..]);
    }
  }

  /** The latest room created under an id is the one `getRoom` returns. */
  lemma {:induction false} CreateAllLatestWins(rooms: map<string, Room>, draws: seq<Draw>)
    requires draws != []
    ensures var last := RoomOf(draws[|draws| - 1]);
      last.id in CreateAll(rooms, draws) && CreateAll(rooms, draws)[last.id] == last
    decreases |draws|
  {
    var r := RoomOf(draws[0]);
    if |draws| > 1 {
      CreateAllLatestWins(rooms[r.id := r], draws[1..]);
      assert draws[1..][|draws[1..]| - 1] == draws[|draws| - 1];
    }
  }

  /** Pairwise distinct random draws, none colliding with a stored id, give one new room each. */
  lemma {:induction false} CreateAllFreshDraws(rooms: map<string, Room>, draws: seq<Draw>)
    requires forall i, j :: 0 <= i < j < |draws| ==> draws[i].bytes != draws[j].bytes
    requires forall i :: 0 <= i < |draws| ==> Hex.Encode(draws[i].bytes) !in rooms
    ensures |CreateAll(rooms, draws)| == |rooms| + |draws|
    decreases |draws|
  {
    if draws != [] {
      var r := RoomOf(draws[0]);
      var rest := draws[1..];
      forall i | 0 <= i < |rest|
        ensures Hex.Encode(rest[i].bytes) !in rooms[r.id := r]
      {
        assert rest[i] == draws[i + 1];
        if Hex.Encode(rest[i].bytes) == r.id {
          Hex.EncodeInjective(rest[i].bytes, draws[0].bytes);
        }
      }
      forall i, j | 0 <= i < j < |rest| ensures rest[i].bytes != rest[j].bytes {
        assert rest[i] == draws[i + 1] && rest[j] == draws[j + 1];
      }
      CreateAllFreshDraws(rooms[r.id := r], rest);
    }
  }

  /** `getRoom` finds nothing under an id that no `createRoom` produced. */
  lemma {:induction false} NeverCreatedIsAbsent(rooms: map<string, Room>, draws: seq<Draw>, id: string)
    requires id !in rooms
    requires forall i :: 0 <= i < |draws| ==> Hex.Encode(draws[i].bytes) != id
    ensures id !in CreateAll(rooms, draws)
    decreases |draws|
  {
    if draws != [] {
      var r := RoomOf(draws[0]);
      assert r.id != id;
      forall i | 0 <= i < |draws[1..]| ensures Hex.Encode(draws[1..][i].bytes) != id {
        assert draws[1..][i] == draws[i + 1];
      }
      NeverCreatedIsAbsent(rooms[r.id := r], draws[1..], id);
    }
  }

  /** A run of `createRoom` calls keeps the registry well keyed. */
  lemma {:induction false} CreateAllWellKeyed(rooms: map<string, Room>, draws: seq<Draw>)
    requires WellKeyed(rooms)
    requires forall i :: 0 <= i < |draws| ==> |draws[i].bytes| == 8
    ensures WellKeyed(CreateAll(rooms, draws))
    decreases |draws|
  {
    if draws != [] {
      var r := RoomOf(draws[0]);
      assert |draws[0].bytes| == 8;
      forall i | 0 <= i < |draws[1..]| ensures |draws[1..][i].bytes| == 8 {
        assert draws[1..][i] == draws[i + 1];
      }
      CreateAllWellKeyed(rooms[r.id := r], draws[1..]);
    }
  }
}
