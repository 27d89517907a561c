/**
 * The HTTP side of `LinkController`: `GET /room/:id` looks the id up in the
 * registry and answers 404 or the room page. The page's markup is not
 * modelled; the page is identified by the room id it embeds, which is the
 * `roomId` its script starts from (`PeerEndpoint.Initial`).
 */
module Controller {
  import opened Wrappers
  import Rooms

  datatype Body = NotFoundPage | RoomPage(roomId: string)

  datatype Response = Response(status: int, body: Body)

  const NotFound: int := 404
  const Ok: int := 200

  /** The answer to `GET /room/{id}` for a given registry. */
  function PageFor(rooms: map<string, Rooms.Room>, id: string): (r: Response)
    ensures r.status == NotFound <==> id !in rooms
    ensures r.status == Ok <==> id in rooms
    ensures r.body.NotFoundPage? <==> id !in rooms
    ensures r.body.RoomPage? ==> id in rooms && r.body.roomId == rooms[id].id
  {
    if id in rooms then Response(Ok, RoomPage(rooms[id].id)) else Response(NotFound, NotFoundPage)
  }

  class LinkController {
    const roomService: Rooms.RoomService

    constructor (roomService: Rooms.RoomService)
      ensures this.roomService == roomService
    {
      this.roomService := roomService;
    }

    method GetRoomPage(id: string) returns (res: Response)
      ensures res == PageFor(roomService.rooms, id)
    {
      var room := roomService.GetRoom(id);
      if room.None? {
        return Response(NotFound, NotFoundPage);
      }
      res := Response(Ok, RoomPage(room.value.id));
    }
  }

  /** In a well-keyed registry the page served for an id is the page of that very id. */
  lemma ServedPageIsRequested(rooms: map<string, Rooms.Room>, id: string)
    requires Rooms.WellKeyed(rooms)
    ensures PageFor(rooms, id).body.RoomPage? ==> PageFor(rooms, id).body.roomId == id
    ensures PageFor(rooms, id).body.RoomPage? ==> Rooms.IsRoomId(id)
  {
  }

  /** Rooms are never removed: once created, an id is served by every later registry. */
  lemma {:induction false} CreatedRoomStaysServed(rooms: map<string, Rooms.Room>, draws: seq<Rooms.Draw>, id: string)
    requires id in rooms
    ensures PageFor(Rooms.CreateAll(rooms, draws), id).status == Ok
  {
    Rooms.CreateAllKeepsIds(rooms, draws);
  }
}
