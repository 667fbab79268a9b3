/** The two backend tables the room routes read and write, and the HTTP responses
    they return. Only the columns the routes touch are modelled. */
module Store {
  import opened Wrappers
  import opened MapState

  /** A `rooms` row: `status`, `host_id` and the ownership payload `map_state`
      (`None` while it is null). */
  datatype Room = Room(status: string, hostId: string, mapState: Option<seq<MapStateUser>>)

  /** The key of a `room_players` row. */
  datatype PlayerKey = PlayerKey(roomId: string, userId: string)

  /** A `room_players` row: the player's colour and assigned counties (`None` while
      the column is null). */
  datatype PlayerRow = PlayerRow(color: string, counties: Option<seq<string>>)

  /** The JSON body of a response. */
  datatype Body =
    | ErrorBody(error: string)     // `{ error: ... }`
    | SuccessBody                  // `{ success: true }`
    | StatusBody(status: int)      // `{ status: ... }`

  /** `NextResponse.json(body, { status })`; the status defaults to 200. */
  datatype Response = Response(status: int, body: Body)

  function ErrorResponse(status: int, message: string): Response
  {
    Response(status, ErrorBody(message))
  }

  /** The backend's `rooms` and `room_players` tables. */
  class Tables {
    var rooms: map<string, Room>
    var roomPlayers: map<PlayerKey, PlayerRow>

    constructor (rooms: map<string, Room>, roomPlayers: map<PlayerKey, PlayerRow>)
      ensures this.rooms == rooms && this.roomPlayers == roomPlayers
    {
      this.rooms := rooms;
      this.roomPlayers := roomPlayers;
    }
  }
}
