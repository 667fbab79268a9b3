/** The join route (`POST /api/rooms/join?room_id=..&user_id=..`): a user joins a
    room as a new `room_players` row with a colour drawn from a fixed palette.

    As in the start-game route, whether a backend query failed is a parameter. The
    colour loop may run forever (see `PickColorAsWritten`), so every colour loop
    here takes a `fuel` bound on its iterations and reports whether it left the
    loop within it. */
module JoinRoom {
  import opened Wrappers
  import opened Store

  /** The ten colour names of line 5. */
  const Palette: seq<string> := ["red", "blue", "green", "yellow", "purple", "orange", "pink", "cyan", "lime", "teal"]

  /** Lines 4-7: a colour picked at random from the palette. */
  method GetRandomColor() returns (color: string)
    ensures color in Palette
  {
    var k :| 0 <= k < |Palette|;
    color := Palette[k];
  }

  /** Lines 54-59 as written: draw a colour, then redraw WHILE the colour is NOT in
      use. The loop is left only on a colour some player of the room already has,
      and when no palette colour is in use it is never left at all. */
  method PickColorAsWritten(usedColors: set<string>, fuel: nat) returns (exited: bool, color: string)
    ensures color in Palette
    ensures exited <==> color in usedColors
    ensures (forall c :: c in Palette ==> c !in usedColors) ==> !exited
  {
    color := GetRandomColor();
    var budget := fuel;
    while color !in usedColors && budget > 0
      invariant color in Palette
    {
      color := GetRandomColor();
      budget := budget - 1;
    }
    exited := color in usedColors;
  }

  /** The evidently intended colour loop: redraw while the colour IS in use. When it
      is left, the colour collides with no player of the room; when every palette
      colour is in use it is never left. */
  method PickColor(usedColors: set<string>, fuel: nat) returns (exited: bool, color: string)
    ensures color in Palette
    ensures exited <==> color !in usedColors
    ensures (forall c :: c in Palette ==> c in usedColors) ==> !exited
  {
    color := GetRandomColor();
    var budget := fuel;
    while color in usedColors && budget > 0
      invariant color in Palette
    {
      color := GetRandomColor();
      budget := budget - 1;
    }
    exited := color !in usedColors;
  }

  /** The error messages of the handler's answers, in the order of its checks. */
  const MissingParams: string := "there is missing room_id or user_id"
  const MembershipCheckError: string := "there is an error checking if the user is already in the room"
  const AlreadyInRoom: string := "user is already in the room"
  const ColorFetchError: string := "hey! there has been an error fetching the existing colors"
  const InsertError: string := "hi! there has been an error trying to add you to your room, please try again later"

  /** A query parameter is truthy: present and not empty. */
  predicate Present(param: Option<string>)
  {
    param.Some? && param.value != ""
  }

  /** Line 54: the colours of the room's players. */
  function UsedColors(rows: map<PlayerKey, PlayerRow>, roomId: string): set<string>
  {
    set key | key in rows && key.roomId == roomId :: rows[key].color
  }

  /** The checks of lines 14-52 pass: both parameters are given, the membership and
      colour queries succeeded and the user has no row in the room. */
  predicate MayJoin(rows: map<PlayerKey, PlayerRow>, roomId: Option<string>, userId: Option<string>,
                    membershipCheckFailed: bool, colorFetchFailed: bool)
  {
    Present(roomId) && Present(userId) && !membershipCheckFailed
    && PlayerKey(roomId.value, userId.value) !in rows && !colorFetchFailed
  }

  /** `after` is `before` with one new row for `(roomId, userId)`, holding a palette
      colour and no counties yet. */
  predicate Inserted(before: map<PlayerKey, PlayerRow>, after: map<PlayerKey, PlayerRow>,
                     roomId: string, userId: string)
  {
    var key := PlayerKey(roomId, userId);
    key in after && after == before[key := PlayerRow(after[key].color, None)] && after[key].color in Palette
  }

  /** Lines 9-78 as written, with the colour loop of `PickColorAsWritten`. `None`
      means the request never gets an answer because the colour loop did not finish
      within `fuel` iterations. The guards answer 500, 500, 400 and 500 in that order
      and write nothing. A room where no palette colour is in use (an empty room
      among them) never gets an answer; otherwise the insert adds exactly the
      requested user to the requested room, with a colour some player of the room
      already has. */
  method Join(db: Tables, roomId: Option<string>, userId: Option<string>,
              membershipCheckFailed: bool, colorFetchFailed: bool, insertFailed: bool, fuel: nat)
      returns (resp: Option<Response>)
    modifies db
    ensures db.rooms == old(db.rooms)
    ensures !Present(roomId) || !Present(userId) ==>
              resp == Some(ErrorResponse(500, MissingParams)) && db.roomPlayers == old(db.roomPlayers)
    ensures Present(roomId) && Present(userId) && membershipCheckFailed ==>
              resp == Some(ErrorResponse(500, MembershipCheckError)) && db.roomPlayers == old(db.roomPlayers)
    ensures Present(roomId) && Present(userId) && !membershipCheckFailed
            && PlayerKey(roomId.value, userId.value) in old(db.roomPlayers) ==>
              resp == Some(ErrorResponse(400, AlreadyInRoom)) && db.roomPlayers == old(db.roomPlayers)
    ensures Present(roomId) && Present(userId) && !membershipCheckFailed
            && PlayerKey(roomId.value, userId.value) !in old(db.roomPlayers) && colorFetchFailed ==>
              resp == Some(ErrorResponse(500, ColorFetchError)) && db.roomPlayers == old(db.roomPlayers)
    ensures MayJoin(old(db.roomPlayers), roomId, userId, membershipCheckFailed, colorFetchFailed)
            && (forall c :: c in Palette ==> c !in UsedColors(old(db.roomPlayers), roomId.value)) ==>
              resp.None? && db.roomPlayers == old(db.roomPlayers)
    ensures MayJoin(old(db.roomPlayers), roomId, userId, membershipCheckFailed, colorFetchFailed)
            && resp.Some? && insertFailed ==>
              resp == Some(ErrorResponse(500, InsertError)) && db.roomPlayers == old(db.roomPlayers)
    ensures MayJoin(old(db.roomPlayers), roomId, userId, membershipCheckFailed, colorFetchFailed)
            && resp.Some? && !insertFailed ==>
              resp == Some(Response(200, StatusBody(200)))
              && Inserted(old(db.roomPlayers), db.roomPlayers, roomId.value, userId.value)
              && db.roomPlayers[PlayerKey(roomId.value, userId.value)].color in UsedColors(old(db.roomPlayers), roomId.value)
    ensures resp.None? ==> db.roomPlayers == old(db.roomPlayers)
  {
    if !Present(roomId) || !Present(userId) {
      return Some(ErrorResponse(500, MissingParams));
    }
    var room, user := roomId.value, userId.value;
    if membershipCheckFailed {
      return Some(ErrorResponse(500, MembershipCheckError));
    }
    if PlayerKey(room, user) in db.roomPlayers {
      return Some(ErrorResponse(400, AlreadyInRoom));
    }
    if colorFetchFailed {
      return Some(ErrorResponse(500, ColorFetchError));
    }
    var usedColors := UsedColors(db.roomPlayers, room);
    var exited, color := PickColorAsWritten(usedColors, fuel);
    if !exited {
      return None;
    }
    if insertFailed {
      return Some(ErrorResponse(500, InsertError));
    }
    db.roomPlayers := db.roomPlayers[PlayerKey(room, user) := PlayerRow(color, None)];
    resp := Some(Response(200, StatusBody(200)));
  }

  /** Lines 9-78 with the colour loop corrected as in `PickColor`: the same guards,
      no answer when every palette colour is in use, and otherwise an insert with a
      palette colour no player of the room has. */
  method JoinCorrected(db: Tables, roomId: Option<string>, userId: Option<string>,
              membershipCheckFailed: bool, colorFetchFailed: bool, insertFailed: bool, fuel: nat)
      returns (resp: Option<Response>)
    modifies db
    ensures db.rooms == old(db.rooms)
    ensures !Present(roomId) || !Present(userId) ==>
              resp == Some(ErrorResponse(500, MissingParams)) && db.roomPlayers == old(db.roomPlayers)
    ensures Present(roomId) && Present(userId) && membershipCheckFailed ==>
              resp == Some(ErrorResponse(500, MembershipCheckError)) && db.roomPlayers == old(db.roomPlayers)
    ensures Present(roomId) && Present(userId) && !membershipCheckFailed
            && PlayerKey(roomId.value, userId.value) in old(db.roomPlayers) ==>
              resp == Some(ErrorResponse(400, AlreadyInRoom)) && db.roomPlayers == old(db.roomPlayers)
    ensures Present(roomId) && Present(userId) && !membershipCheckFailed
            && PlayerKey(roomId.value, userId.value) !in old(db.roomPlayers) && colorFetchFailed ==>
              resp == Some(ErrorResponse(500, ColorFetchError)) && db.roomPlayers == old(db.roomPlayers)
    ensures MayJoin(old(db.roomPlayers), roomId, userId, membershipCheckFailed, colorFetchFailed)
            && (forall c :: c in Palette ==> c in UsedColors(old(db.roomPlayers), roomId.value)) ==>
              resp.None? && db.roomPlayers == old(db.roomPlayers)
    ensures MayJoin(old(db.roomPlayers), roomId, userId, membershipCheckFailed, colorFetchFailed)
            && resp.Some? && insertFailed ==>
              resp == Some(ErrorResponse(500, InsertError)) && db.roomPlayers == old(db.roomPlayers)
    ensures MayJoin(old(db.roomPlayers), roomId, userId, membershipCheckFailed, colorFetchFailed)
            && resp.Some? && !insertFailed ==>
              resp == Some(Response(200, StatusBody(200)))
              && Inserted(old(db.roomPlayers), db.roomPlayers, roomId.value, userId.value)
              && db.roomPlayers[PlayerKey(roomId.value, userId.value)].color !in UsedColors(old(db.roomPlayers), roomId.value)
    ensures resp.None? ==> db.roomPlayers == old(db.roomPlayers)
  {
    if !Present(roomId) || !Present(userId) {
      return Some(ErrorResponse(500, MissingParams));
    }
    var room, user := roomId.value, userId.value;
    if membershipCheckFailed {
      return Some(ErrorResponse(500, MembershipCheckError));
    }
    if PlayerKey(room, user) in db.roomPlayers {
      return Some(ErrorResponse(400, AlreadyInRoom));
    }
    if colorFetchFailed {
      return Some(ErrorResponse(500, ColorFetchError));
    }
    var usedColors := UsedColors(db.roomPlayers, room);
    var exited, color := PickColor(usedColors, fuel);
    if !exited {
      return None;
    }
    if insertFailed {
      return Some(ErrorResponse(500, InsertError));
    }
    db.roomPlayers := db.roomPlayers[PlayerKey(room, user) := PlayerRow(color, None)];
    resp := Some(Response(200, StatusBody(200)));
  }
}
