/** The game-start route (`POST /api/rooms/attribute_counties`): the host hands out
    the initial counties, which are written to each player's row and, as the room's
    ownership payload, to the room, whose status becomes `active`.

    The backend's answers that cannot be derived from the tables (the session
    lookup, whether a query failed) are parameters: `caller` is the authenticated
    user id (`None` when there is no session or the lookup failed), and the
    `...Failed` flags say which queries returned an error. */
module AttributeCounties {
  import opened Wrappers
  import opened MapState
  import opened Store

  /** One element of the request's `assignments`. */
  datatype Assignment = Assignment(userId: string, counties: seq<string>)

  const GameActive: string := "active"

  /** Line 44: the ownership payload written to the room, one record per assignment
      in the same order. */
  function ProjectMapState(assignments: seq<Assignment>): (payload: seq<MapStateUser>)
    ensures |payload| == |assignments|
    ensures forall i :: 0 <= i < |payload| ==>
              payload[i].userId == assignments[i].userId && payload[i].counties == assignments[i].counties
  {
    seq(|assignments|, i requires 0 <= i < |assignments| => MapStateUser(assignments[i].userId, assignments[i].counties))
  }

  /** Lines 30-37, one update after the other: each assignment whose update did not
      fail writes its counties into the row of `(roomId, userId)`, if there is one. */
  function ApplyCountyUpdates(rows: map<PlayerKey, PlayerRow>, roomId: string,
                              assignments: seq<Assignment>, failed: seq<bool>): map<PlayerKey, PlayerRow>
    requires |failed| == |assignments|
  {
    if |assignments| == 0 then rows
    else
      var n := |assignments| - 1;
      var prev := ApplyCountyUpdates(rows, roomId, assignments[..n], failed[..n]);
      var key := PlayerKey(roomId, assignments[n].userId);
      if !failed[n] && key in prev then prev[key := prev[key].(counties := Some(assignments[n].counties))]
      else prev
  }

  /** Assignment `i` is the last one for `userId` whose update succeeded. */
  ghost predicate LastWrite(assignments: seq<Assignment>, failed: seq<bool>, userId: string, i: int)
    requires |failed| == |assignments|
  {
    0 <= i < |assignments| && assignments[i].userId == userId && !failed[i]
    && forall j :: i < j < |assignments| ==> assignments[j].userId != userId || failed[j]
  }

  /** No update of `userId`'s row succeeded. */
  ghost predicate NeverWritten(assignments: seq<Assignment>, failed: seq<bool>, userId: string)
    requires |failed| == |assignments|
  {
    forall j :: 0 <= j < |assignments| ==> assignments[j].userId != userId || failed[j]
  }

  /** The updates never add or remove a row, and never change a player's colour. */
  lemma {:induction false} UpdatesKeepRows(rows: map<PlayerKey, PlayerRow>, roomId: string,
                                           assignments: seq<Assignment>, failed: seq<bool>)
    requires |failed| == |assignments|
    ensures ApplyCountyUpdates(rows, roomId, assignments, failed).Keys == rows.Keys
    ensures forall key :: key in rows ==> ApplyCountyUpdates(rows, roomId, assignments, failed)[key].color == rows[key].color
  {
    if |assignments| > 0 {
      var n := |assignments| - 1;
      UpdatesKeepRows(rows, roomId, assignments[..n], failed[..n]);
    }
  }

  /** A row of another room, or of a player none of whose updates succeeded, is left
      as it was. */
  lemma {:induction false} UpdatesFrame(rows: map<PlayerKey, PlayerRow>, roomId: string,
                                        assignments: seq<Assignment>, failed: seq<bool>, key: PlayerKey)
    requires |failed| == |assignments|
    requires key in rows
    requires key.roomId != roomId || NeverWritten(assignments, failed, key.userId)
    ensures key in ApplyCountyUpdates(rows, roomId, assignments, failed)
    ensures ApplyCountyUpdates(rows, roomId, assignments, failed)[key] == rows[key]
  {
    if |assignments| > 0 {
      var n := |assignments| - 1;
      assert key.roomId != roomId || NeverWritten(assignments[..n], failed[..n], key.userId);
      UpdatesFrame(rows, roomId, assignments[..n], failed[..n], key);
    }
  }

  /** The row of `(roomId, userId)` ends up with the counties of the last assignment
      for `userId` whose update succeeded; its colour is kept. */
  lemma {:induction false} UpdatesLastWriter(rows: map<PlayerKey, PlayerRow>, roomId: string,
                                             assignments: seq<Assignment>, failed: seq<bool>, userId: string, i: int)
    requires |failed| == |assignments|
    requires PlayerKey(roomId, userId) in rows
    requires LastWrite(assignments, failed, userId, i)
    ensures PlayerKey(roomId, userId) in ApplyCountyUpdates(rows, roomId, assignments, failed)
    ensures ApplyCountyUpdates(rows, roomId, assignments, failed)[PlayerKey(roomId, userId)]
            == PlayerRow(rows[PlayerKey(roomId, userId)].color, Some(assignments[i].counties))
  {
    var n := |assignments| - 1;
    UpdatesKeepRows(rows, roomId, assignments[..n], failed[..n]);
    if i < n {
      assert LastWrite(assignments[..n], failed[..n], userId, i);
      UpdatesLastWriter(rows, roomId, assignments[..n], failed[..n], userId, i);
    }
  }

  /** Once the game is started, the read-model every client derives from the room's
      new payload gives each assigned county to the last assignment listing it, and
      no owner to any other county. */
  lemma StartedGameOwners(assignments: seq<Assignment>, roster: seq<RosterEntry>, county: string)
    ensures county in OwnerTable(ProjectMapState(assignments), roster) <==>
            exists i :: 0 <= i < |assignments| && county in assignments[i].counties
    ensures forall i :: 0 <= i < |assignments| && county in assignments[i].counties
                        && (forall j :: i < j < |assignments| ==> county !in assignments[j].counties) ==>
                        county in OwnerTable(ProjectMapState(assignments), roster)
                        && OwnerTable(ProjectMapState(assignments), roster)[county].userId == assignments[i].userId
  {
    var payload := ProjectMapState(assignments);
    OwnerTableDomain(payload, roster, county);
    forall i | 0 <= i < |assignments| && county in assignments[i].counties
                && (forall j :: i < j < |assignments| ==> county !in assignments[j].counties)
      ensures county in OwnerTable(payload, roster) && OwnerTable(payload, roster)[county].userId == assignments[i].userId
    {
      assert LastListing(payload, county, i);
      OwnerTableLastWriter(payload, roster, county, i);
    }
    if exists i :: 0 <= i < |assignments| && county in assignments[i].counties {
      var i :| 0 <= i < |assignments| && county in assignments[i].counties;
      assert county in payload[i].counties;
    }
  }

  /** The checks of lines 8-28 pass: a caller is signed in, the room was fetched,
      exists, is hosted by the caller and is not yet active. */
  predicate MayStart(rooms: map<string, Room>, roomId: string, caller: Option<string>, roomFetchFailed: bool)
  {
    caller.Some? && !roomFetchFailed && roomId in rooms
    && rooms[roomId].hostId == caller.value && rooms[roomId].status != GameActive
  }

  /** Lines 4-54: the start-game handler. The guards answer 401, 500, 403 and 400 in
      that order and write nothing; otherwise the player rows are updated, any failed
      update answers 500 without touching the room, and only then are `map_state` and
      `status = 'active'` written together. */
  method StartGame(db: Tables, roomId: string, assignments: seq<Assignment>,
                   caller: Option<string>, roomFetchFailed: bool,
                   updateFailed: seq<bool>, roomUpdateFailed: bool) returns (resp: Response)
    requires |updateFailed| == |assignments|
    modifies db
    ensures caller.None? ==>
              resp == ErrorResponse(401, "not authenticated")
              && db.rooms == old(db.rooms) && db.roomPlayers == old(db.roomPlayers)
    ensures caller.Some? && roomFetchFailed ==>
              resp == ErrorResponse(500, "failed to fetch room status")
              && db.rooms == old(db.rooms) && db.roomPlayers == old(db.roomPlayers)
    ensures caller.Some? && !roomFetchFailed
            && (roomId !in old(db.rooms) || old(db.rooms)[roomId].hostId != caller.value) ==>
              resp == ErrorResponse(403, "only the host can start the game")
              && db.rooms == old(db.rooms) && db.roomPlayers == old(db.roomPlayers)
    ensures caller.Some? && !roomFetchFailed && roomId in old(db.rooms)
            && old(db.rooms)[roomId].hostId == caller.value && old(db.rooms)[roomId].status == GameActive ==>
              resp == ErrorResponse(400, "game already started")
              && db.rooms == old(db.rooms) && db.roomPlayers == old(db.roomPlayers)
    ensures MayStart(old(db.rooms), roomId, caller, roomFetchFailed) ==>
              db.roomPlayers == ApplyCountyUpdates(old(db.roomPlayers), roomId, assignments, updateFailed)
    ensures MayStart(old(db.rooms), roomId, caller, roomFetchFailed) && true in updateFailed ==>
              resp == ErrorResponse(500, "failed to update some players") && db.rooms == old(db.rooms)
    ensures MayStart(old(db.rooms), roomId, caller, roomFetchFailed) && true !in updateFailed && roomUpdateFailed ==>
              resp == ErrorResponse(500, "failed to update map_state") && db.rooms == old(db.rooms)
    ensures MayStart(old(db.rooms), roomId, caller, roomFetchFailed) && true !in updateFailed && !roomUpdateFailed ==>
              resp == Response(200, SuccessBody)
              && db.rooms == old(db.rooms)[roomId := old(db.rooms)[roomId].(mapState := Some(ProjectMapState(assignments)),
                                                                            status := GameActive)]
  {
    if caller.None? {
      return ErrorResponse(401, "not authenticated");
    }
    var userId := caller.value;
    if roomFetchFailed {
      return ErrorResponse(500, "failed to fetch room status");
    }
    if roomId !in db.rooms || db.rooms[roomId].hostId != userId {
      return ErrorResponse(403, "only the host can start the game");
    }
    var roomData := db.rooms[roomId];
    if roomData.status == GameActive {
      return ErrorResponse(400, "game already started");
    }

    var hasError := false;
    var i := 0;
    while i < |assignments|
      invariant 0 <= i <= |assignments|
      invariant db.roomPlayers == ApplyCountyUpdates(old(db.roomPlayers), roomId, assignments[..i], updateFailed[..i])
      invariant db.rooms == old(db.rooms)
      invariant hasError <==> true in updateFailed[..i]
    {
      assert assignments[..i + 1][..i] == assignments[..i];
      assert updateFailed[..i + 1][..i] == updateFailed[..i];
      assert updateFailed[..i + 1] == updateFailed[..i] + [updateFailed[i]];
      var key := PlayerKey(roomId, assignments[i].userId);
      if !updateFailed[i] && key in db.roomPlayers {
        db.roomPlayers := db.roomPlayers[key := db.roomPlayers[key].(counties := Some(assignments[i].counties))];
      }
      hasError := hasError || updateFailed[i];
      i := i + 1;
    }
    assert assignments[..i] == assignments && updateFailed[..i] == updateFailed;
    if hasError {
      return ErrorResponse(500, "failed to update some players");
    }

    var mapState := ProjectMapState(assignments);
    if roomUpdateFailed {
      return ErrorResponse(500, "failed to update map_state");
    }
    db.rooms := db.rooms[roomId := roomData.(mapState := Some(mapState), status := GameActive)];
    resp := Response(200, SuccessBody);
  }
}
