/** The client-side ownership read-model of a room (the `useMapState` hook).

    The room's `map_state` column is an ordered payload of `(user_id, counties)`
    records; together with the roster of `(user_id, color)` rows it is turned
    into two tables: county -> (owner id, owner colour) and user -> colour.
    Both tables are rebuilt from scratch on every fetch or pushed update. */
module MapState {
  import opened Wrappers
  import Seqs

  /** One record of the ownership payload. */
  datatype MapStateUser = MapStateUser(userId: string, counties: seq<string>)

  /** One entry of the county -> owner table. */
  datatype CountyOwner = CountyOwner(userId: string, color: string)

  /** One `room_players` row as fetched by the hook: `user_id, color`. */
  datatype RosterEntry = RosterEntry(userId: string, color: string)

  /** Colour of an owner that has no (or an empty) roster colour. */
  const UnknownColor: string := "#808080"

  const RoomIdRequired: string := "room id is required"

  /** `players.find(p => p.user_id === uid)?.color || "#808080"`: the colour of the
      FIRST roster entry with that id, unless there is none or its colour is the
      empty string (which is falsy). */
  function PlayerColor(players: seq<RosterEntry>, uid: string): (c: string)
    ensures (forall k :: 0 <= k < |players| ==> players[k].userId != uid) ==> c == UnknownColor
    ensures forall k :: 0 <= k < |players| && players[k].userId == uid
                        && (forall j :: 0 <= j < k ==> players[j].userId != uid) ==>
                        c == (if players[k].color != "" then players[k].color else UnknownColor)
    ensures c == UnknownColor || exists k :: 0 <= k < |players| && players[k].userId == uid && players[k].color == c
  {
    match Seqs.FirstMatch(players, (p: RosterEntry) => p.userId == uid)
    case None => UnknownColor
    case Some(k) => if players[k].color != "" then players[k].color else UnknownColor
  }

  /** The user -> colour table built by the first `forEach`: every roster entry in
      order overwrites the entry for its id. */
  function ColorTable(players: seq<RosterEntry>): map<string, string>
  {
    if |players| == 0 then map[]
    else ColorTable(players[..|players| - 1])[players[|players| - 1].userId := players[|players| - 1].color]
  }

  /** Every county of `counties` is (re)assigned to `owner`. */
  function Claim(owners: map<string, CountyOwner>, counties: seq<string>, owner: CountyOwner): map<string, CountyOwner>
  {
    owners + map c | c in counties :: owner
  }

  /** The owner entry that a payload record writes for each of its counties. */
  function OwnerOf(record: MapStateUser, players: seq<RosterEntry>): CountyOwner
  {
    CountyOwner(record.userId, PlayerColor(players, record.userId))
  }

  /** The county -> owner table built by the nested `forEach`: payload records in
      order, each claiming all of its counties. */
  function OwnerTable(payload: seq<MapStateUser>, players: seq<RosterEntry>): map<string, CountyOwner>
  {
    if |payload| == 0 then map[]
    else
      var last := payload[|payload| - 1];
      Claim(OwnerTable(payload[..|payload| - 1], players), last.counties, OwnerOf(last, players))
  }

  /** Some record of the payload lists `county`. */
  ghost predicate Listed(payload: seq<MapStateUser>, county: string)
  {
    exists i :: 0 <= i < |payload| && county in payload[i].counties
  }

  /** Record `i` is the last record of the payload that lists `county`. */
  ghost predicate LastListing(payload: seq<MapStateUser>, county: string, i: int)
  {
    0 <= i < |payload| && county in payload[i].counties
    && forall j :: i < j < |payload| ==> county !in payload[j].counties
  }

  /** Exactly the counties listed somewhere in the payload have an owner; a county
      listed nowhere has none, because the table starts empty. */
  lemma {:induction false} OwnerTableDomain(payload: seq<MapStateUser>, players: seq<RosterEntry>, county: string)
    ensures county in OwnerTable(payload, players) <==> Listed(payload, county)
  {
    if |payload| > 0 {
      var prefix := payload[..|payload| - 1];
      OwnerTableDomain(prefix, players, county);
      if Listed(payload, county) && county !in payload[|payload| - 1].counties {
        var i :| 0 <= i < |payload| && county in payload[i].counties;
        assert county in prefix[i].counties;
      }
      if Listed(prefix, county) {
        var i :| 0 <= i < |prefix| && county in prefix[i].counties;
        assert county in payload[i].counties;
      }
    }
  }

  /** Last writer wins: the owner of a county is the last record listing it, with
      that record's user id and the colour `PlayerColor` gives it. */
  lemma {:induction false} OwnerTableLastWriter(payload: seq<MapStateUser>, players: seq<RosterEntry>, county: string, i: int)
    requires LastListing(payload, county, i)
    ensures county in OwnerTable(payload, players)
    ensures OwnerTable(payload, players)[county] == CountyOwner(payload[i].userId, PlayerColor(players, payload[i].userId))
  {
    var n := |payload|;
    if i < n - 1 {
      var prefix := payload[..n - 1];
      assert LastListing(prefix, county, i);
      OwnerTableLastWriter(prefix, players, county, i);
    }
  }

  /** No county is listed by two records: the ownership payload's invariant. */
  ghost predicate Disjoint(payload: seq<MapStateUser>)
  {
    forall a, b :: 0 <= a < b < |payload| ==> forall c :: c in payload[a].counties ==> c !in payload[b].counties
  }

  /** In a disjoint payload the owner of a listed county is the one record that
      lists it. */
  lemma DisjointPayloadOwner(payload: seq<MapStateUser>, players: seq<RosterEntry>, county: string, i: int)
    requires Disjoint(payload)
    requires 0 <= i < |payload| && county in payload[i].counties
    ensures county in OwnerTable(payload, players)
    ensures OwnerTable(payload, players)[county].userId == payload[i].userId
  {
    assert LastListing(payload, county, i);
    OwnerTableLastWriter(payload, players, county, i);
  }

  /** Some roster entry has id `uid`. */
  ghost predicate OnRoster(players: seq<RosterEntry>, uid: string)
  {
    exists k :: 0 <= k < |players| && players[k].userId == uid
  }

  /** Entry `k` is the last roster entry with its id. */
  ghost predicate LastOnRoster(players: seq<RosterEntry>, k: int)
  {
    0 <= k < |players| && forall j :: k < j < |players| ==> players[j].userId != players[k].userId
  }

  /** The user -> colour table has exactly the roster's ids as keys. */
  lemma {:induction false} ColorTableDomain(players: seq<RosterEntry>, uid: string)
    ensures uid in ColorTable(players) <==> OnRoster(players, uid)
  {
    var n := |players|;
    if n > 0 {
      var prefix := players[..n - 1];
      ColorTableDomain(prefix, uid);
      if uid != players[n - 1].userId && OnRoster(players, uid) {
        var k :| 0 <= k < n && players[k].userId == uid;
        assert prefix[k].userId == uid;
      }
      if OnRoster(prefix, uid) {
        var k :| 0 <= k < n - 1 && prefix[k].userId == uid;
        assert players[k].userId == uid;
      }
    }
  }

  /** For an id listed more than once, the last roster entry's colour wins. */
  lemma {:induction false} ColorTableLastWins(players: seq<RosterEntry>, k: int)
    requires LastOnRoster(players, k)
    ensures players[k].userId in ColorTable(players)
    ensures ColorTable(players)[players[k].userId] == players[k].color
  {
    var n := |players|;
    if k < n - 1 {
      var prefix := players[..n - 1];
      assert LastOnRoster(prefix, k);
      ColorTableLastWins(prefix, k);
    }
  }

  /** Lines 60-78: fill the two tables with the source's loops. */
  method DeriveTables(payload: seq<MapStateUser>, players: seq<RosterEntry>)
      returns (owners: map<string, CountyOwner>, colors: map<string, string>)
    ensures owners == OwnerTable(payload, players)
    ensures colors == ColorTable(players)
  {
    owners := map[];
    colors := map[];
    var p := 0;
    while p < |players|
      invariant 0 <= p <= |players|
      invariant colors == ColorTable(players[..p])
    {
      assert players[..p + 1][..p] == players[..p];
      colors := colors[players[p].userId := players[p].color];
      p := p + 1;
    }
    assert players[..|players|] == players;
    var r := 0;
    while r < |payload|
      invariant 0 <= r <= |payload|
      invariant owners == OwnerTable(payload[..r], players)
    {
      var userState := payload[r];
      var userColor := PlayerColor(players, userState.userId);
      var before := owners;
      var c := 0;
      while c < |userState.counties|
        invariant 0 <= c <= |userState.counties|
        invariant owners == Claim(before, userState.counties[..c], CountyOwner(userState.userId, userColor))
      {
        ClaimStep(before, userState.counties, c, CountyOwner(userState.userId, userColor));
        owners := owners[userState.counties[c] := CountyOwner(userState.userId, userColor)];
        c := c + 1;
      }
      assert userState.counties[..c] == userState.counties;
      assert payload[..r + 1][..r] == payload[..r];
      r := r + 1;
    }
    assert payload[..|payload|] == payload;
  }

  /** Claiming one more county is one more map update. */
  lemma ClaimStep(owners: map<string, CountyOwner>, counties: seq<string>, c: nat, owner: CountyOwner)
    requires c < |counties|
    ensures Claim(owners, counties[..c + 1], owner) == Claim(owners, counties[..c], owner)[counties[c] := owner]
  {
    assert counties[..c + 1] == counties[..c] + [counties[c]];
  }

  /** The state cells of one mounted `useMapState(roomId)` hook. */
  class MapStateHook {
    const roomId: string
    var mapState: seq<MapStateUser>
    var countyOwners: map<string, CountyOwner>
    var playerColors: map<string, string>
    var loading: bool
    var error: Option<string>

    /** Lines 15-19: the initial `useState` values. */
    constructor (roomId: string)
      ensures this.roomId == roomId
      ensures mapState == [] && countyOwners == map[] && playerColors == map[]
      ensures loading && error == None
    {
      this.roomId := roomId;
      mapState := [];
      countyOwners := map[];
      playerColors := map[];
      loading := true;
      error := None;
    }

    /** Lines 21-28: the effect's guard. An empty room id records the error, stops
        loading and starts no fetch or subscription. */
    method Mount() returns (fetchStarted: bool)
      modifies this
      ensures fetchStarted <==> roomId != ""
      ensures roomId == "" ==> error == Some(RoomIdRequired) && !loading
      ensures roomId != "" ==> error == old(error) && loading == old(loading)
      ensures mapState == old(mapState) && countyOwners == old(countyOwners) && playerColors == old(playerColors)
    {
      if roomId == "" {
        error := Some(RoomIdRequired);
        loading := false;
        fetchStarted := false;
        return;
      }
      fetchStarted := true;
    }

    /** Lines 56-83: rebuild both tables from scratch and store the payload. The new
        state depends on the arguments only, never on the previous tables, so
        processing the same payload and roster again leaves the state as it is. */
    method ProcessMapData(payload: seq<MapStateUser>, players: seq<RosterEntry>)
      modifies this
      ensures mapState == payload
      ensures countyOwners == OwnerTable(payload, players)
      ensures playerColors == ColorTable(players)
      ensures loading == old(loading) && error == old(error)
    {
      var owners, colors := DeriveTables(payload, players);
      mapState := payload;
      countyOwners := owners;
      playerColors := colors;
    }

    /** Lines 30-54: the initial fetch has completed. `room` carries the room's
        `map_state` column (`None` when it is null), `roster` the roster rows
        (`None` when the data is null). A fetch error is recorded and ends loading;
        otherwise a null `map_state` or roster counts as empty. */
    method InitialDataArrived(room: Result<Option<seq<MapStateUser>>, string>,
                              roster: Result<Option<seq<RosterEntry>>, string>)
      modifies this
      ensures !loading
      ensures room.Failure? ==> error == Some(room.error)
      ensures room.Success? && roster.Failure? ==> error == Some(roster.error)
      ensures (room.Failure? || roster.Failure?) ==>
                mapState == old(mapState) && countyOwners == old(countyOwners) && playerColors == old(playerColors)
      ensures room.Success? && roster.Success? ==>
                var payload := if room.value.Some? then room.value.value else [];
                var players := if roster.value.Some? then roster.value.value else [];
                error == old(error) && mapState == payload
                && countyOwners == OwnerTable(payload, players) && playerColors == ColorTable(players)
      ensures room == Success(None) && roster.Success? ==> countyOwners == map[]
    {
      if room.Failure? {
        error := Some(room.error);
        loading := false;
        return;
      }
      if roster.Failure? {
        error := Some(roster.error);
        loading := false;
        return;
      }
      var payload := if room.value.Some? then room.value.value else [];
      var players := if roster.value.Some? then roster.value.value else [];
      ProcessMapData(payload, players);
      loading := false;
    }

    /** Lines 96-108: a pushed `rooms` UPDATE. It is processed only when it carries a
        `map_state` (an empty list counts: it is truthy) and the roster re-fetch
        returned data; otherwise nothing changes. */
    method RoomUpdated(newMapState: Option<seq<MapStateUser>>, roster: Option<seq<RosterEntry>>)
      modifies this
      ensures newMapState.None? || roster.None? ==>
                mapState == old(mapState) && countyOwners == old(countyOwners) && playerColors == old(playerColors)
      ensures newMapState.Some? && roster.Some? ==>
                mapState == newMapState.value
                && countyOwners == OwnerTable(newMapState.value, roster.value)
                && playerColors == ColorTable(roster.value)
      ensures loading == old(loading) && error == old(error)
    {
      if newMapState.Some? && roster.Some? {
        ProcessMapData(newMapState.value, roster.value);
      }
    }

    /** Lines 123-141: a `room_players` change. The room is re-fetched (`room` is
        `None` when no row came back, `Some(None)` when its `map_state` is null) and
        then the roster; a null `map_state` counts as an empty payload. */
    method PlayersChanged(room: Option<Option<seq<MapStateUser>>>, roster: Option<seq<RosterEntry>>)
      modifies this
      ensures room.None? || roster.None? ==>
                mapState == old(mapState) && countyOwners == old(countyOwners) && playerColors == old(playerColors)
      ensures room.Some? && roster.Some? ==>
                var payload := if room.value.Some? then room.value.value else [];
                mapState == payload
                && countyOwners == OwnerTable(payload, roster.value)
                && playerColors == ColorTable(roster.value)
      ensures room == Some(None) && roster.Some? ==> countyOwners == map[]
      ensures loading == old(loading) && error == old(error)
    {
      if room.Some? && roster.Some? {
        var payload := if room.value.Some? then room.value.value else [];
        ProcessMapData(payload, roster.value);
      }
    }
  }
}
