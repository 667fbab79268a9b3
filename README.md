# Triviador room core, modelled in Dafny

Triviador is a multiplayer trivia and territory game. Players join a room and
the host starts the game by handing out the counties of Romania. Each client
then derives who owns which county from the room's ownership payload and
colours the map to match. Questions are drawn at random from a fixed bank.
This project models that core and proves its properties:

- `map_state.dfy`: the client-side ownership read-model (the `useMapState`
  hook). The hook turns the room's `map_state` payload of
  `(user_id, counties)` records and the `(user_id, color)` roster into two
  tables: county -> owner and user -> colour. It does this once on the first
  fetch and again on every pushed update.
- `questions.dfy`: the literal question bank and the random draw. The draw
  filters by category and falls back to the whole bank when the category is
  too small. It then runs a Fisher-Yates shuffle and takes a prefix.
- `store.dfy`: the backend's `rooms` and `room_players` tables, reduced to
  the columns the routes touch, and the JSON responses.
- `attribute_counties.dfy`: the start-game route. It checks sign-in,
  host-only and not-yet-active, in that order. It then writes each player's
  counties, and finally writes the room's payload and `active` status together.
- `join_room.dfy`: the join route. It checks the parameters and membership,
  then runs the palette colour loop and inserts the new player's row.
- `county_map.dfy`: the map component's county fill rule and its
  tooltip/hover state.
- `wrappers.dfy`, `seqs.dfy`: `Option`/`Result`, and `FirstMatch`, which is
  `Array.prototype.find` returning an index.

Some behaviour of the backend cannot be derived from the tables: the signed-in
user, whether a query returned an error, and pushed realtime events. It is
passed in as method parameters. `Math.random()` becomes a nondeterministic
choice of an index in the range `Math.floor(Math.random() * n)` can produce.
JavaScript truthiness is written out where the code relies on it:

- `""` and `null` are falsy.
- An empty array is truthy.
- `slice(0, count)` with a negative `count` counts back from the end.

Two behaviours of the code are worth stating up front:

- The join route draws colours at random, and its colour loop is inverted
  (see Findings): it keeps a colour only when some player of the room already
  has it. `Join` models the route as written; `JoinCorrected` is the same
  handler with the loop the code evidently intends.
- The start-game route does not check that no county is listed by two
  assignments; it writes the assignments it is sent. The read-model then lets
  the last record listing a county win (`OwnerTableLastWriter`), and
  `DisjointPayloadOwner` shows the case where no county is listed twice.

## Model

| member | source | states |
|---|---|---|
| MapState.PlayerColor | utils/hooks/useMapState.ts:68-70 | An owner's colour is the colour of the FIRST roster entry with the same id. It is `#808080` when no entry has that id or that entry's colour is empty. Otherwise it is some matching entry's colour. |
| MapState.OwnerTableDomain | utils/hooks/useMapState.ts:60-78 | A county has an owner entry if and only if some payload record lists it. A county listed nowhere has none, because the table starts empty. |
| MapState.OwnerTableLastWriter | utils/hooks/useMapState.ts:67-78 | The owner entry of a county carries the user id of the LAST record listing it, with that user's `PlayerColor`. |
| MapState.DisjointPayloadOwner | utils/hooks/useMapState.ts:67-78 | When no county is listed twice, a listed county's owner is the one record that lists it. |
| MapState.ColorTableDomain | utils/hooks/useMapState.ts:61-65 | The user -> colour table has exactly the roster's user ids as keys. |
| MapState.ColorTableLastWins | utils/hooks/useMapState.ts:63-65 | For an id listed more than once on the roster, the last entry's colour wins. |
| MapState.DeriveTables | utils/hooks/useMapState.ts:56-78 | The source's nested loops compute exactly `OwnerTable` and `ColorTable`, the tables the lemmas above describe. |
| MapState.MapStateHook.constructor | utils/hooks/useMapState.ts:15-19 | The hook starts with an empty payload, empty tables, loading on and no error. |
| MapState.MapStateHook.Mount | utils/hooks/useMapState.ts:21-28 | An empty room id sets the error "room id is required", turns loading off and starts no fetch; the tables are untouched. A non-empty id starts the fetch and changes nothing. |
| MapState.MapStateHook.ProcessMapData | utils/hooks/useMapState.ts:56-83 | Both tables and the payload are rebuilt from the arguments alone, never from the previous state. The same payload and roster therefore always give the same state, so applying them twice equals applying them once. |
| MapState.MapStateHook.InitialDataArrived | utils/hooks/useMapState.ts:30-54 | A room or roster fetch error is recorded as the error, leaving the tables unchanged. Otherwise a null `map_state` or roster counts as empty, so a null `map_state` gives no county owners. Loading ends in every case. |
| MapState.MapStateHook.RoomUpdated | utils/hooks/useMapState.ts:96-108 | A pushed room update changes nothing unless it carries a `map_state` and the roster re-fetch returned data. If both are present, the tables are rebuilt from them. |
| MapState.MapStateHook.PlayersChanged | utils/hooks/useMapState.ts:123-141 | A roster change rebuilds the tables only when both the room and the roster re-fetch return data. A null `map_state` counts as empty and gives no owners. |
| Questions.BankWellFormed | utils/questions.ts:8-265 | The bank holds 38 questions. Each has four options, a correct answer that is one of them, and a category. |
| Questions.FilterCategorySpec | utils/questions.ts:268-270 | The category filter keeps every question of that category and nothing else, each from its own position of the bank. |
| Questions.SelectPool | utils/questions.ts:268-274 | With no (or an empty) category the pool is the whole bank. With a category of fewer than `count` questions the pool falls back to the whole bank. Otherwise it has at least `count` questions, all of that category. |
| Questions.ShuffleArray | utils/questions.ts:279-286 | The shuffle works on a copy. Every swap index is in `[0, i]`. The result is a permutation of the input: same length, same multiset. |
| Questions.DrawQuestions | utils/questions.ts:267-277 | Over any bank, the draw has the length of `slice(0, count)` of the pool, which is `min(count, pool size)` for a non-negative count. Its questions come from distinct positions of the pool. When the bank holds at least `count` questions of the category, all have that category. |
| Questions.DrawnMembers | utils/questions.ts:267-277 | Every drawn question is a question of the bank. |
| Questions.GetRandomQuestions | utils/questions.ts:267-277 | `getRandomQuestions` over the literal bank, 5 questions by default. The result has the length of `slice(0, count)` of the pool and takes its questions from distinct positions of the pool. When the bank holds at least `count` questions of the category, all have that category. |
| Questions.DrawQuestion | utils/questions.ts:288-291 | Over any non-empty bank a question is always returned. It is a question of the bank, and it has the requested category whenever the bank holds one. |
| Questions.BankSize | utils/questions.ts:257-265 | The concatenated bank holds 38 questions, so it is not empty. |
| Questions.GetRandomQuestion | utils/questions.ts:288-291 | A question of the bank is always returned, because the bank is not empty. It has the requested category whenever the bank holds one. |
| AttributeCounties.ProjectMapState | app/api/rooms/attribute_counties/route.ts:44 | The payload written to the room has one `(user_id, counties)` record per assignment, in the same order. |
| AttributeCounties.UpdatesKeepRows | app/api/rooms/attribute_counties/route.ts:30-37 | The per-player updates never add or remove a `room_players` row and never change a colour. |
| AttributeCounties.UpdatesFrame | app/api/rooms/attribute_counties/route.ts:30-37 | A row of another room, or of a player none of whose updates succeeded, is left as it was. |
| AttributeCounties.UpdatesLastWriter | app/api/rooms/attribute_counties/route.ts:30-37 | The row matching the room id and user id gets the counties of the last successful assignment for that user. |
| AttributeCounties.StartedGameOwners | app/api/rooms/attribute_counties/route.ts:44-48 | Every client's read-model of the new payload gives each assigned county to the last assignment listing it. Any other county gets no owner. |
| AttributeCounties.StartGame | app/api/rooms/attribute_counties/route.ts:4-54 | The responses come in this order, and none of them writes anything. 401 comes first, before any read. 500 means the room fetch failed. 403 means the room is missing or the caller is not its host. 400 means the game is already active, so it cannot be started twice. Otherwise the player rows are updated. Any failed update gives 500 and leaves the room unwritten. A failed room update gives 500. Success writes `map_state` and `status = 'active'` together and answers `{ success: true }`. |
| JoinRoom.GetRandomColor | app/api/rooms/join/route.ts:4-7 | The colour is always one of the ten palette names. |
| JoinRoom.PickColorAsWritten | app/api/rooms/join/route.ts:54-59 | As written, the loop is left exactly when the drawn colour is already in use. When no palette colour is in use, as in an empty room, it is never left. |
| JoinRoom.PickColor | app/api/rooms/join/route.ts:54-59 | Corrected loop: when it is left, the colour is a palette colour no player of the room has. When every palette colour is taken it is never left. |
| JoinRoom.Join | app/api/rooms/join/route.ts:9-78 | The handler as written. A missing or empty parameter gives 500 before any store access. A failed membership check gives 500. An existing member gets 400 "user is already in the room". A failed colour fetch gives 500. None of these writes anything. When no palette colour is in use in the room, as in an empty room, no answer is ever given. Otherwise the insert adds exactly the requested user to the requested room, with a palette colour that some player of the room already has, and answers `{ status: 200 }`. A failed insert gives 500 and writes nothing. The rooms table is never written. |
| JoinRoom.JoinCorrected | app/api/rooms/join/route.ts:9-78 | The handler with the corrected colour loop. The guards are the same as in `Join`. When every palette colour is in use, no answer is ever given. Otherwise the insert adds exactly the requested user to the requested room with a palette colour no player of the room has. |
| CountyMap.CountyFill | components/Map.new.tsx:74-93 | The active county is always drawn in the hover colour `#4a6b51`, even when owned. A non-active owned county gets the colour of the first user whose id is its owner. It falls back to `#6f9c76` when there is no such user or that user has no colour. An unowned county gets `#6f9c76`. |
| CountyMap.FillIsKnownColor | components/Map.new.tsx:74-93 | Every fill is the hover colour, the default colour, or some user's colour. |
| CountyMap.MapView.constructor | components/Map.new.tsx:40-46 | The map starts with a hidden, empty tooltip at `(0, 0)` and no active county. |
| CountyMap.MapView.HandleMouseOver | components/Map.new.tsx:48-60 | Mouse-over shows the tooltip with the given name at the pointer. It sets the active county only when the target has a non-empty id. |
| CountyMap.MapView.HandleMouseOut | components/Map.new.tsx:62-65 | Mouse-out hides the tooltip, keeping its coordinates and name, and clears the active county. |
| CountyMap.MapView.HandleCountyClick | components/Map.new.tsx:67-72 | A click activates the county and requests the next question only when the `onNextQuestion` callback is present. Otherwise nothing changes. |

## Left out

- Backend queries, realtime channels, subscribing and `removeChannel`, and the async fetch chains are not modelled as I/O. Their results are arguments of the hook's methods (`InitialDataArrived`, `RoomUpdated`, `PlayersChanged`). The route handlers read the `Tables` state and take each query's error flag as a parameter.
- `.single()` reports an error in the real backend when no row matches. That library behaviour is not modelled: each query's error flag is an independent parameter. In `JoinRoom.Join` and `JoinRoom.JoinCorrected` this concerns the membership check. In `AttributeCounties.StartGame` it concerns the room fetch of lines 14-18: there a missing room really gives 500 "failed to fetch room status", while the model, with `roomFetchFailed` false, gives the 403 of line 23.
- `Promise.all` runs the start-game route's per-player updates concurrently. The model applies them one after another in array order. When two assignments name the same user, the order of their writes is really unspecified.
- A malformed request body (non-JSON, or `assignments` not an array) throws an unhandled exception in the route. This is not modelled.
- `Math.random()` and `Math.floor` are floating point. They are replaced by a nondeterministic choice of the index they can produce.
- `getRandomQuestions` takes `count` as a JavaScript number. It is modelled as an integer; fractional counts are not modelled.
- Pointer coordinates in the map component are modelled as integers.
- JoinRoom.PickColorAsWritten: the model bounds the loop by `fuel` iterations so that every method terminates. "Never left" is therefore proved for every finite number of iterations, not as divergence.
- JoinRoom.PickColor: bounded by `fuel` in the same way.
- JoinRoom.Join and JoinRoom.JoinCorrected: a request whose colour loop has not finished after `fuel` iterations is `None`, standing for a request that never gets an answer.
- Room columns other than `status`, `host_id` and `map_state`, and player columns other than `color` and `counties`, are not modelled. The `counties` of a newly inserted player is null (`None`).
- The map component's rendering, SVG path data and tooltip markup are not modelled. The `onNextQuestion` callback itself is outside the component; only whether it is called is modelled.
- Error logging (`console.error`) is not modelled.
- Turn rotation, attacker and defender selection, the battle countdown, answer checking and scoring appear in none of the modelled files. They are not part of this model.

## Findings

| source | as written | input that shows it | evidently intended | confidence | as-written member | corrected member |
|---|---|---|---|---|---|---|
| app/api/rooms/join/route.ts:57-59 | `while (!usedColors.has(randomColor))` redraws while the colour is NOT in use. The loop is left only on a colour another player of the room already has. | A room whose only player is "red": the joiner can only get "red". An empty room: no draw ever leaves the loop, so the request never answers. | Redraw while the colour IS in use, so the new player's colour differs from every existing player's. | high, not executed | JoinRoom.PickColorAsWritten | JoinRoom.PickColor |
