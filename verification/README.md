# random-game, modelled in Dafny

random-game is a tile-based multiplayer RPG. A Python websocket server
keeps the worlds and their tiles, entities and battles, and sends every
client pipe-separated text messages (`world|...`, `movedto|x|y`,
`players|...`, `entities|...`, `dialogue|...`, `battle...`). The browser
client draws the world on a canvas, moves the player on the arrow keys and
routes keys to one context at a time (map, log, menu, dialogue or battle).
There is also a tile-map editor in the browser and three early prototypes:
two browser pages and a small server.

This project models the logic of that system in Dafny and proves what the
code promises. Canvas drawing, the DOM, the websockets and the event loops
are left out.

The project has one module per source file:

- **Server.** Geometry and bounding boxes (`ServerGeometry`); tile
  coordinates (`TileCoords`); wall collision (`Collision`); the tile and
  entity registries with their JSON forms (`Registries`, `ServerTiles`,
  `Uuids`, `Entities`); the worlds and their battle lists (`ServerWorld`);
  turn-based battles and the player list (`Battle`, `ServerGame`); tile
  events (`TileEvents`); and the outbound message builders (`Messages`).
- **Current client.** Vectors and directions (`ClientGeometry`); draw lists,
  the image cache and animations (`Rendering`); tiles and entities
  (`ClientTiles`, `ClientEntities`); key bindings (`KeyBindings`); text
  wrapping, the game log, the menu and the dialogue box (`TextBoxes`,
  `Cursors`); the battle menu (`BattleMenus`); cutscenes (`Cutscenes`); and
  the session itself, meaning the message dispatcher and the per-frame
  update (`Session`).
- **Older client.** Its dispatcher, including the `updateentity` patch
  (`LegacyClient`); its widgets (`LegacyTextBoxes`); its tiles, entities,
  player and animation (`LegacyTiles`, `LegacyEntities`, `PlayerState`,
  `LegacyRender`).
- **Map editor.** The editor's grid, its world and spawn points, and its
  drawing tools (`EditorGrid`, `EditorWorld`, `EditorContext`).
- **Prototypes.** `ProtoIndex`, `ProtoPlay` and `ProtoServer`.
- **Shared building blocks.** Results and failures (`Wrappers`); JSON values
  with Python and JavaScript property access (`Json`); association lists
  standing for dicts and Maps (`AssocLists`); splitting and joining
  (`Text`); decimal numbers (`Decimal`); grid conversion (`Grids`); the
  client's JSON field readers (`ClientJson`); and the configuration constants
  (`ServerConfig`, `ClientConfig`).

How the model is built:

- Code that updates objects in place is modelled as classes whose methods
  modify their fields, and loops are modelled as loops with their
  invariants. Each such method is proved against a specification function,
  and the properties are proved about that function.
- A call that throws in the source is an `Err` result that names the
  exception (TypeError, ValueError, KeyError and so on).
- What the program takes from outside becomes a parameter:
  - randomness and clocks;
  - text measurement;
  - `parseInt`, `parseFloat` and `JSON.parse`;
  - number formatting.
- Messages sent are returned as, or appended to, a list of strings.

Where the code has a bug, the model keeps it: an `AsWritten` member models
the code as it stands and is proved to go wrong. Next to it, a corrected
member has the intended behaviour proved. The rest of the model uses the
corrected member (see "## Findings").

## Model

| member | source | states |
|---|---|---|
| Text.Split | server/main.py:79 | splitting on the separator gives at least one piece and no piece holds the separator |
| Text.JoinSplit | server/main.py:79 | joining the pieces of a split with the separator gives back the message |
| Text.SplitJoin | server/main.py:79 | splitting a join of separator-free pieces gives back the pieces |
| Text.SplitAfterPrefix | server/main.py:79 | a message made of a separator-free prefix, the separator and a rest splits into the prefix followed by pieces that re-join to the rest |
| Decimal.NatToString | js/index/battle.mjs:341 | the decimal form of a whole number is a non-empty run of digits without a leading zero |
| Decimal.NatToStringValue | js/index/battle.mjs:341 | the digits written for a whole number have that number as their value |
| Decimal.JsParseInt | js/index.mjs:217-218 | `parseInt` yields a number only when the text holds a digit; the white space `parseInt` skips in front is not modelled |
| Decimal.IntToStringRoundTrip | js/index.mjs:217-218 | `parseInt` reads back every integer written in decimal |
| AssocLists.Find | server/tilebasic.py:58 | a lookup finds a value exactly when some entry has the key, and the value is stored under that key |
| AssocLists.FindEntry | server/tilebasic.py:58 | with unique keys, looking up an entry's key finds that entry's value |
| AssocLists.FindPair | server/tilebasic.py:58 | in a two-entry table with distinct keys, each key finds its own value |
| AssocLists.KeyOf | server/tilebasic.py:67-69 | the reverse scan finds a key exactly when some entry holds the value, and that entry pairs the key with the value |
| AssocLists.KeyOfInvertsFind | server/tilebasic.py:58-69 | the key the reverse scan finds looks the value up again, and with unique values a looked-up value scans back to its key |
| AssocLists.Put | js/index/battle.mjs:237 | `Map.set` replaces the value in place under a known key and appends a new key at the end, keeping every key's position |
| AssocLists.FindAfterPut | js/index/battle.mjs:237 | after `set`, the key finds the new value and every other key what it found before |
| Json.PyGet | server/world.py:49 | indexing a dict succeeds exactly when the key is present; indexing a non-dict is a TypeError |
| Json.JsGet | js/index/battle.mjs:237 | reading a property of null throws, and a property is defined exactly when the object has it |
| Grids.RowMap | server/world.py:51-52 | converting a row succeeds exactly when every cell converts, and then holds each converted cell in place |
| Grids.GridMap | server/world.py:49-53 | converting a grid succeeds exactly when every row converts, and then holds each converted row in place |
| Grids.RowMapStep | server/world.py:51-52 | converting one more cell either fails with that cell's failure or appends its result |
| Grids.MapGrid | server/world.py:49-53 | the nested loops build exactly the converted grid, or stop at the first failing cell in row-major order |
| Grids.GridRoundTrip | server/world.py:49-100 | converting a grid with a saver and back with a loader that undoes it on every cell gives the grid back |
| ServerGeometry.VecAlgebra | server/geometry.py:10-24 | `relative_to` is subtraction, `+` and `-` undo each other, `+` commutes, `*` by 1 and 0 behave |
| ServerGeometry.VecFromDirectionStrUnit | server/geometry.py:42-55 | exactly l, r, u and d give a vector, and it is a unit vector along one axis |
| ServerGeometry.DirectionValue | server/geometry.py:58-64 | the four enum values are below 4 |
| ServerGeometry.DirectionValueInjective | server/geometry.py:58-64 | distinct directions have distinct values |
| ServerGeometry.DirectionStrRoundTrip | server/geometry.py:66-97 | `str_to_direction` inverts `direction_to_str`; any other string raises ValueError; each name is one letter |
| ServerGeometry.BoundsOfBox | server/geometry.py:124-156 | the bounds are the corners' coordinates and width/height are their differences |
| ServerGeometry.IsTouchingMeansOverlap | server/geometry.py:158-163 | touching is symmetric and means the closed extents overlap on both axes |
| ServerGeometry.SharedEdgeTouches | server/geometry.py:158-163 | boxes that share an edge touch |
| ServerGeometry.SelfTouching | server/geometry.py:158-163 | a box touches itself iff its corners are ordered |
| TileCoords.Trunc | server/tilecoord.py:22 | `int(x)` on a float truncates toward zero: within one of `x`, on the side of zero |
| TileCoords.FloorDiv | server/tilecoord.py:22 | `//` by a positive width rounds down: `q*b <= a < q*b + b` |
| TileCoords.FloorDivExact | server/tilecoord.py:22 | any offset inside a block floors back to that block's index |
| TileCoords.ToPosRoundTrip | server/tilecoord.py:20-26 | the upper-left corner of every tile lies in that tile |
| TileCoords.ToSpawnPosRoundTrip | server/tilecoord.py:14-22 | the spawn position of every tile lies in that tile, 2 pixels in from its corner |
| TileCoords.PosInItsTile | server/tilecoord.py:20-26 | a non-negative position lies inside the tile it is mapped to |
| TileCoords.NegativeTruncation | server/tilecoord.py:22 | truncation maps a slightly negative position to tile 0, not -1 |
| Collision.BlockMovement | server/collision.py:5-37 | the entity ends at the blocked position of its move: the end position when it already touched the wall at its start, else x resolved first, then y |
| Collision.StartTouchingKeepsEnd | server/collision.py:14-17 | an entity touching the wall at its start keeps its end position |
| Collision.XPhaseSeparates | server/collision.py:25-30 | after the x phase the entity, still on its start row, no longer touches the wall |
| Collision.BlockedPosSeparates | server/collision.py:25-37 | an entity that started clear of the wall is clear of it after blocking |
| Collision.NoMoveStays | server/collision.py:14-37 | a move of zero length leaves the entity where it was |
| Collision.FreeMoveUnchanged | server/collision.py:25-37 | a move whose two phases both miss the wall is not changed |
| Collision.BlockingNeverOvershoots | server/collision.py:25-37 | on each axis the result never passes the end and is never a whole unit or more behind the start; an axis without movement keeps its start coordinate |
| Collision.BlockingCanStepBack | server/collision.py:25-30 | an entity 10 wide at x = 0, clear of a wall whose left side is at 10.5, that moves 5 right ends at x = -0.5, behind its start |
| Collision.XResolvedFirst | server/collision.py:25-30 | the x phase does not look at the y movement |
| Registries.GetById | server/tilebasic.py:55-61 | a registered string ID finds its class; an unknown ID raises ValueError, an unhashable one TypeError |
| Registries.IdOf | server/tilebasic.py:63-71 | the first ID registered for a class, or ValueError when it has none |
| Registries.Registry.constructor | server/tilebasic.py:8 | the registry starts empty |
| Registries.Registry.Register | server/tilebasic.py:120-123 | a new ID is appended and then found; a second registration is refused and changes nothing |
| ServerTiles.NewTile | server/tilebasic.py:14-20 | a new tile has the given class and data, and only a wall blocks movement (server/tile.py:59-62) |
| ServerTiles.SendToClient | server/tile.py:101-109 | a portal sends no metadata keys to the client, a sign only `ground_tile` |
| ServerTiles.TileBoxSpan | server/tilebasic.py:29-33 | a tile's box runs from its position one block right and down |
| ServerTiles.FilterKeys | server/tilebasic.py:90-93 | exactly the fields whose key is kept, never more than given |
| ServerTiles.TileFromJson | server/tilebasic.py:35-42 | a loaded tile is well formed: it has metadata exactly when its class has a metadata class |
| ServerTiles.MetadataFromJson | server/tile.py:74-77 | parsed metadata fits the class, and a sign's ground tile is itself well formed (server/tile.py:111-114) |
| ServerTiles.TileToJson | server/tilebasic.py:44-96 | a saved tile is an object carrying the class's registered `tile_id` |
| ServerTiles.MetadataToJson | server/tile.py:79-81 | a portal saves exactly its world and spawn IDs; sign metadata is an object too (server/tile.py:116-121) |
| ServerTiles.PortalDataRoundTrip | server/tile.py:74-81 | a portal's destination survives saving and loading in both forms |
| ServerTiles.SignDataRoundTrip | server/tile.py:111-120 | a sign's text and ground tile survive saving and loading in the server form whenever its ground tile does |
| ServerTiles.TileSaveRoundTrip | server/tilebasic.py:35-96 | saving a registered, well-formed tile and loading it back gives the same tile, ground tiles included |
| ServerTiles.ClientFormFilters | server/tilebasic.py:90-93 | the client form carries exactly the `send_to_client` keys: none for a portal, only the ground tile for a sign |
| ServerTiles.StandardTilesUnique | server/tile.py:45-125 | the import-time registrations use distinct IDs and distinct classes |
| ServerTiles.SimpleTileLoads | server/tilebasic.py:35-42 | a `tile_id` naming a class without metadata loads as that class's plain tile |
| ServerTiles.StandardTileBlocking | server/tile.py:45-62 | through the standard registry a wall blocks and grass and wild grass do not |
| ServerTiles.BlockMovementAtTile | server/tile.py:9-42 | the player ends where server/collision.py's resolution against the tile's box puts it |
| Uuids.Hex | server/entitybasic.py:97 | `uuid.hex` is 32 lower-case hex digits, with no hyphen and no pipe character |
| Uuids.ParseUuid | server/entitybasic.py:84 | null is a TypeError and any other non-string an AttributeError; a string is read as `uuid.UUID` reads it: `urn:` and `uuid:` removed, braces stripped, hyphens dropped, then exactly 32 characters that `int(..., 16)` reads, else a ValueError |
| Uuids.ParseHexDigits | server/entitybasic.py:84 | reading back the hex digits of a value gives the value |
| Uuids.HexRoundTrip | server/entitybasic.py:84-97 | a UUID saved as `uuid.hex` loads back as the same UUID |
| Uuids.WrappedHexRoundTrip | server/entitybasic.py:84 | the hex form behind a `urn:uuid:` prefix or between braces loads as the same UUID |
| Uuids.LenientPrefix | server/entitybasic.py:84 | a `+` or a space in front of 31 hex digits is also accepted, with the value of the digits |
| Uuids.PyHexIntPlain | server/entitybasic.py:84 | `int(..., 16)` reads a run of lower-case hex digits as their value |
| Uuids.HexInjective | server/entitybasic.py:97 | distinct UUIDs are saved as distinct strings |
| Entities.BoxWidth | server/entity.py:65-67 | an entity's box is a block wide, except a Walker's or a Player's, which is the player's width |
| Entities.BoxAtExtent | server/entitybasic.py:45-52 | the box starts at the position and is `width` wide and high |
| Entities.TileRow | server/entitybasic.py:59-61 | one row of the comprehension: the tiles from `x0` to `x1`, left to right |
| Entities.TileRect | server/entitybasic.py:54-61 | exactly the tiles of the inclusive rectangle, each once, in row-major order |
| Entities.TouchedTileTouches | server/entitybasic.py:54-61 | every tile listed as touched touches the entity's box |
| Entities.Repeat | server/entity.py:29 | `"really " * n` is `n` copies |
| Entities.Patrol | server/entity.py:33-43 | an x inside the range is kept; an x past an edge is reflected about it and lands inside after a small overshoot |
| Entities.VecFromJson | server/entitybasic.py:79-81 | a position reads its `x` and `y` fields |
| Entities.FacingFromJson | server/entitybasic.py:82 | the facing is the direction whose letter is stored |
| Entities.ParseEntity | server/entitybasic.py:76-85 | a parsed entity had every field `from_json` reads |
| Entities.RecordToJson | server/entitybasic.py:87-102 | an entity of a registered class saves as an object with exactly the five keys in order |
| Entities.VecJsonRoundTrip | server/entitybasic.py:79-100 | a position or velocity reads back as written |
| Entities.EntityJsonFields | server/entitybasic.py:96-102 | each saved key holds the entity's own UUID, class ID, position, velocity and facing |
| Entities.EntityJsonRoundTrip | server/entitybasic.py:76-102 | saving an entity of a registered class and loading it gives back UUID, class, position, velocity and facing |
| Entities.Entity.constructor | server/entity.py:14-31 | the given state with a fresh UUID; a Walker moves right at its speed and patrols three blocks either side |
| Entities.Entity.Move | server/entitybasic.py:23-25 | the position moves by the offset |
| Entities.Entity.SetX | server/entitybasic.py:37-39 | only x changes |
| Entities.Entity.SetY | server/entitybasic.py:41-43 | only y changes |
| Entities.Entity.Update | server/entity.py:33-43 | the entity moves by `velocity * dt`; a Walker past an edge is reflected back, faces inward and turns its velocity |
| Entities.Entity.OnInteract | server/entity.py:45-63 | a Walker stops and sends the first or next line, or past the last line forgets the player, ends the dialogue and walks on |
| Entities.Entity.ToJson | server/entitybasic.py:87-120 | AttributeError without a UUID, ValueError for an unregistered class, else the saved object |
| Entities.Entity.ToJsonRoundTrip | server/entitybasic.py:76-102 | what `to_json` writes, `from_json` parses back to the same record |
| Entities.LoadRecord | server/entitybasic.py:76-85 | a loadable record is a parsable entity that is not a Player |
| Entities.FromJson | server/entitybasic.py:76-85 | a new entity with the loaded state and UUID, or the parse error |
| Entities.Build | server/entitybasic.py:83-85 | the constructor call and UUID assignment yield an entity loaded from the record |
| Battle.Combatant.constructor | server/battle.py:16-24 | a combatant starts with 20 hit points, the three default moves and speed 20 |
| Battle.FasterIsStrict | server/battle.py:26-28 | being faster is a strict order; equal speeds are faster neither way |
| Battle.StateOf | server/battle.py:102-108 | the AI wins iff the player is at or below 0, even on a double knock-out; the player wins iff only the AI is |
| Battle.Strike | server/battle.py:94-100 | only the mover's opponent loses the move's damage |
| Battle.PlayerFirst | server/battle.py:77-79 | the strictly faster side strikes first; a tie goes to the player iff the draw is below one half |
| Battle.KnockOutStopsReply | server/battle.py:89-92 | a first strike that ends the battle leaves the striker untouched |
| Battle.OrderMattersOnlyOnKnockOut | server/battle.py:75-92 | when the first strike does not end the battle, both sides lose the other's damage whoever strikes first |
| Battle.RoundDamageBounds | server/battle.py:75-100 | each side is struck at most once a round and, with non-negative damage, never gains hit points |
| Battle.RandomMove | server/battle.py:41-44 | the drawn move is one of the combatant's moves; an empty list raises IndexError |
| Battle.PlayerAIBattle.constructor | server/battle.py:65-68 | the battle holds the two given combatants |
| Battle.PlayerAIBattle.GetBattleState | server/battle.py:102-108 | the state from the two combatants' hit points, player defeat first |
| Battle.PlayerAIBattle.ProcessMove | server/battle.py:94-100 | the hit points become those of one strike and the state is returned |
| Battle.PlayerAIBattle.ProcessMoves | server/battle.py:75-92 | the hit points become those of one round in speed order and the state is returned |
| Battle.PlayerAIBattle.ProcessPlayerMove | server/battle.py:70-73 | the AI's randomly drawn move is played against the player's; no AI moves raises IndexError and changes nothing |
| ServerGame.Player.constructor | server/player.py:14-24 | a player is an entity at the given position with no UUID, a default combatant, and no move made yet |
| ServerGame.FindPlayer | server/game.py:11-18 | the first player with that username, or ValueError when there is none |
| ServerGame.FindAfterAppend | server/game.py:20-22 | after an append the new name is found, and an earlier player of the same name still wins |
| ServerGame.Game.constructor | server/game.py:7-9 | a new game has no players |
| ServerGame.Game.GetPlayer | server/game.py:11-18 | the lookup is the first-match search over the list |
| ServerGame.Game.AddPlayer | server/game.py:20-22 | the player is appended without deduplication, and its name is then found |
| ServerWorld.PyIndex | server/world.py:30 | Python indexing: a negative index counts from the end, and out of range is IndexError |
| ServerWorld.LoadRecords | server/world.py:55-56 | every entity loads, in order, or the first failure is the result |
| ServerWorld.AsGrid | server/world.py:49-53 | the tile grid is a list of lists, row for row |
| ServerWorld.GridJson | server/world.py:96-101 | a grid written as lists of lists reads back as the same grid |
| ServerWorld.AsList | server/world.py:55-56 | a JSON list is its items; anything else is refused |
| ServerWorld.AsInt | server/world.py:59-61 | a block coordinate is a whole JSON number |
| ServerWorld.SpawnFieldsFromJson | server/world.py:58-63 | every spawn point loads, under its own name and in order, or the load fails |
| ServerWorld.SpawnPointsJson | server/world.py:109-112 | one `block_x`/`block_y` object per spawn point, under its name, in order |
| ServerWorld.SpawnPointRoundTrip | server/world.py:58-63 | a saved spawn tile loads back as the same tile coordinate |
| ServerWorld.SpawnPointsRoundTrip | server/world.py:58-63 | saved spawn points load back with the same names, coordinates and order |
| ServerWorld.ParseWorld | server/world.py:43-65 | a loaded world had version "0.1.0"; any other version raises ValueError |
| ServerWorld.FindEntity | server/world.py:34-41 | the first entity with that UUID, or ValueError when none has it |
| ServerWorld.WithoutBattlesOf | server/world.py:152-155 | no battle of the player remains; every other battle stays |
| ServerWorld.WithoutBattlesOfAppend | server/world.py:152-155 | the filter keeps the order of the remaining battles |
| ServerWorld.World.constructor | server/world.py:20-25 | the given tiles, entities and spawn points, and no battles |
| ServerWorld.World.GetTile | server/world.py:27-32 | the tile at row `block_y`, column `block_x`, negative indices from the end, and Empty when out of range |
| ServerWorld.World.GetEntity | server/world.py:34-41 | the first-match search over the entities |
| ServerWorld.World.SaveForm | server/world.py:91-113 | the save form is an object with the keys version, tiles, entities, spawn_points |
| ServerWorld.World.ClientForm | server/world.py:67-89 | the client form is built exactly when every tile and every entity converts, and is an object with the keys version, tiles, entities, spawn_pos (their values are stated by ClientFormFields) |
| ServerWorld.World.ToJsonSave | server/world.py:91-113 | the nested loops build the save form |
| ServerWorld.World.ToJsonClient | server/world.py:67-89 | the nested loops build the client form, whose fields ClientFormFields and ClientFormTiles state |
| ServerWorld.World.PlayerInBattle | server/world.py:139-144 | true iff some battle's player has that username |
| ServerWorld.World.GetBattleByUsername | server/world.py:146-150 | the first battle of that player, or None iff there is none |
| ServerWorld.World.DelBattleByUsername | server/world.py:152-155 | the battles become the filtered list and the player is in none |
| ServerWorld.World.CreateBattle | server/world.py:157-166 | ValueError and no change when the player is already battling; else one battle is appended and start, status and move request are sent |
| ServerWorld.WorldFromJson | server/world.py:43-65 | the loops succeed or fail exactly as the world parse does, and build a world from it with no battles |
| ServerWorld.LoadEntities | server/world.py:55-56 | one new entity per item, loaded from that item, or the first failure |
| ServerWorld.BuildAll | server/world.py:55-56 | one new entity per parsed record, in order |
| ServerWorld.SavedTilesLoad | server/world.py:48-53 | the saved tile grid loads back as the same grid |
| ServerWorld.SavedEntitiesLoad | server/world.py:55-56 | the saved entities load back as their records, in order |
| ServerWorld.SaveFormFields | server/world.py:105-113 | each key of the save form holds its own part |
| ServerWorld.ClientFormFields | server/world.py:79-89 | the client form's version is "0.1.0", its tiles are the client tile grid, its entities are each entity's client form in order, and its spawn_pos is the `x`/`y` object of the given position |
| ServerWorld.ClientFormTiles | server/world.py:72-77 | the client tile grid has the world's rows and columns, each cell being that tile's client form, and a tile with data sends exactly its `send_to_client` keys |
| ServerWorld.SaveObjectFields | server/world.py:105-113 | each of the four keys finds its own entry in the saved object |
| ServerWorld.WorldSaveRoundTrip | server/world.py:43-113 | saving and loading a world gives back its tiles, every entity's record in order, and its spawn points |
| ServerWorld.GetWorldById | server/world.py:115-121 | a registered ID finds its world; an unknown one raises ValueError |
| ServerWorld.GetWorldId | server/world.py:123-130 | the ID a world is registered under, or ValueError |
| ServerWorld.WorldIdRoundTrip | server/world.py:115-137 | with no duplicate IDs, looking a world up by its own ID finds it again |
| TileEvents.SpawnLookup | server/tile.py:93-95 | a spawn ID the world holds finds its tile coordinate; a missing key is a KeyError, an unhashable one a TypeError |
| TileEvents.SpawnLookupLoaded | server/world.py:58-63 | a spawn point named in a world file is found under its name at the coordinates the file gives |
| TileEvents.PortalMoveOn | server/tile.py:88-98 | an unregistered destination fails with nothing changed; otherwise the player's world is switched first and, when the spawn point exists, the player stands at its spawn position |
| Messages.WorldFraming | server/util.py:11-14 | a client splitting a `world` message finds the world's JSON whole after the first pipe |
| Messages.MovedToFraming | server/util.py:16-19 | a client splitting `movedto` gets the two coordinates as written |
| Messages.SignTextFraming | server/util.py:21-24 | the sign's text, pipes and all, is what follows the first pipe |
| Messages.Others | server/util.py:29-33 | every listed player is in that world and is not the sender, and every such player is listed |
| Messages.OthersAppend | server/util.py:29-33 | a player added at the end of the game's list comes last in the listing when it is in that world and not the sender, and is left out otherwise, so the listing keeps game order |
| Messages.Listed | server/util.py:30 | each listed player's username and position |
| Messages.Triples | server/util.py:30 | one pipe-separated name, x and y triple per listed player |
| Messages.PlayerFields | server/util.py:29-34 | three pieces, name, x and y, per listed player |
| Messages.TriplesJoin | server/util.py:29-34 | joining the triples with pipes is joining their pieces with pipes |
| Messages.FieldsPipeFree | server/util.py:29-34 | no piece holds a pipe when no name or number does |
| Messages.PlayersFraming | server/util.py:26-34 | a client splitting `players` gets name, x, y of each other player in the world in order, or one empty piece when there are none |
| Messages.EntityJsons | server/util.py:39-41 | each entity's client JSON, in world order, or the first failure |
| Messages.Dumps | server/util.py:40 | `json.dumps` of each object, in order |
| Messages.EntitiesMessage | server/util.py:36-42 | the message exists iff every entity converts |
| Messages.EntitiesFraming | server/util.py:36-42 | a client splitting `entities` gets each entity's JSON in order, or one empty piece for none |
| Messages.DialogueFraming | server/util.py:44-47 | a client finds the speaker's UUID in the second piece and the whole text in the rest |
| Messages.DialogueChoicesFraming | server/util.py:49-52 | a client splitting `dialoguechoice` gets the UUID and then each line |
| Messages.DialogueEndFraming | server/util.py:54-57 | the second piece of `dialogueend` parses back to the speaker's UUID |
| Messages.SendTag | server/util.py:59-70 | one pipe-separated tag message naming both players goes to the tagger, then the tagged; closed connections are skipped, an unknown name raises ValueError |
| Messages.MoveNames | server/util.py:80 | the move names, in order |
| Messages.MoveRequestFraming | server/util.py:77-81 | a client splitting `battlemovereq` gets the move names in order, or one empty piece for none |
| Messages.BattleStatusFraming | server/util.py:83-86 | `parseInt` of the second and third pieces gives back both hit-point counts |
| ClientGeometry.RelativeTo | js/index/geometry.mjs:9-11 | adding `p` back gives `v`, and the result is zero iff `v == p` |
| ClientGeometry.RelToPlayer | js/index/geometry.mjs:13-19 | throws iff there is no player; else the offset from the draw position equals the offset from the player, so the player itself lands on its draw position |
| ClientGeometry.DirCode | js/index/geometry.mjs:26-30 | the facings are numbered 1 to 4 |
| ClientGeometry.StrToDir | js/index/geometry.mjs:32-37 | exactly l, u, r and d name a facing, whose letter is the string; anything else is `undefined` |
| ClientGeometry.DirRoundTrip | js/index/geometry.mjs:26-37 | distinct facings have distinct numbers and each facing's letter reads back as it |
| KeyBindings.KeyBinding.constructor | js/index/keybinding.mjs:4-8 | no key held and no binding |
| KeyBindings.KeyBinding.KeyDown | js/index/keybinding.mjs:10-13 | the key is added to the held set; bindings unchanged |
| KeyBindings.KeyBinding.KeyUp | js/index/keybinding.mjs:10-13 | the key is removed from the held set; bindings unchanged |
| KeyBindings.KeyBinding.AddKeyBind | js/index/keybinding.mjs:15-17 | the event is bound (or rebound) to the key, and is pressed iff that key is held |
| KeyBindings.KeyBinding.Consume | js/index/keybinding.mjs:23-25 | only the event's key is released: the event no longer fires and events on other keys keep their state |
| Rendering.WithY | js/index/render.mjs:11-13 | the same closure at the new depth |
| Rendering.AtDepth | js/index/render.mjs:15-20 | the entries at one depth, in order |
| Rendering.Draws | js/index/render.mjs:17-19 | the closures that run, in list order |
| Rendering.AtDepthConcat | js/index/render.mjs:15-20 | selecting a depth works piecewise on a concatenation |
| Rendering.DrawsConcat | js/index/render.mjs:17-19 | the closures of a concatenation are the closures of each part |
| Rendering.AtDepthNone | js/index/render.mjs:15-20 | nothing at a depth above every entry |
| Rendering.Insert | js/index/render.mjs:16 | one insertion step adds exactly `e` |
| Rendering.InsertSorted | js/index/render.mjs:16 | inserting into a depth-sorted list keeps it sorted |
| Rendering.InsertMultiset | js/index/render.mjs:16 | inserting adds exactly one copy of `e` |
| Rendering.InsertDraws | js/index/render.mjs:16 | inserting adds exactly one run of `e`'s closure |
| Rendering.InsertAtDepth | js/index/render.mjs:16 | inserting `e` puts it after the entries of equal depth already there |
| Rendering.SortByDepth | js/index/render.mjs:16 | the stable sort keeps the length |
| Rendering.SortByDepthCorrect | js/index/render.mjs:15-20 | sorted by depth, a permutation (every closure runs once), and stable among equal depths |
| Rendering.DeeperDrawnLater | js/index/render.mjs:15-20 | of two entries of a list, both stay after the depth sort and the shallower is drawn before the deeper |
| Rendering.InsertAtDepthAll | js/index/render.mjs:16 | inserting keeps each depth's entries in order, `e` last among its own |
| Rendering.AtDepthConcatAll | js/index/render.mjs:16 | appending one entry adds it at the end of its own depth |
| Rendering.Renders | js/index/render.mjs:15-20 | the list is sorted in place by depth, then the closures run in that order |
| Rendering.GetImageFirstReady | js/index/render.mjs:44-55 | the image of the first ready filename in argument order, or null iff none is ready |
| Rendering.GetImageCache | js/index/render.mjs:44-55 | entries already there are kept, and LOADING is added exactly for unseen filenames before the first ready one |
| Rendering.ImageCache.constructor | js/index/render.mjs:32 | the cache starts empty |
| Rendering.ImageCache.LoadImage | js/index/render.mjs:36-41 | the filename's entry is LOADING |
| Rendering.ImageCache.OnLoad | js/index/render.mjs:38 | the loaded image replaces the LOADING entry and is ready |
| Rendering.ImageCache.GetImage | js/index/render.mjs:44-55 | the result and the new cache are those of the first-ready specification |
| Rendering.MinTime | js/index/render.mjs:65-90 | the shortest frame time is at most every frame's and is some frame's |
| Rendering.NextIndex | js/index/render.mjs:74-77 | `frameIndex++`, wrapped to 0 past the last frame |
| Rendering.IndexAfter | js/index/render.mjs:71-80 | any number of advances stays a valid frame index |
| Rendering.Animation.constructor | js/index/render.mjs:66-69 | the animation starts at frame 0 with that frame's full time |
| Rendering.Animation.Reset | js/index/render.mjs:82-85 | back to frame 0 with its full time |
| Rendering.Animation.Animate | js/index/render.mjs:71-80 | `dt` is taken off, then frames advance cyclically while the time is used up; the animation stops inside a frame with time left |
| Rendering.Animation.GetSprite | js/index/render.mjs:87-89 | the current frame's sprites through the image cache |
| ClientTiles.Register | js/index/tile.mjs:41-50 | a second registration of an ID throws "Tile ID <id> is already in use." and leaves the registry unchanged; otherwise the class is added with its sprite and fill style and is found under that ID |
| ClientTiles.GetById | js/index/tile.mjs:52-59 | succeeds iff the ID is a registered string, returning its class; every other ID throws "Tile ID <id> not found." with the ID written as a template literal writes it |
| ClientTiles.ParseTile | js/index/tile.mjs:61-69 | a null object is a TypeError; a parsed tile has the class its `tile_id` names and every nested ground tile sits at the same position |
| ClientTiles.ShapeJson | js/index/tile.mjs:61-69 | the JSON a tile arrives as is an object |
| ClientTiles.ParseShapeRoundTrip | js/index/tile.mjs:61-69 | a tile (with its ground tiles) sent in the form `fromJSON` reads is rebuilt as the same tile |
| ClientTiles.Pick | js/index/tile.mjs:17 | `Math.floor(Math.random() * n)` is a valid index |
| ClientTiles.MemoAfter | js/index/tile.mjs:12-19 | a memoised non-empty sprite is kept; a tile class with an array of sprites always ends with one memoised |
| ClientTiles.MemoStable | js/index/tile.mjs:12-19 | once drawn, the memoised sprite never changes whatever later draws give, and it is one of the class's images |
| ClientTiles.Tile.constructor | js/index/tile.mjs:8-10 | the tile holds its class, position and ground tile, and a portal starts a fresh animation at frame 0 |
| ClientTiles.Tile.Renders | js/index/tile.mjs:22-33 | the last entry draws this tile at depth `pos.y` (`pos.y + 27` for a sign), after the ground tile's entries |
| ClientTiles.Tile.OverlayDeepest | js/index/tile.mjs:129-151 | the entries before the last are exactly the ground tile's, and over plain ground this tile's entry is at least as deep, so the stable depth sort draws it on top |
| ClientTiles.Tile.GetSprite | js/index/tile.mjs:12-20 | a portal leaves the memo alone and shows its animation's frame; any other tile memoises as `MemoAfter` says and asks the image cache for that name |
| ClientTiles.Tile.Animate | js/index/tile.mjs:39 | only a portal's animation advances, and it stays valid |
| ClientTiles.FromJson | js/index/tile.mjs:61-69 | succeeds iff the parse does, with the same error, and builds a fresh tile of exactly the parsed shape |
| ClientEntities.Register | js/index/entity.mjs:48-56 | a second registration throws "Entity ID <id> is already in use." and leaves the registry unchanged; otherwise the class is added with its fill style and sprite path |
| ClientEntities.GetById | js/index/entity.mjs:58-65 | succeeds iff the ID is a registered string, returning its class; every other ID throws "Entity ID <id> not found." with the ID written as a template literal writes it |
| ClientEntities.ParseEntityAsWritten | js/index/entity.mjs:67-75 | always fails: null is a TypeError; otherwise the lookup's "not found" error exactly when the class lookup fails, otherwise the TypeError of calling the missing `Vec.fromJSON` |
| ClientEntities.AsWrittenNeverLoads | js/index/entity.mjs:71-72 | an entity in the server's form that the corrected reader rebuilds is rejected as written, with a TypeError |
| ClientEntities.ParseEntity | js/index/entity.mjs:67-75 | a null object is a TypeError; an entity parses iff its `entity_id` names a registered class and its `pos` and `velocity` read as vectors, and then it has that class, whatever `name` the object holds (undefined when absent), and those vectors |
| ClientEntities.ParseEntityRoundTrip | js/index/entity.mjs:67-75 | an entity in the server's form (`uuid`, `entity_id`, `pos`, `velocity`, `facing`) is rebuilt with the same class, position, velocity and facing, its name undefined |
| ClientEntities.Entity.constructor | js/index/entity.mjs:10-16 | the entity holds the given class, name, position, velocity and facing |
| ClientEntities.Entity.Renders | js/index/entity.mjs:26-38 | one entry that draws this entity, at depth one block below its position |
| JsText.TemplateText | js/index/entity.mjs:85-89 | `undefined` reads "undefined" and a string reads as itself |
| ClientEntities.Entity.GetSprite | js/index/entity.mjs:18-24 | the image and cache state are the cache specification's for the sprite path |
| ClientEntities.Entity.SpritePath | js/index/entity.mjs:85-89 | a walker asks for "" and a stander without a name for `npcs/undefined.png` |
| ClientEntities.Entity.Move | js/index/entity.mjs:40-42 | the new position is offset from the old by exactly `offset`, and the draw depth moves by its y |
| ClientEntities.Entity.MoveTo | js/index/entity.mjs:44-46 | the position is replaced |
| ClientEntities.StanderPathsDistinct | js/index/entity.mjs:85-89 | two standers ask for the same image iff they have the same name |
| ClientEntities.FromJson | js/index/entity.mjs:67-75 | succeeds iff the corrected parse does, with the same error, and builds a fresh entity holding the parsed fields |
| ClientJson.VecField | js/index/entity.js:64-65 | a vector read from a field has the numbers the field's `x` and `y` hold |
| ClientJson.FacingField | js/index/entity.js:66 | a facing read from `facing` is the one whose letter the field holds |
| ClientJson.VecFieldOf | js/index/entity.js:64-65 | a vector sent as `{x, y}` reads back as itself |
| LegacyRender.Step | js/index.js:196-205 | one `animate(dt)`: with time left the frame stays and only `dt` comes off; otherwise exactly one advance, wrapping to frame 0, adding the new frame's time |
| LegacyRender.StepAgreesWithLoop | js/index.js:196-205 | whenever one step leaves time on the clock, it lands where the current client's looping `animate` lands |
| LegacyRender.LagBehind | js/index.js:196-205 | a `dt` longer than the rest of this frame and all of the next leaves the single-step animation on the next frame with no time left |
| LegacyRender.Animation.constructor | js/index.js:190-194 | the animation starts at frame 0 with that frame's full time |
| LegacyRender.Animation.Reset | js/index.js:207-210 | back to frame 0 with its full time |
| LegacyRender.Animation.Animate | js/index.js:196-205 | the new frame and time are one `Step` from the old |
| LegacyRender.Animation.GetSprite | js/index.js:212-214 | the current frame's sprites through the image cache's first-ready rule |
| PlayerState.WalkFrames | js/index/player.js:13-36 | each walk has four frames, all with positive time |
| PlayerState.StillSprites | js/index/player.js:50-53 | the standing images always fall back to the one facing down |
| PlayerState.Player.constructor | js/index/player.js:9-37 | the player faces down, is neither moving nor running, and every walk is at frame 0 with 0.2 s left |
| PlayerState.Player.GetAnimation | js/index/player.js:39-44 | the walk chosen is one of the player's four animations |
| PlayerState.Player.GetAnimationFrames | js/index/player.js:39-44 | the walk chosen plays the frames of the direction faced |
| PlayerState.Player.Renders | js/index/player.js:79-93 | one entry drawing the player, at depth one player width below its position |
| PlayerState.Player.StartMoving | js/index/player.js:69-72 | the current walk restarts at frame 0 with its full time, and the player is moving |
| PlayerState.Player.StopMoving | js/index/player.js:74-77 | the player is neither running nor moving |
| PlayerState.Player.Move | js/index/player.js:57-62 | the position is shifted by `offset` and the player is moving; a standing player restarts its walk, a moving one keeps its walk untouched |
| PlayerState.Player.MoveTo | js/index/entity.js:36-38 | the position is replaced |
| PlayerState.Player.Animate | js/index/player.js:64-67 | the current walk takes one step of `dt`, or `2*dt` while running |
| PlayerState.Player.GetSprite | js/index/player.js:46-55 | moving: the walk's current frame; standing: the still image for the facing with the down-facing fallback |
| PlayerState.OtherPlayer.constructor | js/index/player.js:97-100 | the other player holds the position and username given |
| PlayerState.OtherPlayer.Renders | js/index/player.js:102-112 | one entry drawing the other player, at depth one player width below its position |
| PlayerState.PlayersSortByPosition | js/index/player.js:79-112 | the player and another player in one render list both stay in it after the depth sort, and whichever stands lower on the screen is drawn after the other |
| LegacyEntities.Register | js/index/entity.js:40-49 | a second registration of an ID throws "Entity ID <id> is already in use." and changes nothing; otherwise the class is added with its sprite and fill style |
| LegacyEntities.GetById | js/index/entity.js:51-58 | succeeds iff the ID is a registered string, returning its class; every other ID throws "Entity ID <id> not found." with the ID written as a template literal writes it |
| LegacyEntities.ParseEntity | js/index/entity.js:60-68 | a null object is a TypeError; a parsed entity has the class its `entity_id` names and the UUID, position and velocity the object holds |
| LegacyEntities.ParseEntityRoundTrip | js/index/entity.js:60-68 | an entity of a registered class sent in the server's form keeps its UUID, position, velocity and facing |
| LegacyEntities.Entity.constructor | js/index/entity.js:10-16 | the entity holds the given class, UUID, position, velocity, facing and height |
| LegacyEntities.Entity.Renders | js/index/entity.js:18-30 | one entry drawing the entity, at depth `height` below its position |
| LegacyEntities.Entity.SpriteRequest | js/index/entity.js:22-23 | an image is asked for iff the class has a sprite, and at most one |
| LegacyEntities.Entity.Move | js/index/entity.js:32-34 | the new position is offset from the old by exactly `offset`, and the draw depth moves with it |
| LegacyEntities.Entity.MoveTo | js/index/entity.js:36-38 | the position is replaced |
| LegacyEntities.FromJson | js/index/entity.js:60-68 | succeeds iff the parse does, with the same error, and builds a fresh entity holding the parsed fields |
| Cursors.WrapUp | js/index/textbox.mjs:183-189 | on a valid cursor, the previous entry modulo the list length, still valid |
| Cursors.WrapDown | js/index/textbox.mjs:191-197 | on a valid cursor, the next entry modulo the list length, still valid |
| Cursors.WrapInverse | js/index/textbox.mjs:183-197 | moving down then up, or up then down, returns to the same entry |
| Cursors.WrapDownTimes | js/index/textbox.mjs:191-197 | any number of moves down stays a valid cursor |
| Cursors.WrapDownCycle | js/index/textbox.mjs:191-197 | up to `n` moves down pass the end of the list at most once, and `n` moves come back to the start |
| Cursors.ClampUp | js/index/textbox.mjs:70-75 | one line up, but never below 0 |
| Cursors.ClampDown | js/index/textbox.mjs:77-82 | one line down, but never past `hi` |
| Cursors.ClampStaysInRange | js/index/textbox.mjs:70-82 | clamped scrolling stays in `[0, hi]` once there and moves monotonically, never wrapping |
| TextBoxes.WrapFrom | js/index/textbox.mjs:10-28 | the lines already pushed are kept as a prefix and at least one more line is pushed |
| TextBoxes.Wrap | js/index/textbox.mjs:5-29 | wrapping always yields at least one line |
| TextBoxes.WrapFromFits | js/index/textbox.mjs:15-24 | every line produced is narrower than the box unless it is a single word too wide for it |
| TextBoxes.WrapFits | js/index/textbox.mjs:5-29 | every line of `wrapText` fits the box, except single over-wide words |
| TextBoxes.WrapFromBreaks | js/index/textbox.mjs:11-13 | each "\n" word forces a new line, so there are more lines than breaks |
| TextBoxes.WrapText | js/index/textbox.mjs:5-29 | the loop over the words produces exactly the specified wrapping |
| TextBoxes.Page | js/index/textbox.mjs:123 | `wrappedText.slice(lineStart)`: the lines from `lineStart` on, empty past the end |
| TextBoxes.ScrollDownKeepsLastLine | js/index/textbox.mjs:77-82 | after scrolling down, the page drawn is never empty and still ends with the last line |
| TextBoxes.GameLog.constructor | js/index/textbox.mjs:57-63 | an empty log at the top, showing the wrapped "open the log" line |
| TextBoxes.GameLog.Focus | js/index/textbox.mjs:84-93 | the instructions and every message, newest first, separated by a rule, are wrapped; the scroll position is kept |
| TextBoxes.GameLog.Unfocus | js/index/textbox.mjs:95-104 | only the open message and the newest message are wrapped, from the top |
| TextBoxes.GameLog.AddMsg | js/index/textbox.mjs:65-68 | the message goes first in the log; an open log redraws in full keeping its scroll, a closed one shows the preview ending in the new message |
| TextBoxes.GameLog.ScrollUp | js/index/textbox.mjs:70-75 | one line up, never above the first |
| TextBoxes.GameLog.ScrollDown | js/index/textbox.mjs:77-82 | one line down, never past the last line |
| TextBoxes.GameLog.Clear | js/index/textbox.mjs:114-118 | no messages, only the instructions wrapped, from the top |
| TextBoxes.MenuLines | js/index/textbox.mjs:166-173 | the instructions first, then each item, the selected one alone prefixed with ">" |
| TextBoxes.Marked | js/index/textbox.mjs:170-173 | each item keeps its place and only the selected one is marked |
| TextBoxes.Menu.constructor | js/index/textbox.mjs:146-152 | no items, cursor at 0, showing the wrapped "open the menu" line |
| TextBoxes.Menu.Focus | js/index/textbox.mjs:163-174 | the wrapped instructions and marked items |
| TextBoxes.Menu.Unfocus | js/index/textbox.mjs:176-181 | only the wrapped "open the menu" line |
| TextBoxes.Menu.AddItem | js/index/textbox.mjs:154-157 | the item goes last, the cursor stays (and becomes valid for the first item), and the text is redrawn for the open or closed menu |
| TextBoxes.Menu.SelectedItem | js/index/textbox.mjs:159-161 | the selected item, and undefined exactly when the cursor is off the list |
| TextBoxes.Menu.CursorUp | js/index/textbox.mjs:183-189 | the cursor moves up with wrap-around, stays valid, and the open menu is redrawn |
| TextBoxes.Menu.CursorDown | js/index/textbox.mjs:191-197 | the cursor moves down with wrap-around, stays valid, and the open menu is redrawn |
| TextBoxes.DialogueBox.constructor | js/index/textbox.mjs:234-244 | a closed box with no lines, no NPC and both cursors at 0 |
| TextBoxes.DialogueBox.SetText | js/index/textbox.mjs:246-255 | the box shows the wrapped text from the top, for that NPC, with no options |
| TextBoxes.DialogueBox.SetOptions | js/index/textbox.mjs:257-265 | the box offers the options with the first marked, for that NPC, with no text |
| TextBoxes.DialogueBox.EndDialogue | js/index/textbox.mjs:281-285 | the box is closed with no text or options, keeping the NPC's UUID |
| TextBoxes.DialogueBox.OnUpArrow | js/index/textbox.mjs:287-300 | a closed box ignores the key; text scrolls up clamped at the top; options move up with wrap-around and are redrawn |
| TextBoxes.DialogueBox.OnDownArrow | js/index/textbox.mjs:302-315 | a closed box ignores the key; text scrolls down clamped at the last line; options move down with wrap-around and are redrawn |
| BattleMenus.ById | js/index/battle.mjs:14-20 | the first declared entry whose ID is strictly equal to the value read, and undefined exactly when no entry has that ID |
| BattleMenus.SpeciesIdsUnique | js/index/battle.mjs:22-39 | no two declared species share an ID |
| BattleMenus.ElementAndTypeIdsUnique | js/index/battle.mjs:74-99 | no two elements, and no two move types, share an ID |
| BattleMenus.SpeciesByOwnId | js/index/battle.mjs:14-39 | every declared species is found again by its own ID |
| BattleMenus.Prop | js/index/battle.mjs:54-56 | reading a property throws exactly when the value is undefined or null |
| BattleMenus.StatsFromJson | js/index/battle.mjs:54-57 | throws exactly on undefined or null; otherwise the stats hold the object's `hp` and `stam` |
| BattleMenus.MoveFromJson | js/index/battle.mjs:113-124 | throws exactly on null; the move's element and type are looked up by their IDs |
| BattleMenus.MovesFromJson | js/index/battle.mjs:153 | throws iff some move is null; otherwise one move per array entry, in order |
| BattleMenus.CombatantFromJson | js/index/battle.mjs:128-172 | null is a TypeError; a combatant is full iff the object has its own `stats`, and one without `stats` always reads as partial |
| BattleMenus.OtherSide | js/index/battle.mjs:220-226 | "side2" exactly for "side1", and "side1" for anything else |
| BattleMenus.OtherSideInvolution | js/index/battle.mjs:220-226 | the two sides are each other's other side |
| BattleMenus.TabLeft | js/index/battle.mjs:287-298 | the move description stays put, and only it |
| BattleMenus.TabRight | js/index/battle.mjs:304-315 | the move description stays put, and only it |
| BattleMenus.TabCycle | js/index/battle.mjs:186-192 | on the tab bar, right and left move one place with wrap-around and undo each other |
| BattleMenus.TabRightFiveTimes | js/index/battle.mjs:304-315 | five presses of the right key return to the starting tab |
| BattleMenus.TabLabels | js/index/battle.mjs:248-251 | one label per tab, the open one alone marked with ">" |
| BattleMenus.Indexed | js/index/battle.mjs:236 | the entries of an array are its items under their decimal indices |
| BattleMenus.Entries | js/index/battle.mjs:236-241 | `Object.entries` throws exactly on undefined or null, and lists an object's own fields in order |
| BattleMenus.FillFrom | js/index/battle.mjs:236-241 | the loop throws iff some value cannot be read |
| BattleMenus.ReadAll | js/index/battle.mjs:236-241 | one read value per entry, under its key, in order |
| BattleMenus.FillFromFresh | js/index/battle.mjs:236-241 | when every value reads and the keys are new and distinct, one map entry is appended per value in the server's order |
| BattleMenus.FillMap | js/index/battle.mjs:236-238 | the loop's map and failure are exactly the specification's |
| BattleMenus.RedrawFailure | js/index/battle.mjs:245-285 | with the help texts built, `redraw` can only throw a TypeError, only on the overview and attack tabs |
| BattleMenus.RedrawFailureAsWritten | js/index/battle.mjs:263-284 | as written, the attack tab with an ally selected and the description tab with a move to describe always throw a TypeError, and the overview throws as `RedrawFailure` says |
| BattleMenus.AttackRedrawAsWrittenThrows | js/index/battle.mjs:263-275 | as written, the attack tab with a full ally selected throws, where with the help text built it succeeds and the cursor runs over the ally's moves |
| BattleMenus.Link | js/index.mjs:3 | a module links exactly when every name it imports is exported, and otherwise fails with a SyntaxError |
| BattleMenus.ClientImportAsWrittenFails | js/index.mjs:3 | as written, the current client imports `Battle`, which js/index/battle.mjs does not export, so it does not load |
| BattleMenus.ClientImportIntendedLinks | js/index/battle.mjs:457 | importing `BattleMenu` alone links |
| BattleMenus.BattleMenu.constructor | js/index/battle.mjs:196-218 | this side and the other side, no combatants, the overview open on the full tab bar, nothing selected |
| BattleMenus.BattleMenu.Redraw | js/index/battle.mjs:245-285 | the tab bar is relabelled; it throws exactly when `RedrawFailure` says, leaving the item count; otherwise the attack tab counts the ally's moves |
| BattleMenus.BattleMenu.HandleMoveRequest | js/index/battle.mjs:228-231 | the ally to move is recorded and the menu redrawn |
| BattleMenus.BattleMenu.SetBattle | js/index/battle.mjs:233-243 | both maps are cleared, then filled from this side's and the other side's entries in order; a null state or an unreadable side throws |
| BattleMenus.BattleMenu.TabLeftPress | js/index/battle.mjs:287-302 | the tab to the left opens, the cursor and item count start over, and the menu is redrawn |
| BattleMenus.BattleMenu.TabRightPress | js/index/battle.mjs:304-319 | the tab to the right opens, the cursor and item count start over, and the menu is redrawn |
| BattleMenus.BattleMenu.CursorUp | js/index/battle.mjs:321-327 | one move up with wrap-around by the item count, staying valid |
| BattleMenus.BattleMenu.CursorDown | js/index/battle.mjs:329-335 | one move down with wrap-around by the item count, staying valid |
| BattleMenus.BattleMenu.HandleEnter | js/index/battle.mjs:337-349 | on the attack tab the chosen move is sent and the selection cleared; on any other tab nothing changes and nothing is sent |
| BattleMenus.BattleMenu.HandleSecondaryEnter | js/index/battle.mjs:351-365 | from the attack tab the move under the cursor is described alone; from the description the full tab bar returns; it fails iff there is no full ally to describe |
| BattleMenus.BattleMenu.ToggleDescription | js/index/battle.mjs:352-361 | the tab switch alone, failing only from the attack tab with no full ally |
| BattleMenus.MoveOwner | js/index/battle.mjs:355 | the ally whose moves are read is a full combatant stored under that UUID |
| BattleMenus.MoveAt | js/index/battle.mjs:356 | `moves[i]` is defined iff `i` is in range |
| BattleMenus.SecondaryToggle | js/index/battle.mjs:351-361 | attack goes to the description alone, the description back to attack with the full bar, other tabs stay |
| BattleMenus.SecondaryTwice | js/index/battle.mjs:351-361 | two secondary presses on the attack tab return to it with the full tab bar |
| BattleMenus.BattleMoveMessageParses | js/index/battle.mjs:339-342 | the move message splits back into its four fields and the move index reads back with `parseInt` |
| Cutscenes.Register | js/index/cutscene.mjs:14-20 | a scene type already in use throws "Scene type <type> is already in use." and changes nothing; otherwise the class is added and found under that type |
| Cutscenes.RegisterStandard | js/index/cutscene.mjs:53-104 | loading the module registers wait, move and dialogue without a clash |
| Cutscenes.GetByType | js/index/cutscene.mjs:22-29 | succeeds iff the type is a registered string, returning its class; anything else throws "Scene type <type> not found." with the type written as a template literal writes it |
| Cutscenes.StandardScenesFound | js/index/cutscene.mjs:22-29 | the three scene types are found under their own names |
| Cutscenes.NumField | js/index/cutscene.mjs:41 | a duration reads iff the field is a number, and is that number |
| Cutscenes.StrField | js/index/cutscene.mjs:86-87 | a text field reads iff it is a string, and is that string |
| Cutscenes.ParseScene | js/index/cutscene.mjs:31-35 | null is a TypeError; a parsed scene has the class its `scene_type` names and the fields its constructor reads from the object |
| Cutscenes.ParseSceneAsWritten | js/index/cutscene.mjs:55-62 | whatever loads as written is what the corrected reader loads and is never a move scene; every other scene loads the same |
| Cutscenes.ParseSceneRoundTrip | js/index/cutscene.mjs:31-104 | a scene of a registered type is rebuilt with the fields it was sent with |
| Cutscenes.MoveSceneNeverLoads | js/index/cutscene.mjs:59 | a move scene that the corrected reader rebuilds is rejected as written |
| Cutscenes.WaitScene.constructor | js/index/cutscene.mjs:39-42 | the scene holds its type and duration |
| Cutscenes.WaitScene.Update | js/index/cutscene.mjs:44-51 | `dt` comes off the wait, which goes on iff time remains |
| Cutscenes.CountdownElapsed | js/index/cutscene.mjs:44-51 | a wait of `d` seconds updated frame by frame runs exactly while less than `d` seconds have passed in all |
| Cutscenes.TravelElapsed | js/index/cutscene.mjs:72 | moving frame by frame at a fixed velocity covers velocity times the total time |
| Cutscenes.MoveArrives | js/index/cutscene.mjs:64-79 | a move updated until exactly its duration has passed ends at its destination |
| Cutscenes.FindByUuid | js/index/cutscene.mjs:65 | the first entity with a strictly equal UUID, or none when no entity has it |
| Cutscenes.MoveScene.constructor | js/index/cutscene.mjs:56-62 | the scene holds its type, UUID, destination and duration, and has no velocity yet |
| Cutscenes.MoveScene.Update | js/index/cutscene.mjs:64-79 | with no entity of its UUID nothing changes; otherwise the first update fixes the velocity reaching the destination, the entity moves by velocity times `dt`, and the scene goes on iff time remains |
| Cutscenes.DialogueScene.constructor | js/index/cutscene.mjs:84-89 | the scene holds its type, UUID and text, not yet shown |
| Cutscenes.DialogueScene.Update | js/index/cutscene.mjs:91-102 | a primary-key press is consumed and ends the dialogue and the scene; otherwise the first update shows the text for the speaker and later ones change nothing |
| Cutscenes.FromJson | js/index/cutscene.mjs:31-35 | succeeds iff the parse does, with the same error, and constructs the registered class with the parsed fields |
| Session.ClassifyFirstPrefix | js/index.mjs:130-224 | a message goes to the handler of the first prefix, in the handler's order, that it starts with, and to none when it starts with none |
| Session.PrefixKindsDistinct | js/index.mjs:130-224 | each prefix has its own handler, and every listed prefix has one |
| Session.WorldPayloadRoundTrip | js/index.mjs:132-135 | the world JSON the server sends is read back whole, whatever pipes its strings hold |
| Session.WorldPayloadAsWrittenLosesPipes | js/index.mjs:135 | as written, a pipe inside the world JSON reaches `JSON.parse` as a comma, while the whole-payload reading keeps it |
| Session.ParseJson | js/index.mjs:135 | `JSON.parse` succeeds iff the text is well formed, and a malformed text throws a SyntaxError |
| Session.ArrayLike | js/index.mjs:141-143 | the items a `length` loop visits: an array's items; undefined and null throw a TypeError, and only they |
| Session.Chars | js/index.mjs:143-145 | a string row is visited character by character |
| Session.Placed | js/index.mjs:143-144 | each cell of row `j` is paired with the position `(BLOCK_WIDTH*i, BLOCK_WIDTH*j)` |
| Session.ParseGrid | js/index.mjs:140-149 | an accepted grid has one row of tiles per JSON row |
| Session.GridPositions | js/index.mjs:144-145 | every tile of an accepted grid sits at its cell's position |
| Session.BuildRow | js/index.mjs:142-148 | the inner loop fails iff the row specification does, with its error, and otherwise builds tiles of exactly the specified shapes |
| Session.BuildMap | js/index.mjs:140-150 | the nested loops fail iff the grid specification does, with the first error, and otherwise build exactly the specified map |
| Session.NewEntities | js/index.mjs:151 | one new entity per record read, in order, each carrying its record's class, name, position, velocity and facing |
| Session.BuildEntities | js/index.mjs:151 | `map(Entity.fromJSON)` fails iff some item fails, with the first error; otherwise fresh entities matching each item, in order, entities in the server's form included |
| Session.NonEmpty | js/index.mjs:180 | `filter(Boolean)` keeps exactly the non-empty pieces |
| Session.PlayersFrom | js/index.mjs:170-176 | one player per started group of three pieces |
| Session.Received | js/index.mjs:171-175 | the names and positions the client keeps, one per server entry |
| Session.PlayersFromFields | js/index.mjs:170-176 | reading the server's pipe-separated name, x and y pieces gives back every name and position in order |
| Session.PlayersFromServer | js/index.mjs:167-176 | a `players` message gives the client every other player of its world, in order; with nobody to list, the loop still makes one player with an empty name |
| Session.TagTextFromServer | js/index.mjs:197-207 | a tag is told to the tagger as their tag, to the tagged player as a tag on them, and to everyone else with both names |
| Session.DialogueFromServer | js/index.mjs:182-185 | a `dialogue` message gives the speaker's UUID and the whole text, pipes and all |
| Session.StatusFromServer | js/index.mjs:215-220 | the client stores exactly the hit points the server reported |
| Session.ReadWorldHeader | js/index.mjs:133-138 | malformed JSON is a SyntaxError; a read world is the parsed non-null value and is current iff its version is "0.1.0" |
| Session.ServerWorldHeader | js/index.mjs:133-138 | a world message the server builds with `to_json_client(spawn_pos)` is read by the client as a world of its own version, with the player spawning at `spawn_pos` |
| Session.WorldEntities | js/index.mjs:151 | a world without `entities` is a TypeError |
| Session.WorldStageOf | js/index.mjs:132-157 | malformed JSON stops loading at the header with a SyntaxError |
| Session.LoadStage | js/index.mjs:139-156 | a current world fails at the tiles or the entities, or loads |
| Session.MoveString | js/index.mjs:238-257 | empty iff no arrow is held, and made only of l, r, u, d |
| Session.WalkOffset | js/index.mjs:238-257 | a frame moves the player `dist` along each held arrow: opposite arrows cancel, perpendicular ones add up diagonally |
| Session.WalkLetters | js/index.mjs:238-257 | the letters held, in order, move the player by the sum of their steps |
| Session.WalkAppend | js/index.mjs:238-257 | walking a prefix then one more held letter adds that letter's step |
| Session.StepMatchesServer | js/index.mjs:238-263 | each letter the client sends is one the server reads, as the unit vector along which the client moved |
| Session.MoveMessages | js/index.mjs:258-265 | at most one move message per frame, sent iff some arrow is held |
| Session.FacingAfter | js/index.mjs:241-256 | with no arrow held the facing is kept |
| Session.ToggleContext | js/index.mjs:332-359 | a dialogue or a battle ignores A and C; otherwise A opens or closes the log, else C the menu, and without either the context stays |
| Session.ToggleKey | js/index.mjs:345-357 | only A or C is consumed, and one is consumed exactly when a toggle applies |
| Session.ToggleTwice | js/index.mjs:332-359 | the same toggle twice returns from the map or from its own box, and goes from the other box to the map |
| Session.MenuArrowsCancel | js/index.mjs:289-296 | up and down in one frame leave a menu cursor where it was |
| Session.ChooseMessageFraming | js/index.mjs:310 | a choice splits into its three pieces and the option index reads back with `parseInt` |
| Session.Game.constructor | js/index.mjs:30-49 | no player, an empty world, no keys held, the map context, and a closed log, menu and dialogue box (with `initialize`'s two menu items) |
| Session.Game.KeyDown | js/index.mjs:66 | the key is added to the held set |
| Session.Game.KeyUp | js/index.mjs:67 | the key is removed from the held set |
| Session.Game.GetEntity | js/index.mjs:105-107 | found iff the UUID is undefined and there is an entity, and then it is the first |
| Session.Game.HandleWorld | js/index.mjs:132-157 | fails exactly at the loading stage that fails; before the tiles nothing changes, a tile failure leaves an empty map, an entity failure keeps the old entities and player, and a loaded world holds the built map, fresh entities and the player at the spawn point |
| Session.Game.LoadWorld | js/index.mjs:139-156 | a current world's map, then entities, then the player, each as its stage says |
| Session.Game.LoadPeople | js/index.mjs:151-156 | on an entity failure the entities and player are kept; otherwise the entities are rebuilt and the player stands at the spawn point |
| Session.Game.LoadTiles | js/index.mjs:139-150 | on failure the map is left empty; otherwise it holds exactly the specified grid |
| Session.Game.LoadEntities | js/index.mjs:151 | on failure the entities are kept; otherwise fresh entities matching each record |
| Session.Game.Spawn | js/index.mjs:152-156 | the player stands at the spawn point, the same object when one existed |
| Session.Game.HandleMovedTo | js/index.mjs:158-162 | throws iff there is no player; otherwise the player stands at the position the message gives |
| Session.Game.HandleSignText | js/index.mjs:163-166 | the whole text after the first pipe, pipes and all, goes first in the log, redrawn for the open or closed log |
| Session.Game.HandlePlayers | js/index.mjs:167-176 | the other players are replaced by fresh ones with exactly the names and positions listed, in order |
| Session.Game.HandleEntities | js/index.mjs:177-181 | on failure the entities are kept; otherwise fresh entities for each non-empty piece, in order |
| Session.Game.HandleDialogue | js/index.mjs:182-187 | the dialogue context opens with the box showing the text from the top for the speaker |
| Session.Game.HandleDialogueChoice | js/index.mjs:188-193 | the dialogue context opens with the box offering the pieces after the UUID, the first selected |
| Session.Game.HandleDialogueEnd | js/index.mjs:194-196 | back to the map with the dialogue box closed |
| Session.Game.HandleTag | js/index.mjs:197-207 | the tag, told from this player's side, goes first in the log |
| Session.Game.HandleBattleStatus | js/index.mjs:215-220 | throws with no battle and changes nothing; otherwise both hit points are stored |
| Session.Game.HandleMessage | js/index.mjs:130-225 | an unknown message changes nothing; the context becomes what the kind implies; a world, position, players or entities message leaves what its handler leaves (`WorldHandledBy`), a sign, tag or dialogue message what its handler leaves (`TextHandledBy`), and a battle message its battle state (`BattleHandledBy`) |
| Session.Game.HandleWorldMessage | js/index.mjs:132-181 | a world message loads as `HandleWorld` says and keeps the other players; a position message moves the player only; a players message replaces the other players with those listed; an entities message rebuilds the entities only; each keeps the game valid |
| Session.Game.HandleTextMessage | js/index.mjs:163-207 | a sign or tag message puts its text first in the log and keeps the dialogue box; a dialogue, choice or end message opens or closes the dialogue box as its handler does and keeps the log; the context moves as the kind implies |
| Session.Game.HandleBattleMessage | js/index.mjs:208-224 | a start opens a battle with unknown hit points, an end closes it, a status stores or throws, a move request changes nothing |
| Session.Game.Press | js/index.mjs:238-256 | one held arrow steps the player `dist` that way, turns it, and sets it moving |
| Session.Game.UpdateMap | js/index.mjs:228-274 | with no player nothing happens; otherwise the move message and any "interact" are sent, Z is consumed, and the player walks, faces and runs as the held keys say |
| Session.Game.Move | js/index.mjs:238-269 | the player walks the letters held by the frame's distance, faces the last arrow held, moves iff some arrow is held and runs iff shift is held too; the move message is sent |
| Session.Game.Steer | js/index.mjs:238-257 | the letters held, the walk they make, and the last facing held |
| Session.Game.SteerOne | js/index.mjs:238-242 | a held arrow adds its letter and moves and turns the player; an unheld one changes nothing |
| Session.Game.Walked | js/index.mjs:258-269 | a move is sent and the player runs iff shift is held; with no move it stops |
| Session.Game.UpdateLog | js/index.mjs:275-287 | the arrows and X are consumed; X clears the log to its instructions, else the arrows scroll it clamped |
| Session.Game.UpdateMenu | js/index.mjs:288-296 | the arrows are consumed and move the cursor with wrap-around, keeping it valid |
| Session.Game.UpdateDialogue | js/index.mjs:297-315 | the arrows and Z are consumed; Z sends the option chosen, or asks for the next line; the option cursor wraps |
| Session.Game.Toggles | js/index.mjs:332-359 | the context follows `ToggleContext`, the toggle key is consumed, and the box opened is focused and the box closed unfocused |
| Session.Game.Update | js/index.mjs:227-360 | the context after the frame is the toggled one; from the map the move message and any "interact" are sent and the player walks as the held keys say; from the log X clears it; from the menu the cursor moves as `MenuCursor` says; from the dialogue Z answers or asks for more; the log, menu and battle send nothing |
| Session.Game.UpdateContext | js/index.mjs:228-315 | the branch for the active context leaves exactly what that branch promises (the map step, the log step, the menu step or the dialogue step), the battle context changes no key, and A and C stay held as they were |
| LegacyTiles.Register | js/index.js:317-325 | a second registration of an ID throws "Tile ID <id> is already in use." and changes nothing; otherwise the class is added with its sprite and fill style |
| LegacyTiles.GetById | js/index.js:327-334 | succeeds iff the ID is a registered string, returning its class; every other ID throws "Tile ID <id> not found." with the ID written as a template literal writes it |
| LegacyTiles.ParseTile | js/index.js:336-344 | null is a TypeError; a parsed tile has the class its `tile_id` names and every nested ground tile sits at the same position |
| LegacyTiles.ShapeJson | js/index.js:336-344 | the JSON a tile arrives as is an object |
| LegacyTiles.ParseShapeRoundTrip | js/index.js:336-344 | a tile (with its ground tiles) sent in the form `tileFromJSON` reads is rebuilt as the same tile |
| LegacyTiles.Tile.constructor | js/index.js:294-296 | the tile holds its class, position and (for a sign) ground tile |
| LegacyTiles.Tile.Renders | js/index.js:298-310 | the last entry draws this tile at `pos.y`, or `pos.y + 27` for a sign, and there is one entry iff there is no ground tile |
| LegacyTiles.Tile.SpriteRequest | js/index.js:302-303 | an image is asked for iff the class has a sprite, and at most one |
| LegacyTiles.Tile.SignOverPlain | js/index.js:496-500 | a sign over a plain tile at its position draws that tile at the position and itself 27 below |
| LegacyTiles.FromJson | js/index.js:336-344 | succeeds iff the parse does, with the same error, and builds a fresh tile of exactly the parsed shape |
| LegacyTextBoxes.GameLog.constructor | js/index.js:546-552 | an empty log at the top, showing the wrapped "open the log" line |
| LegacyTextBoxes.GameLog.Focus | js/index.js:577-584 | the instructions and every message, newest first, are wrapped |
| LegacyTextBoxes.GameLog.Unfocus | js/index.js:586-595 | the prompt and the newest message are wrapped, from the top |
| LegacyTextBoxes.GameLog.AddMsg | js/index.js:554-561 | the message goes first; the open log redraws in full keeping its scroll, the closed one shows the preview ending in the new message |
| LegacyTextBoxes.GameLog.ScrollUp | js/index.js:563-568 | one line up, never above the first |
| LegacyTextBoxes.GameLog.ScrollDown | js/index.js:570-575 | one line down, stopping one line past the last |
| LegacyTextBoxes.GameLog.Clear | js/index.js:597-601 | no messages, the instructions alone, from the top |
| LegacyTextBoxes.ScrollDownPastEnd | js/index.js:570-575 | scrolling down from the last line moves past it, and the page drawn is then empty |
| LegacyTextBoxes.Menu.constructor | js/index.js:629-635 | no items, the cursor at 0, showing the wrapped "open the menu" line |
| LegacyTextBoxes.Menu.Focus | js/index.js:646-655 | the instructions and the items, the selected one marked, are wrapped |
| LegacyTextBoxes.Menu.Unfocus | js/index.js:657-662 | only the wrapped "open the menu" line |
| LegacyTextBoxes.Menu.AddItem | js/index.js:637-644 | the item goes last, the cursor stays (and becomes valid for the first item), and the text is redrawn for the open or closed menu |
| LegacyTextBoxes.Menu.CursorUp | js/index.js:664-670 | one item up, stopping at the first, still valid, and the menu redrawn |
| LegacyTextBoxes.Menu.CursorDown | js/index.js:672-678 | one item down, stopping at the last, still valid, and the menu redrawn |
| LegacyTextBoxes.Initialize | js/index.js:706-712 | a closed empty log and a closed menu offering Profile and Inventory, both 250 wide |
| LegacyClient.Classify | js/index.js:714-786 | a message goes to a handler iff it starts with that handler's prefix |
| LegacyClient.FirstChar | js/index.js:715-760 | a message starting with a prefix starts with the prefix's first character |
| LegacyClient.ParseGrid | js/index.js:723-732 | an accepted grid has one row of tiles per JSON row |
| LegacyClient.GridPositions | js/index.js:727-728 | every tile of an accepted grid sits at `(BLOCK_WIDTH*i, BLOCK_WIDTH*j)` |
| LegacyClient.BuildRow | js/index.js:725-731 | the inner loop fails iff the row specification does, with its error, and otherwise builds tiles of exactly the specified shapes |
| LegacyClient.BuildMap | js/index.js:722-733 | the nested loops fail iff the grid specification does, with the first error, and otherwise build exactly the specified map |
| LegacyClient.NewEntities | js/index.js:734 | one new entity per record read, in order, each carrying its record's class, uuid, position, velocity and facing and the inline height |
| LegacyClient.BuildEntities | js/index.js:734 | `map(entityFromJSON)` fails iff some item fails, with the first error; otherwise fresh entities matching each item, in order |
| LegacyClient.WorldGrid | js/index.js:719 | a world without `tiles` is a TypeError |
| LegacyClient.WorldEntities | js/index.js:734 | a world without `entities` is a TypeError |
| LegacyClient.WorldStageOf | js/index.js:715-740 | malformed JSON stops at the header with a SyntaxError, and a world of another version is ignored |
| LegacyClient.LoadStage | js/index.js:722-739 | a loaded world holds the spawn point, the grid specified and the entities specified |
| LegacyClient.Component | js/index.js:766-771 | a falsy component (missing, 0, false, "", null) is skipped; it is applied iff it is a non-zero number, and then it is that number |
| LegacyClient.PairPatch | js/index.js:765-780 | a falsy vector is skipped whole |
| LegacyClient.PatchOf | js/index.js:765-783 | null is a TypeError; the facing changes iff the object's `facing` is truthy |
| LegacyClient.UpdateOf | js/index.js:764 | a missing or malformed third piece is a SyntaxError; otherwise the patch it describes |
| LegacyClient.Patched | js/index.js:765-780 | only the patched components are replaced |
| LegacyClient.FacingOnlyPatch | js/index.js:781-783 | a facing-only patch leaves position and velocity alone and turns the entity |
| LegacyClient.PosPatchSkipsZero | js/index.js:765-772 | a coordinate sent as 0 is not applied, so an entity sent to x = 0 keeps its old x |
| LegacyClient.FindEntity | js/index.js:99-101 | the first entity with that UUID, and none iff no entity has it |
| LegacyClient.MapMessages | js/index.js:819-834 | at most the move and an "interact", which is sent iff space is held |
| LegacyClient.MoveIsNotInteract | js/index.js:819-826 | a move message is never "interact" |
| LegacyClient.ToggleContext | js/index.js:860-878 | in every context, L opens the log or returns to the map, else M the menu; without either the context stays |
| LegacyClient.ToggleKey | js/index.js:868-877 | exactly one of L and M is consumed when either is held, L first |
| LegacyClient.ToggleTwice | js/index.js:860-878 | the same toggle twice returns from the map or its own box, and goes from the other box to the map |
| LegacyClient.LogScroll | js/index.js:837-844 | the first line stays within `[0, lines]` |
| LegacyClient.MenuCursor | js/index.js:850-857 | the cursor stays valid and stops at either end |
| LegacyClient.Game.constructor | js/index.js:29-44 | no player, an empty world, no keys held, the map context, with `initialize`'s log and menu |
| LegacyClient.Game.KeyDown | js/index.js:59-62 | the key is added to the held set |
| LegacyClient.Game.KeyUp | js/index.js:59-62 | the key is removed from the held set |
| LegacyClient.Game.GetEntity | js/index.js:99-101 | the first entity with that UUID, and none iff no entity has it |
| LegacyClient.Game.HandleWorld | js/index.js:715-740 | fails exactly at the loading stage that fails; before the tiles nothing changes, a tile failure leaves an empty map, an entity failure keeps the old entities and player, and a loaded world holds the built map, fresh entities and the player at the spawn point |
| LegacyClient.Game.LoadWorld | js/index.js:722-739 | a current world's map, then entities, then the player, each as its stage says |
| LegacyClient.Game.LoadPeople | js/index.js:734-739 | on an entity failure the entities and player are kept; otherwise the entities are rebuilt and the player stands at the spawn point |
| LegacyClient.Game.LoadTiles | js/index.js:722-733 | on failure the map is left empty; otherwise it holds exactly the specified grid |
| LegacyClient.Game.LoadEntities | js/index.js:734 | on failure the entities are kept; otherwise fresh entities matching each record |
| LegacyClient.Game.Spawn | js/index.js:735-739 | the player stands at the spawn point, the same object when one existed |
| LegacyClient.Game.HandleMovedTo | js/index.js:741-745 | throws iff there is no player; otherwise the player stands where the message says |
| LegacyClient.Game.HandleSignText | js/index.js:746-749 | only the second piece, up to the next pipe, goes first in the log, redrawn for the open or closed log |
| LegacyClient.Game.HandlePlayers | js/index.js:750-759 | the other players are replaced by fresh ones with exactly the names and positions listed, in order |
| LegacyClient.Game.HandleUpdateEntity | js/index.js:760-785 | a malformed patch or unknown UUID throws and nothing changes; otherwise the entity with that UUID gets exactly the truthy fields of the patch |
| LegacyClient.Game.Apply | js/index.js:765-783 | position, velocity and facing become the patched ones |
| LegacyClient.Game.HandleMessage | js/index.js:714-786 | an unknown message changes nothing; a world message loads as `HandleWorld` says; a position message moves the player; a sign message logs the second piece; a players message replaces the other players with those listed; an entity patch applies as `HandleUpdateEntity` says; each leaves the parts of the game it does not handle unchanged |
| LegacyClient.Game.HandleOtherMessage | js/index.js:741-785 | each message other than `world` leaves what its handler promises and the rest of the game unchanged |
| LegacyClient.Game.UpdateMap | js/index.js:789-835 | with no player nothing happens; otherwise the move and any "interact" are sent, space is consumed, and the player walks, faces and runs as the held keys say |
| LegacyClient.Game.UpdateLog | js/index.js:836-848 | the arrows and C are consumed; C clears the log, else the arrows scroll it, stopping one past the end |
| LegacyClient.Game.UpdateMenu | js/index.js:849-857 | the arrows are consumed and move the cursor, stopping at either end |
| LegacyClient.Game.Toggles | js/index.js:860-878 | the context follows `ToggleContext`, the key is consumed, the box opened is focused and the box closed unfocused, and no messages or items change |
| LegacyClient.Game.Update | js/index.js:788-879 | the context after the frame is the toggled one; from the map the move and any "interact" are sent and the player walks as the held keys say; from the log C clears it; from the menu the cursor moves as `MenuCursor` says; only the map sends messages |
| LegacyClient.Game.UpdateContext | js/index.js:789-858 | the branch for the active context leaves exactly what that branch promises (the map step, the log step or the menu step), and L and M stay held as they were |
| EditorGrid.NewTile | js/tilemapeditor.js:303-308 | a new tile keeps its ID and data, and takes magenta when no colour is given |
| EditorGrid.DefaultTile | js/tilemapeditor.js:352-354 | the default tile is grass in grass's colour from the colour table, without data |
| EditorGrid.TileJson | js/tilemapeditor.js:310-315 | a saved tile is an object whose `tile_id` is the tile's ID and whose `tile_data` is present exactly when the data is truthy |
| EditorGrid.ColorNotSaved | js/tilemapeditor.js:310-315 | the colour never reaches the saved form: two tiles differing only in colour save alike |
| EditorGrid.Width | js/tilemapeditor.js:336-342 | the width is the first row's length, and 0 for a map without rows |
| EditorGrid.Height | js/tilemapeditor.js:344-350 | the height is the number of rows |
| EditorGrid.Defaults | js/tilemapeditor.js:392-394 | `n` tiles, every one the default tile |
| EditorGrid.NewGrid | js/tilemapeditor.js:319-334 | a new world has `max(h, 0)` rows, each of `max(w, 0)` default tiles |
| EditorGrid.NewGridShape | js/tilemapeditor.js:319-350 | a new world is a rectangle of default tiles whose width and height are the sizes asked for, and whose width is 0 without rows |
| EditorGrid.PrependEach | js/tilemapeditor.js:518-520 | every row gains one default tile in front and the row count is kept |
| EditorGrid.AppendEach | js/tilemapeditor.js:535-537 | every row gains one default tile at the end and the row count is kept |
| EditorGrid.Behead | js/tilemapeditor.js:425 | `shift` on a row drops its first tile and leaves an empty row empty |
| EditorGrid.Curtail | js/tilemapeditor.js:405 | `pop` on a row drops its last tile and leaves an empty row empty |
| EditorGrid.BeheadEach | js/tilemapeditor.js:525-527 | every row loses its first tile and the row count is kept |
| EditorGrid.CurtailEach | js/tilemapeditor.js:542-544 | every row loses its last tile and the row count is kept |
| EditorGrid.ExpandLeftGrid | js/tilemapeditor.js:514-521 | growing on the left turns an empty map into one row of one default tile, and otherwise puts a default tile in front of every row |
| EditorGrid.ExpandRightGrid | js/tilemapeditor.js:531-538 | growing on the right turns an empty map into one row of one default tile, and otherwise puts a default tile at the end of every row |
| EditorGrid.FirstEmpty | js/tilemapeditor.js:404-430 | the first row with no tile: every row before it has a tile, and it is empty unless it is past the last row |
| EditorGrid.ShrinkLeftGrid | js/tilemapeditor.js:523-529 | shrinking on the left, as intended, leaves a map of width 0 alone and otherwise takes the first tile of each row before the first empty row, keeping the row count and every later row |
| EditorGrid.ShrinkRightGrid | js/tilemapeditor.js:540-546 | shrinking on the right, as intended, leaves a map of width 0 alone and otherwise takes the last tile of each row before the first empty row, keeping the row count and every later row |
| EditorGrid.RectangleHasNoEmptyRow | js/tilemapeditor.js:523-546 | a rectangular map with width has no empty row, so shrinking it sideways does not throw |
| EditorGrid.ShrinkStopsAtEmptyRow | js/tilemapeditor.js:523-569 | shrinking `[[t]]` on the right and growing it at the top and the bottom gives `[[t], [], [t]]`; shrinking that sideways throws at row 1 and leaves row 2 its tile |
| EditorGrid.GrowAroundEmptyRow | js/tilemapeditor.js:548-569 | growing a single empty row at the top and at the bottom puts a one-tile row on either side of it |
| EditorGrid.ShrinkAroundEmptyRow | js/tilemapeditor.js:523-546 | on `[[t], [], [t]]` the sideways shrinks throw, and only row 0 loses its tile |
| EditorGrid.ShrinkLeftAsWritten | js/tilemapeditor.js:523-529 | as written, shrinking on the left takes a tile from row 0 only, because the first `popTileLeft` throws |
| EditorGrid.ShrinkRightAsWritten | js/tilemapeditor.js:540-546 | as written, shrinking on the right takes a tile from row 0 only, because the first `popTile` throws |
| EditorGrid.ExpandTopGrid | js/tilemapeditor.js:548-554 | growing at the top adds a first row of `max(1, width)` default tiles and keeps every old row below it |
| EditorGrid.ExpandBottomGrid | js/tilemapeditor.js:562-569 | growing at the bottom adds a last row of `max(1, width)` default tiles and keeps every old row above it |
| EditorGrid.ShrinkTopGrid | js/tilemapeditor.js:556-560 | shrinking at the top, as intended, drops the first row when there is one |
| EditorGrid.ShrinkTopAsWritten | js/tilemapeditor.js:556-560 | as written, shrinking at the top leaves the rows unchanged |
| EditorGrid.ShrinkBottomGrid | js/tilemapeditor.js:571-575 | shrinking at the bottom drops the last row when there is one |
| EditorGrid.ShrinkLeftUndoesExpandLeft | js/tilemapeditor.js:514-529 | on a map with rows, growing on the left and then shrinking there gives the same map back |
| EditorGrid.ShrinkRightUndoesExpandRight | js/tilemapeditor.js:531-546 | on a map with rows, growing on the right and then shrinking there gives the same map back |
| EditorGrid.ExpandEmptyThenShrink | js/tilemapeditor.js:514-546 | an empty map grown sideways is one tile, and shrinking that back leaves one empty row rather than an empty map |
| EditorGrid.ShrinkUndoesExpandVertically | js/tilemapeditor.js:548-575 | growing at the top or bottom and then shrinking there gives the same map back |
| EditorGrid.ExpandSidewaysKeepsRectangle | js/tilemapeditor.js:514-538 | growing a rectangular map sideways keeps it rectangular and makes it one tile wider |
| EditorGrid.ExpandVerticallyKeepsRectangle | js/tilemapeditor.js:548-569 | growing at the top or bottom makes the map one row higher, and keeps it rectangular unless its rows were all empty, in which case it no longer is |
| EditorGrid.ShrinkKeepsRectangle | js/tilemapeditor.js:523-575 | each intended shrink keeps a rectangular map rectangular and makes it one narrower (when it had width) or one lower (when it had rows) |
| EditorGrid.ShrinkSidewaysAsWrittenBreaksRectangle | js/tilemapeditor.js:404-430 | as written, shrinking sideways a rectangle of two or more rows with width leaves rows of two lengths, unlike the intended shrink |
| EditorGrid.ShrinkTopAsWrittenKeepsRows | js/tilemapeditor.js:378-382 | as written, shrinking at the top keeps the height, where the intended shrink lowers it by one |
| EditorGrid.SetCell | js/tilemapeditor.js:444-448 | setting a cell keeps the shape of the grid, puts the tile in that cell and changes no other cell |
| EditorGrid.PaintAll | js/tilemapeditor.js:155-192 | painting cells in turn keeps the shape of the grid |
| EditorGrid.PaintAllAppend | js/tilemapeditor.js:163 | painting one more cell is painting the earlier cells and then setting that one |
| EditorGrid.PaintAllCells | js/tilemapeditor.js:155-167 | after painting, a cell holds the tile exactly when it is listed, and its old tile otherwise |
| EditorGrid.PaintAllConcat | js/tilemapeditor.js:155-167 | painting two lists of cells one after the other is painting their concatenation |
| EditorWorld.TileCoord.constructor | js/tilemapeditor.js:31-34 | a coordinate holds the row and column it is made with |
| EditorWorld.TileCoord.ToJsonAsWritten | js/tilemapeditor.js:40-45 | as written, saving a coordinate always throws a ReferenceError |
| EditorWorld.TileCoord.ToJson | js/tilemapeditor.js:40-45 | as intended, a saved coordinate is read back by `fromJSON` as the same row and column |
| EditorWorld.WholeNumber | js/tilemapeditor.js:36-38 | a field is accepted exactly when it is present and a whole number, and then it is that number |
| EditorWorld.CoordFields | js/tilemapeditor.js:36-38 | `fromJSON` of null is a TypeError, and a read row and column are the object's `block_y` and `block_x` |
| EditorWorld.CoordFromJson | js/tilemapeditor.js:36-38 | `fromJSON` succeeds exactly when the fields can be read, and then makes a new coordinate at that row and column; otherwise it fails with the same error |
| EditorWorld.CoordRoundTrip | js/tilemapeditor.js:36-45 | a coordinate saved as intended and read back names the same cell |
| EditorWorld.Without | js/tilemapeditor.js:462 | deleting an ID keeps exactly the entries with other IDs, and never adds one |
| EditorWorld.Keep | js/tilemapeditor.js:465-471 | removing by a test keeps exactly the entries whose coordinate fails it, and never adds one |
| EditorWorld.FindByMembership | js/tilemapeditor.js:459-463 | with unique IDs, looking an ID up finds a coordinate exactly when that pair is stored |
| EditorWorld.SpawnSetFinds | js/tilemapeditor.js:450-457 | after `setSpawnpoint` the IDs stay unique, the ID maps to the new coordinate, and every other ID keeps its coordinate unless that coordinate matched, in which case it is gone |
| EditorWorld.SpawnSetKeepsCellsUnique | js/tilemapeditor.js:450-457 | setting a spawn point that first clears its cell keeps at most one spawn point per cell |
| EditorWorld.RemoveByNewCoord | js/tilemapeditor.js:465-471 | a freshly made coordinate matches no stored one by `===`, so removing by it keeps every entry, while removing by its cell clears that cell |
| EditorWorld.SetOnOccupiedCell | js/tilemapeditor.js:450-471 | as written, setting a spawn point on an occupied cell with a new coordinate object leaves two spawn points on that cell; matching by cell leaves only the new one |
| EditorWorld.KeepUnique | js/tilemapeditor.js:465-471 | removing entries keeps the IDs unique |
| EditorWorld.World.constructor | js/tilemapeditor.js:319-334 | a new world is the grid of `height` rows of `width` default tiles, with no spawn points |
| EditorWorld.World.AddRow | js/tilemapeditor.js:356-362 | an empty row is added at the bottom and the other rows are kept |
| EditorWorld.World.PopRow | js/tilemapeditor.js:364-368 | the last row goes; with no rows the table removal throws a TypeError and nothing changes |
| EditorWorld.World.AddRowTop | js/tilemapeditor.js:370-376 | an empty row is added at the top and the other rows are kept |
| EditorWorld.World.PopRowTopAsWritten | js/tilemapeditor.js:378-382 | as written, the rows never change, and the call throws exactly when there are none |
| EditorWorld.World.PopRowTop | js/tilemapeditor.js:378-382 | as intended, the first row goes; with no rows it throws a TypeError and nothing changes |
| EditorWorld.World.AddTile | js/tilemapeditor.js:392-402 | that row gains a default tile at its end and no other row changes |
| EditorWorld.World.PopTileAsWritten | js/tilemapeditor.js:404-410 | as written, the row loses its last tile and the call always throws: a NotFoundError while the row had two or more cells, a TypeError otherwise |
| EditorWorld.World.PopTile | js/tilemapeditor.js:404-410 | as intended, that row loses its last tile and no other row changes; on an empty row, removing the missing table cell throws a TypeError and nothing changes |
| EditorWorld.World.AddTileLeft | js/tilemapeditor.js:412-422 | that row gains a default tile in front and no other row changes |
| EditorWorld.World.PopTileLeftAsWritten | js/tilemapeditor.js:424-430 | as written, the row loses its first tile and the call always throws: a NotFoundError while the row had two or more cells, a TypeError otherwise |
| EditorWorld.World.PopTileLeft | js/tilemapeditor.js:424-430 | as intended, that row loses its first tile and no other row changes; on an empty row it throws a TypeError and nothing changes |
| EditorWorld.World.GetTile | js/tilemapeditor.js:432-434 | the tile read is one of that row's tiles |
| EditorWorld.World.SetTile | js/tilemapeditor.js:444-448 | on the grid the cell holds the new tile and no other cell changes; off the grid it throws a TypeError and the grid is unchanged |
| EditorWorld.World.RemoveSpawnpoint | js/tilemapeditor.js:440-463 | an unknown ID, and an ID whose cell is off the map (so its highlight cannot be found), throw a TypeError and change nothing; any other known ID is deleted; the IDs stay unique |
| EditorWorld.World.RemoveWhere | js/tilemapeditor.js:466-470 | iterating the map and deleting each matching entry as it is reached removes, in order, the matching entries before the first matching one off the map; it throws a TypeError exactly when there is such an entry, which stays with all after it |
| EditorWorld.World.RemoveNext | js/tilemapeditor.js:466-470 | one round of the loop: entry `i` is deleted if it matches, and the deletion throws, changing nothing, exactly when entry `i` is the first matching entry off the map |
| EditorWorld.FirstStuck | js/tilemapeditor.js:461-470 | the first entry that matches and whose cell is off the map: no earlier entry is both |
| EditorWorld.StuckOnlyOffCell | js/tilemapeditor.js:440-471 | when every match names one cell, removing by it never throws if the cell is on the map and then removes every match; off the map nothing is removed, and it throws exactly when something matches |
| EditorWorld.DeleteCurrent | js/tilemapeditor.js:466-470 | with unique IDs, deleting the ID of the entry the iteration has reached removes that entry alone: the entries already kept stay, then those not yet reached |
| EditorWorld.World.RemoveSpawnpointByCoordAsWritten | js/tilemapeditor.js:465-471 | as written, entries holding that very coordinate object are removed, up to the first such entry whose cell is off the map, which throws |
| EditorWorld.World.RemoveSpawnpointAt | js/tilemapeditor.js:465-471 | as intended, the spawn points on that cell are removed, up to the first one off the map, which throws |
| EditorWorld.World.SetSpawnpointAsWritten | js/tilemapeditor.js:450-457 | as written, `SetOutcome` with entries holding the same coordinate object: the ID's old entry and those entries go and the pair is stored, throwing where `removeSpawnpoint` or the highlight finds no table cell |
| EditorWorld.World.SetSpawnpoint | js/tilemapeditor.js:450-457 | as intended, `SetOutcome` with the spawn points on the cell: on the map the ID's old entry and any spawn point there go and the pair is stored; an old entry off the map throws and changes nothing; a cell off the map throws |
| EditorWorld.SetOutcomeStored | js/tilemapeditor.js:450-457 | when no removal throws, what is stored is `SpawnSet`, and the call throws exactly when the cell is off the map |
| EditorWorld.World.Unset | js/tilemapeditor.js:451-453 | the ID's entry, if any, is gone and the other entries are kept; an ID stored off the map throws and changes nothing |
| EditorWorld.ExpandLeft | js/tilemapeditor.js:514-521 | the loop leaves exactly the grid `ExpandLeftGrid` describes |
| EditorWorld.ExpandRight | js/tilemapeditor.js:531-538 | the loop leaves exactly the grid `ExpandRightGrid` describes |
| EditorWorld.ShrinkLeft | js/tilemapeditor.js:523-529 | the loop, with the intended `popTileLeft`, leaves exactly the grid `ShrinkLeftGrid` describes, and throws a TypeError exactly when the map has width and an empty row |
| EditorWorld.ShrinkRight | js/tilemapeditor.js:540-546 | the loop, with the intended `popTile`, leaves exactly the grid `ShrinkRightGrid` describes, and throws a TypeError exactly when the map has width and an empty row |
| EditorWorld.ShrinkLeftAsWritten | js/tilemapeditor.js:523-529 | as written, the handler throws exactly when the map has width, after shifting row 0 only |
| EditorWorld.ShrinkRightAsWritten | js/tilemapeditor.js:540-546 | as written, the handler throws exactly when the map has width, after popping row 0 only |
| EditorWorld.ExpandTop | js/tilemapeditor.js:548-554 | the new first row is filled to `max(1, width)` default tiles |
| EditorWorld.ExpandBottom | js/tilemapeditor.js:562-569 | the new last row is filled to `max(1, width)` default tiles |
| EditorWorld.ShrinkTopAsWritten | js/tilemapeditor.js:556-560 | as written, the rows are unchanged |
| EditorWorld.ShrinkTop | js/tilemapeditor.js:556-560 | as intended, the first row goes when there is one |
| EditorWorld.ShrinkBottom | js/tilemapeditor.js:571-575 | the last row goes when there is one |
| EditorContext.RectCellsMembers | js/tilemapeditor.js:157-165 | the fill loops visit a cell exactly when it lies in the inclusive rectangle |
| EditorContext.FillPaintsRectangle | js/tilemapeditor.js:155-167 | filling paints exactly the cells of the inclusive rectangle between the corners and leaves the rest; corners clicked in the other order paint nothing |
| EditorContext.BresenhamStep | js/tilemapeditor.js:182-190 | one step of the line loop keeps the column and row counts within `dx` and `dy`, keeps the error tied to them, and advances at least one of them |
| EditorContext.LineStep | js/tilemapeditor.js:179-191 | an iteration that has not reached the end keeps the loop invariant and shortens the distance left |
| EditorContext.Advance | js/tilemapeditor.js:182-190 | the step on `err`, `x1` and `y1` keeps the loop invariant and shortens the distance left |
| EditorContext.LineHere | js/tilemapeditor.js:179-181 | the current pixel lies between the two ends, and is the end exactly when both axes are done |
| EditorContext.LineEnd | js/tilemapeditor.js:180-181 | drawing the end pixel completes a line from the first end to the second |
| EditorContext.NextModeCycles | js/tilemapeditor.js:481-511 | a click moves the two-click tools between their first and second click, hands the picker over to drawing, keeps every other tool, and never leads into the fill mode |
| EditorContext.TwoColumnSelectionThrows | js/tilemapeditor.js:105-106 | a selection across both columns of a two-column map lies on the map, yet highlighting it throws |
| EditorContext.Context.constructor | js/tilemapeditor.js:56-60 | a new context draws, shows the map and has nothing selected |
| EditorContext.Context.DrawTile | js/tilemapeditor.js:148-151 | the tile drawn has the inputs' ID and colour and no data |
| EditorContext.Context.SetSelection | js/tilemapeditor.js:82-84 | as intended, the new selection replaces the old one |
| EditorContext.Context.ClearSelection | js/tilemapeditor.js:111-139 | as intended, nothing is selected afterwards |
| EditorContext.Context.SetSelectionAsWritten | js/tilemapeditor.js:82-109 | as written, a stored selection whose highlighting throws can never be replaced; otherwise the new one is stored and the call throws exactly when its own highlighting does |
| EditorContext.Context.ClearSelectionAsWritten | js/tilemapeditor.js:111-139 | as written, clearing throws a TypeError and keeps the selection exactly when its highlighting throws, and otherwise clears it |
| EditorContext.Context.SetDrawTile | js/tilemapeditor.js:141-146 | the tile drawn next has the picked tile's ID and colour, and not its data |
| EditorContext.Context.DrawPixel | js/tilemapeditor.js:148-153 | on the grid the cell takes the drawn tile and no other cell changes; off the grid it throws a TypeError and nothing changes |
| EditorContext.Context.PaintRow | js/tilemapeditor.js:160-164 | the inner loop paints the row's cells from the first column on, up to the first one off the grid, where it throws a TypeError; it succeeds iff every cell of the row is on the grid |
| EditorContext.Context.PaintCell | js/tilemapeditor.js:161-163 | one iteration of the inner loop: the cell is painted and the loop goes on, or it is off the grid and the row throws with nothing more painted |
| EditorContext.RowPainted | js/tilemapeditor.js:160-164 | when the inner loop stops, the grid holds exactly the row's cells up to the first off the grid painted, and it stopped early iff one was off the grid |
| EditorContext.Context.FillSelection | js/tilemapeditor.js:155-167 | without a selection nothing changes; with one, the cells of its rectangle are painted row by row up to the first off the grid, where it throws a TypeError, and it succeeds iff every cell is on the grid |
| EditorContext.Context.FillRow | js/tilemapeditor.js:157-165 | one row of the fill: either the rectangle is painted through this row, or the fill throws at the first cell of the whole rectangle off the grid |
| EditorContext.FillInGrid | js/tilemapeditor.js:155-167 | on a rectangular map holding both corners every cell of the selection is on the map, so the fill never throws |
| EditorContext.ShrunkSelectionFillStops | js/tilemapeditor.js:571-575 | after `shrinkBottom`, a selection from (0, 0) to (1, 0) made on a two-row map reaches past the last row: the fill paints one cell and then throws |
| EditorContext.Context.Plot | js/tilemapeditor.js:180 | each pixel on the grid is one more cell painted with the drawn tile; a pixel off the grid is where the line stops, with a TypeError |
| EditorContext.Context.DrawLine | js/tilemapeditor.js:169-192 | the grid is painted with the pixels of `Line` between the two coordinates, in order, up to the first off the grid, where it throws a TypeError; it succeeds iff every pixel is on the grid |
| EditorContext.Context.LineIteration | js/tilemapeditor.js:179-191 | one iteration of the line loop: either the line is finished (the end reached, or a pixel off the grid and a TypeError) or the loop invariant holds for the next pixel with less distance left |
| EditorContext.Context.SecondLineClick | js/tilemapeditor.js:498-503 | with a first click recorded the line to the clicked cell is drawn as `DrawLine` says; the tool goes back to its first click unless drawing threw |
| EditorContext.LineIsLine | js/tilemapeditor.js:169-192 | `drawLine`'s pixels form a line: from the first coordinate to the second, reaching it only at the end, each pixel one step (with diagonals) from the one before, one pixel more than the larger distance, all inside the box the two span |
| EditorContext.LineInGrid | js/tilemapeditor.js:169-192 | on a rectangular map holding both ends every pixel of the line is on the map, so drawing it never throws |
| EditorContext.Context.SpawnpointClick | js/tilemapeditor.js:504-510 | a click in add mode with an ID typed has the outcome `SetOutcome` gives on the clicked cell; in remove mode every spawn point on the cell goes and nothing throws |
| EditorContext.Context.HandleClick | js/tilemapeditor.js:474-512 | a click keeps the world valid and the length of every row, moves the mode as `NextMode` says unless it throws, draws on the clicked cell in draw mode, draws the line from the first click on the second line click (painting up to the first pixel off the map, then a TypeError), sets a spawn point as `SetOutcome` says (a TypeError, changing nothing, when the ID is stored off the map), changes spawn points only in the spawn-point modes, and changes tiles only when drawing or finishing a line |
| EditorContext.Context.Press | js/tilemapeditor.js:252-300 | each toolbar button sets the mode or view it names, a tile button loads that tile's colour from the table, clear empties the selection, fill paints as `FillSelection` says (throwing at the first cell off the map), and no button leads into the fill mode |
| ProtoIndex.KindOf | index.js:189-202 | the world handler reads g as grass, G as wild grass, w as a wall and p as a portal, and each of these letters only |
| ProtoIndex.RowObjsMembers | index.js:187-202 | an object of a kind stands at a cell of a row exactly when that row's letter there is read as that kind |
| ProtoIndex.RowObjsInRow | index.js:188 | every object read from row `j` stands `j` blocks down |
| ProtoIndex.MapObjsMembers | index.js:185-204 | after the world handler an object of a kind stands at cell `(i, j)` exactly when row `j` has that kind's letter at column `i`, and nothing else is placed |
| ProtoIndex.BlankRow | index.js:189-202 | a row none of whose letters is read places nothing |
| ProtoIndex.MoveStrOrder | index.js:226-241 | the move string is the held arrows in the order left, up, right, down, while the current client orders them left, right, up, down |
| ProtoIndex.MoveStrLetters | index.js:226-241 | a letter is in the move string exactly when its arrow is held |
| ProtoIndex.MoveMessages | index.js:242-248 | a frame sends one message exactly when an arrow is held, and none otherwise |
| ProtoIndex.WalkNet | index.js:226-241 | in a frame the player moves the frame's distance along each held arrow, opposite arrows cancel, and it ends where the current client's order of letters would take it |
| ProtoIndex.Player.constructor | index.js:102-104 | a new player stands where it is made |
| ProtoIndex.Player.Move | index.js:91-93 | moving adds the offset to the position |
| ProtoIndex.Player.MoveTo | index.js:95-97 | moving to a point puts the player there |
| ProtoIndex.Game.constructor | index.js:19-27 | a new game holds no keys, no player, no objects and has sent nothing |
| ProtoIndex.Game.KeyDown | index.js:43 | a pressed key joins the held keys |
| ProtoIndex.Game.KeyUp | index.js:44 | a released key leaves the held keys |
| ProtoIndex.Game.ReadRow | index.js:187-203 | the inner loop appends exactly the objects the row's letters place |
| ProtoIndex.Game.ReadRows | index.js:186-204 | the outer loop appends exactly the objects of every row, row after row |
| ProtoIndex.Game.HandleWorld | index.js:179-209 | the world message replaces the objects by those of its rows and puts the player at the spawn point, keeping the player object when there is one and making a new one otherwise |
| ProtoIndex.Game.HandleMovedTo | index.js:210-215 | the player jumps to the position the message names, and with no player the handler throws a TypeError |
| ProtoIndex.Game.HandleWSMessage | index.js:177-216 | a world message always rebuilds the objects and places the player; a movedto message only moves the player and throws without one; every other message changes nothing |
| ProtoIndex.Game.Update | index.js:218-249 | with a player, the player walks one step per held arrow and the frame's move message, fast while shift is held, is sent; with no player nothing is sent and the frame throws exactly when an arrow is held |
| ProtoIndex.Game.WalkArrows | index.js:226-241 | the four arrow tests build the move string and walk the player by it, and throw exactly when an arrow is held with no player |
| ProtoIndex.Game.Arrow | index.js:226-229 | a held arrow adds its letter and moves the player one step that way, and throws with no player; an arrow not held changes nothing |
| Text.TrimStart | main.py:117-118 | what is left is a suffix, every character dropped in front of it is white space, and it starts with a character that is not white space |
| Text.TrimEnd | main.py:117-118 | what is left is a prefix, every character dropped after it is white space, and it ends with a character that is not white space |
| ProtoServer.ParseDigits | main.py:117-118 | `int` reads a run of decimal digits as their value |
| ProtoServer.ParseNegDigits | main.py:117-118 | `int` reads a minus sign before a run of decimal digits as the negated value |
| ProtoServer.PyIntRoundTrip | main.py:117-118 | `int` reads back every integer `str` writes |
| ProtoServer.PyIntBlank | main.py:117-118 | empty or blank text is not a number: `int` raises ValueError |
| ProtoServer.CellObjMembers | main.py:123-129 | one letter places an object exactly when it is g (grass) or G (wild grass), at its own cell measured from the origin |
| ProtoServer.LoadLine | main.py:123-129 | the inner loop of `load_world` yields exactly the objects the row's letters place, left to right |
| ProtoServer.LoadWorld | main.py:115-130 | the loops of `load_world` build exactly the world the reading function describes, errors included |
| ProtoServer.LoadRows | main.py:122-129 | the outer loop yields exactly the objects of every row, row after row |
| ProtoServer.LineObjsMembers | main.py:123-129 | a letter of a row places an object of a kind exactly when it is that kind's letter |
| ProtoServer.MapObjsMembers | main.py:120-129 | a loaded world has an object of a kind at cell `(i, j)`, measured from the spawn point, exactly when row `j` has that kind's letter at column `i` |
| ProtoServer.OriginCentresSpawnCell | main.py:119 | the origin is the centre of the spawn cell: that cell's corner lies half a block up and left of it |
| ProtoServer.LoadWorldText | main.py:115-130 | loading a world text made of a spawn point and rows gives back that spawn point and the objects of those rows |
| ProtoServer.WorldOfParts | main.py:116-120 | when both spawn pieces are integers, the world is the objects of the remaining pieces measured from the spawn cell's centre |
| ProtoServer.Player.constructor | main.py:62-66 | a new player stands where it is made, in the world it is given, with no move yet |
| ProtoServer.Player.Move | main.py:59-60 | moving adds the offset to the position |
| ProtoServer.MoveTime | main.py:163 | a move is worth the time since the last one, capped at a tenth of a second |
| ProtoServer.MovePieces | main.py:156-158 | a `move` message always has the second piece the handler reads |
| ProtoServer.Game.constructor | main.py:15-16 | a new game has no players |
| ProtoServer.Game.GetPlayer | main.py:18-19 | a name yields a player exactly when it is registered, and then its own player |
| ProtoServer.Game.SetPlayer | main.py:21-22 | the name maps to the player afterwards and every other name keeps its player |
| ProtoServer.Game.MovePlayer | main.py:24-28 | a registered player moves by the offset and its new position is returned; an unknown name raises AttributeError |
| ProtoServer.Game.Connect | main.py:147-150 | a connecting user gets a new player at (0, 0) in the starting world, and every other user keeps theirs |
| ProtoServer.Game.ParseMessage | main.py:155-168 | a move in one of the four directions moves the sender by the speed times the capped time since its last move, records the time, and answers with the new position; any other message changes nothing; an unknown sender raises AttributeError |
| ProtoServer.MoveLetters | main.py:46-53 | a move message is understood exactly when its second piece is one of l, r, u and d, so a multi-letter move string is ignored |
| ProtoServer.MoveBounded | main.py:163-166 | one move carries the player along one axis only, and at most the speed times a tenth of a second |
| ProtoPlay.GrassOnly | play.js:161-166 | this prototype's world handler places something only for g, and that is grass |
| ProtoPlay.WorldObjsMembers | play.js:152-168 | grass stands at cell `(i, j)`, measured from the spawn cell's centre, exactly when row `j` has a g at column `i`, and nothing else is placed |
| ProtoPlay.OriginCentresSpawnCell | play.js:156 | the spawn cell's corner lies half a block up and left of the origin |
| ProtoPlay.MoveMessages | play.js:181-198 | a frame sends one message per held arrow |
| ProtoPlay.MoveMessagesAt | play.js:181-198 | the frame's `k`-th message names its `k`-th held arrow |
| ProtoPlay.MoveStrAlphabet | play.js:181-198 | every letter a frame sends is one of l, u, r and d |
| ProtoPlay.ServerReadsFrame | play.js:181-198 | the prototype server understands every message a frame sends: each names a direction, and the client stepped along it by the frame's distance |
| ProtoPlay.Game.constructor | play.js:19-26 | a new game holds no keys, no player, no objects and has sent nothing |
| ProtoPlay.Game.KeyDown | play.js:44 | a pressed key joins the held keys |
| ProtoPlay.Game.KeyUp | play.js:45 | a released key leaves the held keys |
| ProtoPlay.Game.Initialize | play.js:177-179 | a new player stands at (0, 0) |
| ProtoPlay.Game.ReadRow | play.js:160-167 | the inner loop appends exactly the grass of the row |
| ProtoPlay.Game.ReadRows | play.js:159-168 | the outer loop appends exactly the grass of every row |
| ProtoPlay.Game.HandleWorld | play.js:152-168 | the world message replaces the objects by the grass of its rows and leaves the player alone |
| ProtoPlay.Game.HandleMovedTo | play.js:169-174 | the player jumps to the position the message names, and with no player the handler throws a TypeError |
| ProtoPlay.Game.HandleWSMessage | play.js:151-175 | a world message rebuilds the objects; a movedto message only moves the player and throws without one; every other message changes nothing |
| ProtoPlay.Game.Update | play.js:181-198 | with a player, one move message per held arrow is sent and the player walks one step each way; with no player the first held arrow's message goes out and then the frame throws |
| ProtoPlay.Game.Arrow | play.js:182-185 | a held arrow sends its message and then moves the player one step, throwing after the send when there is no player; an arrow not held changes nothing |

## Left out

- Drawing is out: everything drawn on the canvas, the DOM and its styles, `makePage`, `scale`/`unscale`, the username notice, `js/index/death.mjs` and `js/index/slider.mjs`. The draw lists, their depth keys and the sprites chosen are modelled; the pixels are not.
- The editor's DOM table and its class-list highlighting are out, along with its button labels and styles. Only the case where highlighting throws is kept, because it decides whether a selection changes.
- The editor's `importMap`, `makeMap` and `makeOutput` are out: they read or write DOM inputs and call `JSON.parse` and `JSON.stringify`. The grid and spawn-point operations they are built from are modelled.
- Networking and the main loops are out: websocket setup, `requestAnimationFrame`, `setTimeout` polling and all asyncio and websockets code, including `server/main.py`. Messages sent are returned as a list of strings.
- File I/O is out: `server/loadworld.py` and `server/storeworld.py`. JSON arrives already parsed. `JSON.parse`, `parseFloat`, `json.dumps` and the writing of floats are parameters. Integers are written and read by the `Decimal` module.
- Randomness, clocks and text measurement are parameters:
  - the random sprite choice;
  - the battle tie-break and the AI's move choice;
  - `time.time()` and `time.monotonic()`;
  - `ctx.measureText`;
  - whether an image has loaded.
- Floating-point geometry is out: `dist_to`, `norm` and `angle_to`, the field-of-view test of `server/player.py`, and `getScaledWidth`. The Walker's speed is a given non-negative number. Numbers are modelled as mathematical reals, so rounding is not modelled.
- `js/index/compendium.js` and `js/index/bokedex.js` are out: they are jQuery UI pages.
- The battle part of the current client is only partly modelled. As written, `js/index.mjs:3` imports `Battle`, which `js/index/battle.mjs` does not export (it exports only `BattleMenu`, :457) and which is defined nowhere, so the client fails to load (see Findings). The model takes the client as if it loaded. `battlemovereq` and the `Battle` object are not modelled: `js/index.mjs:210-214` builds them with constructors that do not exist or do not match `js/index/battle.mjs`. The battle state the client keeps is reduced to the hit points it is told.
- Session.Game.Update: does not model the battle branch of `update` (js/index.mjs:316-330). In the battle context, arrows and Z would act on a battle menu that no modelled message creates, so the model sends nothing there.
- Session.Game.UpdateContext: the same battle branch is left out, for the same reason.
- KeyBindings and TextBoxes: the help texts naming the bound keys are parameters. As written they cannot be built: they call `game.keyBinding.getKeyBindPretty` (js/index/textbox.mjs:46, :88-90, :98, :167-169, :180), no key binding defines that method (js/index/keybinding.mjs), and `js/index.mjs` never sets `game.keyBinding`, so each of those calls throws a TypeError. The model assumes the help texts build.
- BattleMenus.RedrawFailure, BattleMenus.BattleMenu.Redraw, BattleMenus.BattleMenu.HandleMoveRequest, BattleMenus.BattleMenu.TabLeftPress, BattleMenus.BattleMenu.TabRightPress, BattleMenus.BattleMenu.CursorUp, BattleMenus.BattleMenu.CursorDown and BattleMenus.BattleMenu.HandleSecondaryEnter: assume the help text of the attack tab (js/index/battle.mjs:268-270) and of the description tab (:281) builds. As written, `getKeyBindPretty` throws there (see Findings and BattleMenus.RedrawFailureAsWritten), so these would throw a TypeError whenever `redraw` reaches the attack tab with an ally selected or the description tab with a move to describe.
- ClientTiles.GetById, ClientEntities.GetById, LegacyTiles.GetById, LegacyEntities.GetById and Cutscenes.GetByType: the thrown message holds the ID as `JsText.TemplateText` writes it (js/index/tile.mjs:57, js/index/entity.mjs:63, js/index/entity.js:56, js/index.js:273, js/index.js:332, js/index/cutscene.mjs:27). For an ID that is a number with a fraction, or of magnitude 10^21 or more (or an array holding one), the message leaves the ID's text out, because JavaScript's shortest and exponent number forms are not modelled.
- The client's `js/index/geometry.mjs` has no `Vec.fromJSON`, `div` or `mul`, but `entity.mjs` and `cutscene.mjs` call them. The corrected readers give them the evident meaning. `Vec.fromJSON` reads `new Vec(o.x, o.y)`, as the older client does, but only when `x` and `y` are numbers (see ClientJson.VecField below).
- `server/game.py` has no `set_player`, `send_world`, `send_players`, `send_sign`, `send_dialogue` or `send_dialogue_end`, but `server/tile.py` and `server/entity.py` call them. The model keeps only the state changes those callers make and the events they would send.
- No tile class chooses its sprite from the tiles around it: a tile's sprite depends on its own class only, and for a floor tile on a random pick among its images.
- ServerWorld.LoadEntities: parses every entity record before building any entity, where the source builds each one as it parses it. A failure discards the entities already built, so the outcome is the same.
- LegacyClient.Component: a truthy field of an `updateentity` patch that is not a number is a TypeError here, where JavaScript would store the value as it is.
- EditorWorld.CoordFromJson: accepts only whole numbers for `block_x` and `block_y`. JavaScript would store any value in the coordinate.
- Entities.VecFromJson: refuses, with a TypeError, a position whose `x` or `y` is not a JSON number. `Vec(d["x"], d["y"])` in Python would store any value.
- ClientJson.VecField: refuses, with a TypeError, a vector whose `x` or `y` is not a number, where `new Vec(o.x, o.y)` stores any value. The readers built on it refuse the same inputs: LegacyEntities.ParseEntity (its `pos` and `velocity`), ClientEntities.ParseEntity, Session.ReadWorldHeader (the spawn point) and Cutscenes.ParseScene (a move's destination).
- ServerWorld.AsGrid: refuses, with a TypeError, a tile grid that is not a list of lists. Python's `for row in ...` walks a dict's keys or a string's characters instead: an empty dict or string (`"tiles": {}`, `""`) loads as an empty grid, and a row that is an empty dict or string (`[{}]`) as an empty row. A row or a grid that holds a key or a character reaches `Tile.from_json` with a string and fails there with a TypeError, as the model fails at once.
- ServerWorld.AsList: refuses, with a TypeError, an entity list that is not a JSON list, where Python would iterate a dict's keys or a string's characters: an empty dict or string loads as no entities.
- ServerWorld.AsInt: refuses, with a TypeError, a block coordinate that is not a whole number. `TileCoord(d["block_x"], d["block_y"])` stores any value.
- ServerWorld.SpawnFieldsFromJson: refuses a spawn point whose coordinates AsInt refuses, for the same reason.
- Cutscenes.NumField: refuses, with a TypeError, a duration that is not a number. `cutscene.mjs` stores whatever the field holds.
- Cutscenes.StrField: refuses, with a TypeError, a UUID or text field that is not a string. `cutscene.mjs` stores whatever the field holds.
- Cutscenes.MoveScene.Update: requires a velocity already fixed or a non-zero duration. `cutscene.mjs:70` divides by the duration without checking it, which in JavaScript gives an infinite or NaN velocity; reals have no such values.
- Cutscenes.MoveScene.Update: looks the moving entity up among `LegacyEntities.Entity` objects, which carry a UUID. The entities of `entity.mjs` have no UUID, so there the lookup could never succeed.
- JsText.TemplateText: a value that is a number with a fraction, or of magnitude 10^21 or more, is not turned into text. JavaScript writes those in its shortest or exponent form, which is not modelled, so ClientEntities.Entity.GetSprite requires a name that is modelled.
- Decimal.JsParseInt: does not skip the white space `parseInt` skips in front of the text. The integers it reads are written by the server, with no white space.
- Battle.PlayerAIBattle.constructor and ServerWorld.World.CreateBattle: require the two combatants to be distinct objects. `server/world.py:157-161` and `server/battle.py` never check this. The model needs them apart because each one's hit points change on its own, and a battle of a combatant against itself is not modelled.
- EditorContext.Context.HandleClick: requires the clicked cell to be on the map and the map to be valid, because a click on the DOM table can only hit an existing cell. The map need not be rectangular, and a stored selection need not lie on the map.
- EditorWorld.World.RemoveSpawnpoint, EditorWorld.World.RemoveWhere, EditorWorld.World.SetSpawnpoint and EditorWorld.World.SetSpawnpointAsWritten: take the spawn-point table to have the map's shape, so a cell is in the table exactly when it is on the map. The intended operations keep the two alike. The as-written `popTile`, `popTileLeft` and `popRowTop` change one and not the other; after them, the model still tests the map.
- EditorContext.Context.SetSelectionAsWritten and EditorContext.Context.ClearSelectionAsWritten: model the highlighting only on a rectangular map with the stored selection on it, where the column test at js/tilemapeditor.js:105 and :134 is the only way it throws. On a map that `shrinkBottom` or `shrinkRight` left smaller than the selection, the highlighting would also throw at a missing row or cell; that case is not modelled.
- The editor's FILL mode is never entered by any button or click. It is modelled as a mode that nothing leads into.
- The editor's `spawn_id` input is a parameter of the click. The `tile_id` and `tile_color` inputs are fields of the context.
- ProtoServer: `STARTING_WORLD_TEXT` and `get_world` are constants and a lookup. `load_world` is modelled on any text. `run`'s `send_world` is I/O.
- Python's `int()` on text, in the prototype server, reads ASCII digits and an optional sign, with the white space `str.strip` removes (Text.IsSpace, Unicode white space included) around them. Python's underscores and non-ASCII digits are not modelled.
- PlayerState.Player.Animate and PlayerState.Player.GetSprite: `js/index/player.js:6` imports `Animation` from `js/index/render.js`, which is not part of this model (the current client's `js/index/render.mjs` is a different file). The walks are taken to be the single-step animation of `js/index.js` (LegacyRender.Animation), whose frames the player module builds the same way.
- LegacyClient.Game.constructor: models `new Game(ws, username)` followed by `initialize()`. The log and menu that `initialize` creates (`LegacyTextBoxes`) are passed in. The moment between the two calls, while `gameLog` and `menu` are still null, is not modelled.

## Findings

| source | as written | input that shows it | evidently intended | confidence | as-written member | corrected member |
|---|---|---|---|---|---|---|
| js/tilemapeditor.js:379 | `popRowTop` calls `this.tiles.unshift()`, which adds no row and removes none | shrinking a map of two rows at the top: both rows stay, while the DOM table loses its first row | `this.tiles.shift()`, removing the first row | high; not executed | EditorWorld.World.PopRowTopAsWritten, EditorGrid.ShrinkTopAsWrittenKeepsRows | EditorWorld.World.PopRowTop, EditorGrid.ShrinkUndoesExpandVertically |
| js/tilemapeditor.js:409 | `popTile` removes the map row's `lastChild` from the spawn-point row, which does not hold it | shrinking on the right a map of two rows two cells wide: row 0 loses a tile, then the removal throws, and row 1 keeps both tiles | `spawnpointRow.removeChild(spawnpointRow.lastChild)` | high; not executed | EditorWorld.World.PopTileAsWritten, EditorGrid.ShrinkSidewaysAsWrittenBreaksRectangle | EditorWorld.World.PopTile, EditorGrid.ShrinkRightUndoesExpandRight |
| js/tilemapeditor.js:429 | `popTileLeft` removes the map row's `firstChild` from the spawn-point row | shrinking on the left a map of two rows two cells wide: only row 0 loses a tile before the call throws | `spawnpointRow.removeChild(spawnpointRow.firstChild)` | high; not executed | EditorWorld.World.PopTileLeftAsWritten, EditorWorld.ShrinkLeftAsWritten | EditorWorld.World.PopTileLeft, EditorGrid.ShrinkLeftUndoesExpandLeft |
| js/tilemapeditor.js:40-45 | `TileCoord.toJSON` names `colNum` and `rowNum` without `this.` | saving any coordinate, for example `new TileCoord(0, 0)`: a ReferenceError | `this.colNum` and `this.rowNum`, which `fromJSON` reads back | high; not executed | EditorWorld.TileCoord.ToJsonAsWritten | EditorWorld.TileCoord.ToJson, EditorWorld.CoordRoundTrip |
| js/tilemapeditor.js:467 | `removeSpawnpointByCoord` compares coordinates with `===`, but every click makes a new coordinate object | a spawn point "a" on cell (0, 0), then a click with "b" on (0, 0): both stay on one cell; a remove click on (0, 0) removes nothing | compare the row and column | medium; not executed | EditorWorld.SetOnOccupiedCell, EditorWorld.RemoveByNewCoord | EditorWorld.World.SetSpawnpoint, EditorWorld.World.RemoveSpawnpointAt, EditorWorld.SpawnSetKeepsCellsUnique |
| js/tilemapeditor.js:105 | the highlighting tests `s.upperLeft.colNum` before touching the cell right of `s.lowerRight` | on a map two cells wide, selecting (0, 0) to (0, 1): column 2 does not exist and `setSelection` throws; the same test at line 134 makes `clearSelection` throw, so that selection can never be cleared | test `s.lowerRight.colNum < map.tiles[0].length-1` | high; not executed | EditorContext.TwoColumnSelectionThrows, EditorContext.Context.SetSelectionAsWritten | EditorContext.Context.SetSelection, EditorContext.Context.ClearSelection |
| js/index/entity.mjs:71-72 | `Entity.fromJSON` calls `Vec.fromJSON`, which `js/index/geometry.mjs` does not define | any `entities` message naming a registered entity: a TypeError, so no entity is ever loaded | read the vector as `new Vec(o.x, o.y)`, as js/index/entity.js:64-65 does | high; not executed | ClientEntities.AsWrittenNeverLoads, ClientEntities.ParseEntityAsWritten | ClientEntities.ParseEntity, ClientEntities.ParseEntityRoundTrip |
| js/index/cutscene.mjs:59 | the `MoveScene` constructor calls the missing `Vec.fromJSON` | any move scene of a registered type: a TypeError | read the destination as `new Vec(o.x, o.y)` | high; not executed | Cutscenes.MoveSceneNeverLoads, Cutscenes.ParseSceneAsWritten | Cutscenes.ParseScene, Cutscenes.ParseSceneRoundTrip |
| js/index.mjs:135 | `JSON.parse(parts.slice(1))` is given an array, which it turns into text by joining the pieces with commas (js/index.js:718 does the same) | a world whose sign text holds a pipe: `JSON.parse` sees a comma in its place | `JSON.parse(parts.slice(1).join("|"))`, the whole payload | high; not executed | Session.WorldPayloadAsWrittenLosesPipes | Session.WorldPayloadRoundTrip |
| js/index/battle.mjs:268-270 | `redraw` builds the attack tab's help text with `game.keyBinding.getKeyBindPretty`, which no key binding defines (js/index/keybinding.mjs), and `game.keyBinding` is never set | opening the attack tab with an ally selected: `redraw` throws a TypeError instead of listing the ally's moves; the description tab with a move to describe throws the same way at :281 | name the bound keys in the help text | high; not executed | BattleMenus.RedrawFailureAsWritten, BattleMenus.AttackRedrawAsWrittenThrows | BattleMenus.RedrawFailure, BattleMenus.BattleMenu.Redraw |
| js/index.mjs:3 | the client imports `Battle` from js/index/battle.mjs, which exports only `BattleMenu` (:457) | loading the client: the module fails to link with a SyntaxError, before any of it runs | import only `BattleMenu` | high; not executed | BattleMenus.ClientImportAsWrittenFails | BattleMenus.ClientImportIntendedLinks |
