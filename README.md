# Iso-rpg core in Dafny

Iso-rpg is an isometric tile RPG. A language model narrates it and changes the world through function calls. This project models and proves properties of two parts of it.

**The action protocol (`server.js`).**
- `extractToolCalls` collects the function calls of a generator response. The calls are the top-level blocks plus the blocks nested one level down.
- Each tool name is normalised into a result for the generator and, where the tool changes the world, into an action for the client.
- `/api/newgame` runs at most four rounds of call, dispatch and follow-up, and builds the starting world as it goes.
- `/api/agent` is one round of NPC dialogue. It has its own tool table, its own formatting of the last six dialogue turns, and its own fallback reply.

**The client (`src/App.tsx`).**
- The tile grid: its string encoding, the random generator, `tileAt` and `passable`.
- The clamped four-way `neighbors`, and `findPath`, an A* search ordered by `f = g + manhattan`.
- The bounded log and per-NPC history buffers.
- The reducer `applyAction`, the 100 ms path step, the nearest-NPC pick, and the click handler.

Modules:

| file | module | contents |
|---|---|---|
| js.dfy | Js | `Option` and the JavaScript coercions the source relies on: `n \| 0`, `v \|\| d`, decimal rendering, `slice(-n)` and `slice(0, n)` |
| wire.dfy | Wire | the entities (NPC, enemy, item, waypoint, quest offer, reply option, tile change, dialogue turn) and the action kinds the server sends to the client |
| tiles.dfy | Tiles | tiles, grids, `clamp`, `toMatrix`/`fromMatrix`, `generateMap`, `truncate`, `tileAt`, `passable` |
| pathfinding.dfy | Pathfinding | `manhattan`, `neighbors`, the sort of the open list, `findPath` and its path reconstruction |
| server_calls.dfy | ServerCalls | the call and response shapes, `extractToolCalls`, the per-tool normalisers, the tool outputs |
| server_newgame.dfy | NewGame | the request-local world object, the per-call effect, the round fold and loop of `/api/newgame` |
| server_agent.dfy | Agent | the dialogue tool table, the history text, the single round and the reply text of `/api/agent` |
| client.dfy | Client | the log and history buffers, quest normalisation, tile edits, the reducer, walking, NPC lookup, and the `Game` class holding the client's state |

The network and the generator are modelled as follows:
- The generator is a sequence of canned responses. Running out of responses stands for a failed generator call, which ends the request with the 500 error path.
- `Math.random` becomes `rand: nat -> string` (the k-th id suffix drawn in a request) or `draws: nat -> bool` (for the map).
- `crypto.randomUUID` becomes `uuid: nat -> string`.
- A call whose `arguments` string does not parse makes the whole request fail, as the uncaught `JSON.parse` exception does.

A call with an unknown tool name gets no tool output. In `/api/newgame` a round in which every call is unknown ends the loop (`server.js:290-293`); in `/api/agent` it makes no follow-up call (`server.js:399-402`).

## Model

| member | source | states |
|---|---|---|
| Js.ToInt32 | server.js:234 | `n \| 0` lands in the signed 32-bit range and is congruent to `n` modulo 2^32 |
| Js.ToInt32Identity | server.js:234 | `n \| 0` leaves a value already in 32-bit range unchanged |
| Js.OrZero | server.js:279 | `c.x \| 0` on a possibly absent number: absent gives 0; an in-range number is kept; the result is always in 32-bit range |
| Js.StringOr | server.js:302 | `v \|\| d` on strings: a non-empty value is kept; an absent or empty one gives the default |
| Js.Decimal | server.js:285 | the decimal rendering of a number is non-empty and made of digits only, has no leading zero except for 0 itself, and reads back as the number (`Js.DigitsValue`) |
| Js.DecimalInjective | server.js:285 | distinct numbers render to distinct decimal strings |
| Js.LastN | server.js:317 | `slice(-n)` keeps the last `min(n, length)` elements, as a suffix of the input |
| Js.Take | src/App.tsx:127 | `slice(0, n)` keeps the first `min(n, length)` elements, as a prefix of the input |
| Tiles.Clamp | src/App.tsx:31-33 | on a non-empty range the result lies in `[lo, hi]`: a value below the range gives `lo`, one above gives `hi`, and an in-range value is returned unchanged; the result is always one of `lo`, `hi`, `v` |
| Tiles.TileAt | src/App.tsx:129-131 | a cell inside the grid reads as the grid's tile there, and any cell outside it reads as a wall; so grass is only ever read from inside |
| Tiles.Passable | src/App.tsx:132-134 | a cell can be walked on exactly when its tile is grass; by `Tiles.TileAt` no cell outside the grid can |
| Tiles.RowTiles | src/App.tsx:35 | each character of a row becomes the tile it denotes, position by position |
| Tiles.ToMatrix | src/App.tsx:34-36 | the grid has the shape of the rows; a cell is a wall exactly when its character is '1', and water exactly when it is '2' |
| Tiles.RowString | src/App.tsx:38 | each tile becomes its character, position by position |
| Tiles.FromMatrix | src/App.tsx:37-39 | the rows have the shape of the grid and contain only '0', '1' and '2' |
| Tiles.MatrixRoundTrip | src/App.tsx:34-39 | `toMatrix(fromMatrix(m)) == m` for every grid |
| Tiles.RowsRoundTrip | src/App.tsx:34-39 | `fromMatrix(toMatrix(rows)) == rows` for rows made of '0', '1' and '2' |
| Tiles.GenerateMap | src/App.tsx:40-60 | the map is `h` rows of `w` tiles; the border is wall except where the clearing is cut; the 2x2 clearing at (12..13, 12..13) is grass on maps larger than 13x13; with no random hits the whole interior is grass |
| Tiles.SliceTo | src/App.tsx:62 | `s.slice(0, end)` is the prefix of length `end` for an in-range end |
| Tiles.Truncate | src/App.tsx:61-63 | a string that fits is returned unchanged; a longer one becomes its first `n-1` characters followed by the ellipsis, `n` characters in all |
| Pathfinding.Manhattan | src/App.tsx:151-153 | the heuristic `\|a.x - b.x\| + \|a.y - b.y\|`; its properties are `Pathfinding.ManhattanZero` and `Pathfinding.RouteLength` |
| Pathfinding.ManhattanZero | src/App.tsx:151-153 | the distance is symmetric and is zero exactly between a cell and itself |
| Pathfinding.Neighbors | src/App.tsx:135-150 | `neighbors(v)`; which cells it returns is stated by `Pathfinding.NeighborsMembers`, how many by `Pathfinding.NeighborsAtMostFour` |
| Pathfinding.NeighborsUpToBound | src/App.tsx:135-150 | the first n directions give at most n neighbours, all passable |
| Pathfinding.NeighborsAtMostFour | src/App.tsx:135-150 | a cell has at most four neighbours, each of them passable |
| Pathfinding.NeighborsMembers | src/App.tsx:135-150 | a cell is a neighbour exactly when it is passable and is the clamped step in one of the four directions |
| Pathfinding.NeighborStep | src/App.tsx:135-150 | every neighbour is passable and in the grid's box; from inside the box it is at Manhattan distance 1, or is the cell itself |
| Pathfinding.AdjacentIsNeighbor | src/App.tsx:135-150 | conversely, every passable in-box cell at distance 1 from an in-box cell is among its neighbours |
| Pathfinding.PassableInBox | src/App.tsx:132-134 | on a rectangular grid a passable cell lies inside the box that `neighbors` clamps to |
| Pathfinding.CollectNeighbors | src/App.tsx:135-150 | the loop over the four directions returns exactly the neighbour list, in direction order |
| Pathfinding.RoutePrefix | src/App.tsx:174 | a prefix of a route through neighbours is a route |
| Pathfinding.RouteCells | src/App.tsx:174 | every cell of a route is passable and inside the box |
| Pathfinding.RouteSteps | src/App.tsx:151-153 | a route from inside the box that never repeats a cell back to back moves one tile per step |
| Pathfinding.GridWalkIsRoute | src/App.tsx:135-153 | a walk of one-tile steps over passable in-box cells is a route |
| Pathfinding.RouteLength | src/App.tsx:151-153 | the Manhattan distance is a lower bound on the length of any route, so the heuristic never overestimates |
| Pathfinding.Insert | src/App.tsx:162 | insertion into the open list adds exactly one element and keeps the multiset |
| Pathfinding.InsertSorted | src/App.tsx:162 | insertion into a list sorted by `f` keeps it sorted |
| Pathfinding.SortByScore | src/App.tsx:162 | `open.sort` by `f` (with 1e9 for missing scores) is a sorted permutation of the open list |
| Pathfinding.InsertStable | src/App.tsx:162 | inserting a cell puts it in front of the cells of the list with the same score and keeps their order |
| Pathfinding.SortByScoreStable | src/App.tsx:162 | the sort is stable: for every score, the cells with that score keep their order from the open list, as `Array.prototype.sort` guarantees |
| Pathfinding.PotentialDrop | src/App.tsx:176-180 | lowering one cell's `g` score lowers the sum of the scores over the grid, which is why the search terminates |
| Pathfinding.GoalPopOptimal | src/App.tsx:161-164 | when the goal has the least `f` in the open list, its `g` is at most the length of every route to it shorter than the sentinel |
| Pathfinding.NoRouteLeft | src/App.tsx:161-185 | when the open list runs empty, no route to the goal is shorter than the sentinel |
| Pathfinding.Expand | src/App.tsx:174-183 | relaxing the neighbours of the popped cell keeps the search invariant and lowers the score sum, or changes nothing |
| Pathfinding.Reconstruct | src/App.tsx:165-172 | following `came` back from the goal gives a route from the start that ends at the goal, has distinct cells, omits the start, and is no longer than `g[goal]`; it is empty exactly when start equals goal |
| Pathfinding.FindPath | src/App.tsx:154-185 | empty for an impassable goal or when start equals goal; otherwise a route of distinct cells ending at the goal, shorter than the sentinel and no longer than any other route below the sentinel; empty otherwise only when no such route exists |
| Pathfinding.FoundPathShort | src/App.tsx:154-185 | a result of `findPath` is empty exactly when the goal is impassable, is the start, or has no route shorter than the sentinel; it has at most one cell exactly when, besides those, the goal is a neighbour of the start |
| Pathfinding.FoundPathShape | src/App.tsx:154-185 | every cell of a found path lies in the grid and is passable; from a start inside the grid it moves one tile per step |
| Pathfinding.CornerWalk | src/App.tsx:154-185 | on an open 5x5 field, (0,0) to (4,4) has an eight-step route |
| Pathfinding.CornerToCorner | src/App.tsx:154-185 | on that field `findPath` returns a shortest path: eight steps ending at (4,4) |
| ServerCalls.ArgsOf | server.js:217 | string arguments are parsed (and fail only when the parse fails); absent arguments read as `{}` |
| ServerCalls.TopBlocks | server.js:170-171 | `output` wins when present, then `output_array`, then `content`; the chosen property gives its blocks when it is an array and nothing otherwise; with none of the three the list is empty |
| ServerCalls.NestedCalls | server.js:175 | the nested blocks kept are tool calls, at most as many as there are blocks; a single block is kept exactly when it is a tool call |
| ServerCalls.NestedCallsAppend | server.js:175 | nested extraction distributes over concatenation, so the nested calls keep document order |
| ServerCalls.NestedCallsMembers | server.js:175 | a nested block is kept exactly when it is a tool call |
| ServerCalls.ToolCalls | server.js:169-178 | every extracted block is a tool call |
| ServerCalls.ToolCallsAppend | server.js:173-176 | extraction distributes over concatenation of the block list, so blocks are visited in order |
| ServerCalls.ToolCallsMembers | server.js:169-178 | a block is extracted exactly when it is a top-level tool call or a tool call nested one level inside a top-level block |
| ServerCalls.CollectBlockCalls | server.js:174-175 | the per-block loop yields the block itself if it is a call, then its nested calls |
| ServerCalls.ExtractToolCalls | server.js:169-178 | the loop over all blocks returns exactly the extracted call list |
| ServerCalls.NpcFrom | server.js:232-237 | the NPC id is `npc-` plus the random suffix; its coordinates are `args.x \| 0` and `args.y \| 0`; its name is the given name when that is non-empty and "NPC" otherwise; role and persona are the given strings or "" |
| ServerCalls.StatsFrom | server.js:248 | given `hp` and `atk` are kept; missing ones default to 5 and 1 |
| ServerCalls.EnemyFrom | server.js:244-249 | the enemy id is `en-` plus the suffix; its coordinates are `args.x \| 0` and `args.y \| 0`; its kind is the given kind when that is non-empty and "rat" otherwise; its stats are `StatsFrom` of the given stats |
| ServerCalls.ItemFrom | server.js:256-260 | the item id is `it-` plus the suffix; its coordinates are `args.x \| 0` and `args.y \| 0`; its kind is the given kind when that is non-empty and "gold" otherwise |
| ServerCalls.WaypointFrom | server.js:267 | the waypoint's coordinates are `args.x \| 0` and `args.y \| 0`; its note is the given note or "" |
| ServerCalls.ChangesFrom | server.js:279 | a missing change list gives no changes; otherwise one change per entry, each field coerced with `\| 0` |
| ServerCalls.OptionIdInjective | server.js:285 | the generated ids `opt1`, `opt2`, … are pairwise distinct |
| ServerCalls.RepliesFrom | server.js:285 | one reply per option; a non-empty id or text is kept; a missing or empty id becomes `opt<i+1>` and a missing or empty text "..." |
| ServerCalls.RepliesDistinctIds | server.js:285 | when no option carries a non-empty id, the generated reply ids are pairwise distinct |
| ServerCalls.ValidMapArgs | server.js:222 | the `create_map` test; `NewGame.CreateMapAcceptance` states that a map is accepted exactly when it holds |
| ServerCalls.RowStrings | server.js:222-223 | rows that are all strings are taken over one for one |
| ServerCalls.OutputIds | server.js:290 | one tool-output id per output, in order |
| ServerCalls.OutputIdsAppend | server.js:290 | output ids distribute over appending outputs |
| ServerCalls.IdsNamedStep | server.js:215-291 | the recognised call ids of a prefix grow by exactly the next call's id when its name is recognised |
| NewGame.InitialWorld | server.js:187-193 | the world starts empty, with the default legend and no rows; with no size given it is 24x24 |
| NewGame.NewGameEffect | server.js:215-291 | a call has a result exactly when its name is one of the eight tools; an action only comes with a result; exactly the three spawn tools draw a random suffix |
| NewGame.CreateMapAcceptance | server.js:220-229 | `create_map` is accepted exactly when `rows` is an array of `h` strings each of length `w`; it then replaces the rows, keeps the legend unless one is given, and echoes the map; otherwise the world is unchanged and the result is the invalid-map error |
| NewGame.SpawnAppendsOne | server.js:231-264 | each spawn appends exactly one normalised entity with a prefixed fresh id to its own list and leaves the other lists, the map and the waypoint alone |
| NewGame.NonWorldCalls | server.js:272-288 | quests, tile edits and reply options leave the server's world unchanged; the quest list is the fixed starter quest whatever the arguments; the tile result counts the changes |
| NewGame.World.constructor | server.js:187-193 | the world object starts as the initial world |
| NewGame.World.Apply | server.js:216-289 | one call updates the world object exactly as the effect says and returns its action, result and draw count |
| NewGame.DispatchStaysFailed | server.js:217 | once an argument parse fails, the whole round has failed |
| NewGame.Dispatch | server.js:214-291 | one round's dispatch as a function; its properties are `NewGame.DispatchOutputs`, `NewGame.DispatchIsReplay` and `NewGame.DispatchStaysFailed` |
| NewGame.DispatchOutputs | server.js:214-291 | the tool-output ids are exactly the ids of the recognised calls, in order, and there are no more actions than outputs |
| NewGame.ReplayAppend | server.js:208-303 | replaying the echoed actions distributes over concatenation |
| NewGame.ReplayVisible | server.js:208-303 | the visible world after a replay depends only on the visible part of the starting world |
| NewGame.EffectIsEcho | server.js:215-291 | the change to the visible world made by each call is exactly what replaying its echoed action does |
| NewGame.DispatchIsReplay | server.js:215-291 | after a round, the visible world is the replay of the round's actions |
| NewGame.DispatchRound | server.js:214-291 | the dispatch loop of one round computes the round's outcome and leaves the world object holding its world |
| NewGame.Rounds | server.js:210-300 | the round loop as a function; its properties are `NewGame.RoundsKeep` and `NewGame.RoundsAnswer` |
| NewGame.NewGameSpec | server.js:183-307 | the request as a function of the responses; its properties are the `NewGame.NewGame*` lemmas below and the contract of `NewGame.NewGameRequest` |
| NewGame.NewGameRequest | server.js:183-307 | the request handler computes exactly the specified reply: the intro text, the world and the action list, or failure |
| NewGame.RoundsKeep | server.js:210-300 | every round keeps the world consistent with its action list, only extends the actions, and adds at most one follow-up per remaining round |
| NewGame.RoundOutputIds | server.js:214-290 | the tool outputs of a round carry exactly the ids of the recognised calls of the response it answers |
| NewGame.AnsweredEach | server.js:290-297 | follow-up by follow-up, each carries one output per recognised call of its response and none is empty |
| NewGame.RoundsAnswer | server.js:210-297 | every follow-up sent answers its own response, and the loop stops before the fourth round only at a response with no recognised call |
| NewGame.FinalState | server.js:210-303 | a successful request ends in a consistent loop state with at most four follow-ups, each answering its own response, stopping early only at a response with no recognised call, and replies with its last response's text or the fallback intro |
| NewGame.NewGameBounded | server.js:210-303 | at most four follow-up calls are made, fewer than the responses consumed, and the intro is the last response's text or "Вы пришли на поляну…" |
| NewGame.NewGameWorldIsReplay | server.js:208-303 | the visible returned world is the replay of the returned actions from the initial world |
| NewGame.NewGameFollowUps | server.js:214-297 | the i-th follow-up call sends one tool output per recognised call of the i-th response, in order, and is never sent empty |
| NewGame.NewGameStops | server.js:210-293 | fewer than four follow-ups are sent only when the next response has no recognised call: it proposes no call, or none of its calls gets an output |
| NewGame.NewGameFullRounds | server.js:210-297 | when each of the first four responses has a recognised call, exactly four follow-ups are sent and five responses are consumed |
| NewGame.NoCallsNoRounds | server.js:211-212 | a first response without tool calls returns its own text, the initial world and no actions |
| NewGame.ReplayNpcs | server.js:238-240 | the NPCs after a replay are the NPCs before it followed by the spawned ones, in order |
| NewGame.ReplayWaypoint | server.js:267-269 | the waypoint after a replay is the last one set, or the earlier one if none was set |
| NewGame.ReplayKeepsRows | server.js:223-225 | without `create_map` actions the map rows are unchanged |
| Agent.AgentEffect | server.js:345-400 | a dialogue call has a result exactly when its name is one of the eight dialogue tools, and an action exactly when it is not `create_map`; no action is ever a map change; exactly the three spawn tools draw a suffix |
| Agent.AgreesWithNewGame | server.js:350-397 | the dialogue tools echo the same actions as world generation for the shared names, `spawn_item` matches `place_item`, `give_quests` hands out its own two quests, and `create_map` is refused with no action |
| Agent.AgentStaysFailed | server.js:347 | once an argument parse fails, the dialogue round has failed |
| Agent.AgentPrefixStep | server.js:345-400 | each further call appends its action, if any, and its output, if any, to the round |
| Agent.AgentOutputs | server.js:399 | the tool-output ids are exactly the ids of the recognised dialogue calls, in order |
| Agent.AgentActions | server.js:345-400 | there is one action per call other than `create_map` among the recognised ones, and none of them changes the map |
| Agent.AgentDispatch | server.js:345-400 | the dispatch loop computes exactly the round's outcome |
| Agent.HistoryLine | server.js:318 | every formatted history line is non-empty |
| Agent.Lines | server.js:317-318 | one formatted line per turn, in order |
| Agent.HistoryWindow | server.js:317 | only the last six turns reach the prompt: earlier turns do not change the history text |
| Agent.JoinLinesEmpty | server.js:319 | joining non-empty lines gives "" exactly when there are no lines |
| Agent.HistoryText | server.js:317-319 | `histText` as a function; its properties are `Agent.HistoryEmpty`, `Agent.HistoryWindow` and `Agent.HistoryAppend` |
| Agent.HistoryEmpty | server.js:317-337 | the history text is empty exactly when the history is, and the context message then reads "—" |
| Agent.HistoryAppend | server.js:317-319 | one more turn drops the oldest of the six and adds its own line at the end |
| Agent.ReplyText | server.js:410 | a non-empty `output_text` is the reply; an empty one gives the NPC's name, or "NPC" when that is absent or empty, followed by " молча кивает." |
| Agent.AgentRequest | server.js:313-411 | the handler computes exactly the specified reply: text, actions, and the follow-up outputs if any, or failure |
| Agent.AgentSpec | server.js:313-415 | the handler as a function of the responses; its properties are `Agent.Dispatched`, `Agent.AgentReplyFacts`, `Agent.AgentReplyText` and the contract of `Agent.AgentRequest` |
| Agent.Dispatched | server.js:345-400 | in a successful reply, the round's outputs cover exactly the recognised calls and its actions the echoing ones |
| Agent.AgentReplyFacts | server.js:342-408 | a reply never changes the map; it has one action per echoing call; a follow-up call happens exactly when some call was recognised, and it carries exactly their ids |
| Agent.AgentReplyText | server.js:402-410 | the reply text is the last response's text; failing that, the NPC's name plus " молча кивает."; failing that, "NPC" plus the same |
| Client.PushedLog | src/App.tsx:126-128 | the new message comes first, the previous log follows, and the log is cut to 20 entries |
| Client.PushAllNewestFirst | src/App.tsx:126-128 | after several pushes the log is the messages newest first, then the old log, cut to 20 |
| Client.PushedHistory | src/App.tsx:198-203 | pushing a turn creates the NPC's entry if needed, keeps other NPCs' histories, and leaves between 1 and 12 turns with the new one last |
| Client.LastNAppend | src/App.tsx:200-201 | cutting to 12 before appending gives the same as cutting after |
| Client.PushAllHistoryKeepsLast | src/App.tsx:198-203 | after several pushes the NPC's history is the last 12 of all its turns, and other NPCs are untouched |
| Client.NormQuest | src/App.tsx:212-217 | a quest keeps its given fields, defaults a missing id to a fresh uuid, the title to "Квест" and the description to "Описание отсутствует", and starts as new |
| Client.NormQuests | src/App.tsx:212-217 | each offer is normalised in order, the i-th with the i-th uuid |
| Client.TileCode | src/App.tsx:241 | code 1 is a wall, 2 water, anything else grass |
| Client.Holes | src/App.tsx:242 | the gap left by a write past the end of a short row reads as wall |
| Client.TilesAfter | src/App.tsx:233-246 | tile edits keep the number of rows; the cells are stated by `Client.TilesAfterCells` |
| Client.TilesAfterCells | src/App.tsx:233-246 | on a rectangular grid, tile edits keep the shape; each cell holds the code of the last in-bounds edit to it, or its old tile |
| Client.ApplyTileChanges | src/App.tsx:235-246 | the edit loop on the cloned grid computes exactly the specified grid |
| Client.Applied | src/App.tsx:206-249 | the reducer as a function of state and action; each kind of action is stated by the `Client.Applied*` lemmas below |
| Client.AppliedSpawns | src/App.tsx:221-225 | a spawn action appends its payload to its own list and changes nothing else |
| Client.AppliedReplaces | src/App.tsx:209-231 | waypoint and reply-option actions replace the previous value outright, whatever it was |
| Client.AppliedQuests | src/App.tsx:211-219 | new quests go before the old ones; the list is cut to 6; new quests are normalised and start as new |
| Client.AppliedOthers | src/App.tsx:227 | a map action replaces the grid with the decoded rows; an unrecognised action changes nothing |
| Client.AppliedTiles | src/App.tsx:233-248 | a tile action changes only the grid and, with a non-empty note, logs the note first; the grid keeps its shape, and cells no edit touches are kept |
| Client.Step | src/App.tsx:115-120 | on a non-empty path the player moves to its first cell and the rest of the path remains; an empty path leaves the player where it is |
| Client.Walk | src/App.tsx:115-120 | after `t` ticks, `max(\|path\| - t, 0)` cells of the path remain |
| Client.WalkFollowsPath | src/App.tsx:115-120 | after `t` ticks the player stands on the t-th cell of the path and the rest of the path remains; a finished path leaves the player on its last cell |
| Client.FirstWithinIndex | src/App.tsx:285 | the index found is that of the first NPC within the distance, and none exists exactly when no NPC is within it |
| Client.FirstWithin | src/App.tsx:285 | the NPC found is within the distance and comes from the list; none is found exactly when no NPC is within it |
| Client.NearestNpc | src/App.tsx:285 | the talk target as a function; its properties are `Client.NearestNpcWithin` |
| Client.NearestNpcWithin | src/App.tsx:285 | the NPC a talk goes to is one of the NPCs and stands within one tile of the player; there is none exactly when every NPC is farther |
| Client.NpcAt | src/App.tsx:476 | the NPC hit by a click is one of the NPCs and stands on the clicked tile; none is hit exactly when no NPC stands there |
| Client.Game.constructor | src/App.tsx:69-99 | the client starts on a 24x24 generated map whose border is wall and whose centre block (12..13, 12..13) is grass, with the player at (5,5), the demo NPC Гридд at (13,13) inside that grass block, the wake-up log line and everything else empty |
| Client.Game.PushLog | src/App.tsx:126-128 | only the log changes, to the pushed log |
| Client.Game.PushNpcHistory | src/App.tsx:198-203 | only the dialogue histories change, to the pushed histories |
| Client.Game.ApplyAction | src/App.tsx:206-249 | the state after an action is the reducer applied to the state before |
| Client.Game.Tick | src/App.tsx:115-120 | one tick moves the player to the first cell of the path and drops it; with no path nothing changes |
| Client.Game.BeginTalk | src/App.tsx:284-295 | talk picks the first NPC within one tile; with none it logs "Рядом нет NPC."; otherwise it selects that NPC, clears the reply options and records a non-empty opening message |
| Client.ApproachRoute | src/App.tsx:477 | the path to an NPC's cell has more than one cell exactly when the cell is grass, is not the player's, is not next to the player and is reachable; it is then a shortest route ending on that cell, and all of it but the last cell leads up to the NPC |
| Client.Game.ClickNpc | src/App.tsx:476-481 | clicking an NPC walks a shortest route to the tile before it; it talks to the nearest NPC instead exactly when the NPC's cell is impassable, is the player's own, is next to the player or cannot be reached; nothing else changes |
| Client.DestinationRoute | src/App.tsx:483 | the path to a clicked cell is empty exactly when the cell is impassable, is the player's own or cannot be reached; otherwise it is a shortest route ending on that cell |
| Client.Game.ClickCell | src/App.tsx:483-485 | clicking a cell with no NPC walks a shortest route ending on it; it logs "Туда не пройти." instead, changing nothing else, exactly when the cell is impassable, is the player's own or cannot be reached |
| Client.Game.Click | src/App.tsx:474-486 | a click on an NPC behaves as ClickNpc for that NPC; a click elsewhere never talks and behaves as ClickCell: a shortest route ending on the tile, or "Туда не пройти." exactly when the tile is impassable, is the player's own, or cannot be reached |

## Left out

- HTTP routing, the OpenAI client, prompt wording and request parsing are left out. The generator is a sequence of canned responses. The model, temperature and theme hint only feed prompts. The world summary, player message and NPC description in the dialogue prompt are not modelled; only the dialogue-context message is (`Agent.DialogueContext`).
- `Math.random().toString(36).slice(2, 8)` and `crypto.randomUUID()` are injected functions. Ids are therefore not proved fresh or distinct across draws.
- JSON values are typed. Arguments, stats, changes and options are typed fields. A `null` block, option or change entry, floats, and non-string names are outside the model; the `String(...)` coercions are identities on strings.
- Pathfinding.FindPath: the score maps are keyed by cells rather than by `"x,y"` strings, so the key/parse round trip is not modelled.
- Pathfinding.FindPath: optimality and completeness are stated only for routes shorter than the 1e9 sentinel the source uses for missing scores.
- Client.ApproachRoute: "shortest" and "cannot be reached" inherit the sentinel bound of FindPath.
- Client.Game.ClickNpc: "shortest" and "cannot be reached" inherit the sentinel bound of FindPath.
- Client.DestinationRoute: "shortest" and "cannot be reached" inherit the sentinel bound of FindPath.
- Client.Game.ClickCell: "shortest" and "cannot be reached" inherit the sentinel bound of FindPath.
- Client.Game.Click: "shortest" and "cannot be reached" inherit the sentinel bound of FindPath.
- Pathfinding.FoundPathShape: the one-tile-per-step property needs the start inside the grid. Clamping lets the first step out of an off-grid start jump.
- Client.TilesAfterCells: the per-cell statement is for rectangular grids. On ragged rows a write past the end of a short row leaves holes, modelled as walls (`Client.Holes`), which is what `tileAt` reads them as.
- Tiles.GenerateMap: the interior is described exactly only when no random draw hits. Otherwise only the border and the clearing are stated.
- Js.LastN: models `slice(-n)` for `n >= 1` only, the only values the source uses (6 and 12). `slice(-0)` would return the whole list.
- Tiles.Truncate: lengths count Unicode scalar values (Dafny characters), not the UTF-16 code units JavaScript's `length` counts; the source can cut a surrogate pair in half where the model cannot.
- ServerCalls.ValidMapArgs: row lengths count Unicode scalar values, not UTF-16 code units, so a row holding a character outside the Basic Multilingual Plane (an emoji) passes the model's test while the source rejects it.
- NewGame.CreateMapAcceptance: accepts exactly what `ServerCalls.ValidMapArgs` accepts, so it shares that difference in how row lengths are counted.
- NewGame.CreateMapAcceptance: the accepted map stores `h` as the number of rows, which equals `args.h` whenever the map is accepted.
- Rendering, the camera, `screenToTile`, enemies' and items' display, and the model selector are presentation and are left out.
- Timers and the asynchronous tail of talking are left out: the continuation that sends the request, `npcThinking`, `npcReply`, `chooseReply` and the client's `newGame` handler. The path step is modelled as one `Tick`.
- The `if (!a) return` guard for a missing action has no counterpart, because actions are a datatype.
